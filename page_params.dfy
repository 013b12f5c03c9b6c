/**
 * What the widget derives from the page address: the form identifier, the
 * prompt image's address and file name, and the name of the uploaded file.
 */
module PageParams {
  import opened Optional
  import opened TimeFormat

  /** `s.split(c)`: the pieces between separators, empty pieces included. */
  function Split(s: string, c: char): (parts: seq<string>)
    ensures |parts| >= 1
    ensures forall i :: 0 <= i < |parts| ==> c !in parts[i]
    ensures forall i, d :: 0 <= i < |parts| && d in parts[i] ==> d in s
    decreases |s|
  {
    if s == [] then [""]
    else
      var rest := Split(s[1..], c);
      assert forall d :: d in s[1..] ==> d in s;
      if s[0] == c then [""] + rest
      else [[s[0]] + rest[0]] + rest[1..]
  }

  /** `parts.join(c)`. */
  function Join(parts: seq<string>, c: char): string
    requires |parts| >= 1
  {
    if |parts| == 1 then parts[0] else parts[0] + [c] + Join(parts[1..], c)
  }

  /** Joining the pieces gives back the string. */
  lemma {:induction false} JoinSplit(s: string, c: char)
    ensures Join(Split(s, c), c) == s
    decreases |s|
  {
    if s != [] {
      var rest := Split(s[1..], c);
      JoinSplit(s[1..], c);
      if s[0] != c && |rest| > 1 {
        var parts := Split(s, c);
        assert parts[1..] == rest[1..];
        assert Join(parts, c) == [s[0]] + Join(rest, c);
      }
    }
  }

  lemma {:induction false} SplitNoSeparator(p: string, c: char)
    requires c !in p
    ensures Split(p, c) == [p]
    decreases |p|
  {
    if p != [] {
      assert p[0] in p;
      SplitNoSeparator(p[1..], c);
      assert [p[0]] + p[1..] == p;
    }
  }

  /** A piece without separator, then a separator, splits off as the first piece. */
  lemma {:induction false} SplitAfterPiece(p: string, q: string, c: char)
    requires c !in p
    ensures Split(p + [c] + q, c) == [p] + Split(q, c)
    decreases |p|
  {
    var s := p + [c] + q;
    if p == [] {
      assert s[1..] == q;
    } else {
      assert s[1..] == p[1..] + [c] + q;
      assert s[0] == p[0] && p[0] in p;
      SplitAfterPiece(p[1..], q, c);
      assert [p[0]] + p[1..] == p;
    }
  }

  /** Splitting undoes joining pieces that hold no separator. */
  lemma {:induction false} SplitJoin(parts: seq<string>, c: char)
    requires |parts| >= 1
    requires forall i :: 0 <= i < |parts| ==> c !in parts[i]
    ensures Split(Join(parts, c), c) == parts
  {
    if |parts| == 1 {
      SplitNoSeparator(parts[0], c);
    } else {
      SplitJoin(parts[1..], c);
      SplitAfterPiece(parts[0], Join(parts[1..], c), c);
    }
  }

  /** A separator followed by a piece without separator splits off as the last piece. */
  lemma {:induction false} SplitBeforeLast(p: string, q: string, c: char)
    requires c !in q
    ensures Split(p + [c] + q, c) == Split(p, c) + [q]
    decreases |p|
  {
    var s := p + [c] + q;
    if p == [] {
      assert s[1..] == q;
      SplitNoSeparator(q, c);
    } else {
      assert s[1..] == p[1..] + [c] + q;
      SplitBeforeLast(p[1..], q, c);
      var restP := Split(p[1..], c);
      if p[0] != c {
        assert (restP + [q])[1..] == restP[1..] + [q];
      }
    }
  }

  /**
   * The form identifier: the `id` query parameter when it is present and
   * non-empty; otherwise the last path segment, or the one before it when the
   * last is empty (`segs.pop() || segs.pop()`); `None` is `undefined`.
   */
  function FormId(idParam: Option<string>, pathname: string): (r: Option<string>)
    ensures idParam.Some? && idParam.value != "" ==> r == idParam
    ensures (idParam.None? || idParam.value == "") && r.Some? ==>
      r.value in Split(pathname, '/') && '/' !in r.value
  {
    if idParam.Some? && idParam.value != "" then idParam
    else
      var segs := Split(pathname, '/');
      if segs[|segs| - 1] != "" then Some(segs[|segs| - 1])
      else if |segs| >= 2 then Some(segs[|segs| - 2])
      else None
  }

  /** How the identifier reads once interpolated into a string. */
  function FormIdText(formId: Option<string>): string
  {
    match formId
    case Some(s) => s
    case None => "undefined"
  }

  lemma FormIdLastSegment(idParam: Option<string>, prefix: string, segment: string)
    requires idParam.None? || idParam.value == ""
    requires '/' !in segment && segment != ""
    ensures FormId(idParam, prefix + "/" + segment) == Some(segment)
  {
    SplitBeforeLast(prefix, segment, '/');
  }

  lemma FormIdTrailingSlash(idParam: Option<string>, prefix: string, segment: string)
    requires idParam.None? || idParam.value == ""
    requires '/' !in segment
    ensures FormId(idParam, prefix + "/" + segment + "/") == Some(segment)
  {
    SplitBeforeLast(prefix + "/" + segment, "", '/');
    SplitBeforeLast(prefix, segment, '/');
    assert prefix + "/" + segment + "/" == (prefix + "/" + segment) + ['/'] + "";
  }

  /** The directory the prompt images are served from. */
  const IMAGE_DIR: string := "https://jonasgpayer.github.io/verificacion-voz-formulario/images"

  /** `imgEl.src`: the prompt image for the form, with a cache-busting timestamp. */
  function ImageSrc(formId: string, timestamp: nat): string
  {
    IMAGE_DIR + "/" + formId + ".png?ts=" + Decimal(timestamp)
  }

  /** `src.split('/').pop().split('?')[0]`. */
  function ImageName(src: string): (r: string)
    ensures '/' !in r && '?' !in r
  {
    var segs := Split(src, '/');
    Split(segs[|segs| - 1], '?')[0]
  }

  /** The name the take is uploaded under. */
  function AudioFileName(formId: string): string
  {
    formId + ".webm"
  }

  lemma DecimalHasNoSeparators(n: nat)
    ensures '/' !in Decimal(n) && '?' !in Decimal(n)
  {
    var s := Decimal(n);
    assert forall i :: 0 <= i < |s| ==> s[i] != '/' && s[i] != '?';
  }

  /** The image name of `<dir>/<file>?<query>` is `file`. */
  lemma ImageNameOfAddress(dir: string, file: string, query: string)
    requires '/' !in file && '/' !in query && '?' !in file
    ensures ImageName(dir + "/" + file + "?" + query) == file
  {
    var tail := file + "?" + query;
    assert dir + "/" + file + "?" + query == dir + ['/'] + tail;
    SplitBeforeLast(dir, tail, '/');
    assert tail == file + ['?'] + query;
    SplitAfterPiece(file, query, '?');
  }

  /** The image name sent with the take is the prompt image's file name. */
  lemma ImageNameOfPrompt(formId: string, timestamp: nat)
    requires '/' !in formId && '?' !in formId
    ensures ImageName(ImageSrc(formId, timestamp)) == formId + ".png"
  {
    var digits := Decimal(timestamp);
    DecimalHasNoSeparators(timestamp);
    assert '/' !in ".png" && '/' !in "ts=" && '?' !in ".png";
    assert ImageSrc(formId, timestamp) == IMAGE_DIR + "/" + (formId + ".png") + "?" + ("ts=" + digits);
    ImageNameOfAddress(IMAGE_DIR, formId + ".png", "ts=" + digits);
  }
}
