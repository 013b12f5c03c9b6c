/**
 * The waveform visualiser's data path: each animation frame reads one array
 * of frequency magnitudes (bytes), reduces it to its mean, and pushes that
 * into a sliding window holding the most recent `MAX_DATA_POINTS` values.
 */
module Visualiser {

  /** An element of the analyser's `Uint8Array`. */
  newtype byte = x: int | 0 <= x < 256

  /** Capacity of the visualiser window (`MAX_DATA_POINTS`). */
  const MAX_DATA_POINTS: nat := 50

  /** The sum of a frame's magnitudes, from the front. */
  function Sum(frame: seq<byte>): nat
  {
    if frame == [] then 0 else Sum(frame[..|frame| - 1]) + frame[|frame| - 1] as int
  }

  lemma {:induction false} SumBound(frame: seq<byte>)
    ensures Sum(frame) <= 255 * |frame|
  {
    if frame != [] {
      SumBound(frame[..|frame| - 1]);
    }
  }

  /** The summation loop of `drawWaveform`. */
  method FrameSum(frame: seq<byte>) returns (sum: nat)
    ensures sum == Sum(frame)
  {
    sum := 0;
    var i := 0;
    while i < |frame|
      invariant 0 <= i <= |frame|
      invariant sum == Sum(frame[..i])
    {
      assert frame[..i + 1][..i] == frame[..i];
      sum := sum + frame[i] as int;
      i := i + 1;
    }
    assert frame[..i] == frame;
  }

  /** The sample pushed for one frame: the mean magnitude, 0 for an empty frame. */
  function Mean(frame: seq<byte>): (m: real)
    ensures 0.0 <= m <= 255.0
    ensures frame == [] ==> m == 0.0
  {
    SumBound(frame);
    if |frame| > 0 then Sum(frame) as real / |frame| as real else 0.0
  }

  /**
   * `push` followed by one `shift` when the window has grown past capacity.
   */
  function Push<T>(window: seq<T>, x: T): (r: seq<T>)
    ensures |window| < MAX_DATA_POINTS ==> |r| == |window| + 1
    ensures |window| >= MAX_DATA_POINTS ==> |r| == |window|
    ensures |window| <= MAX_DATA_POINTS ==> |r| <= MAX_DATA_POINTS
    ensures r[|r| - 1] == x
    ensures r[..|r| - 1] == window[|window| + 1 - |r|..]
  {
    var pushed := window + [x];
    if |pushed| > MAX_DATA_POINTS then pushed[1..] else pushed
  }

  /** The reference window: the last `n` elements of everything seen. */
  function LastN<T>(s: seq<T>, n: nat): (r: seq<T>)
    ensures |r| == if |s| <= n then |s| else n
  {
    if |s| <= n then s else s[|s| - n..]
  }

  /** The window after pushing `xs`, oldest first, into `window`. */
  function Feed<T>(window: seq<T>, xs: seq<T>): seq<T>
  {
    if xs == [] then window else Push(Feed(window, xs[..|xs| - 1]), xs[|xs| - 1])
  }

  lemma PushLastN<T>(s: seq<T>, x: T)
    ensures Push(LastN(s, MAX_DATA_POINTS), x) == LastN(s + [x], MAX_DATA_POINTS)
  {
    if |s| >= MAX_DATA_POINTS {
      var n := MAX_DATA_POINTS;
      assert LastN(s, n) + [x] == s[|s| - n..] + [x];
      assert (s[|s| - n..] + [x])[1..] == (s + [x])[|s| + 1 - n..];
    }
  }

  /**
   * Pushing samples one at a time into a window within capacity leaves
   * exactly the most recent `MAX_DATA_POINTS` of all samples, in order.
   */
  lemma {:induction false} FeedKeepsLatest<T>(window: seq<T>, xs: seq<T>)
    requires |window| <= MAX_DATA_POINTS
    ensures Feed(window, xs) == LastN(window + xs, MAX_DATA_POINTS)
  {
    if xs == [] {
      assert window + xs == window;
    } else {
      var init, x := xs[..|xs| - 1], xs[|xs| - 1];
      assert Feed(window, xs) == Push(Feed(window, init), x);
      FeedKeepsLatest(window, init);
      PushLastN(window + init, x);
      assert window + xs == (window + init) + [x];
    }
  }
}
