/**
  The telemetry window: a first-in first-out sequence of samples whose
  length never grows past `MaxHistoryLength`. Appending to a full window
  evicts the oldest sample (index 0), never any other.
 */
module History {
  import opened Types

  /** The sample the window is filled with on start-up and on reboot. */
  const ZeroSample := Sample(0, 0.0)

  /** A full window of zero samples. */
  function Zeros(): (h: seq<Sample>)
    ensures |h| == MaxHistoryLength
    ensures forall i :: 0 <= i < |h| ==> h[i] == ZeroSample
  {
    seq(MaxHistoryLength, _ => ZeroSample)
  }

  /** Appends `x` as the newest sample and, when that overflows the capacity,
      drops the oldest one. */
  function Push(h: seq<Sample>, x: Sample): (r: seq<Sample>)
    ensures |r| > 0 && r[|r| - 1] == x
    ensures |h| < MaxHistoryLength ==> r == h + [x]
    ensures |h| >= MaxHistoryLength ==> |r| == |h| && r == h[1..] + [x]
  {
    var appended := h + [x];
    if |appended| > MaxHistoryLength then appended[1..] else appended
  }

  /** Corollary of `Push` stated index-wise: a window that starts full stays
      exactly full after every push, and each surviving sample moves down one
      place. */
  lemma PushKeepsFull(h: seq<Sample>, x: Sample)
    requires |h| == MaxHistoryLength
    ensures |Push(h, x)| == MaxHistoryLength
    ensures forall i :: 0 <= i < MaxHistoryLength - 1 ==> Push(h, x)[i] == h[i + 1]
  {
  }

  /** Pushes the samples of `xs` one after another, oldest first: the window
      after `|xs|` ticks. */
  function PushAll(h: seq<Sample>, xs: seq<Sample>): (r: seq<Sample>)
    decreases |xs|
  {
    if |xs| == 0 then h else PushAll(Push(h, xs[0]), xs[1..])
  }

  /** Pushing a batch onto a full window yields the old window followed by
      the batch, with the first `|xs|` elements dropped: the window slides by
      one position per sample. */
  lemma {:induction false} PushAllSlides(h: seq<Sample>, xs: seq<Sample>)
    requires |h| == MaxHistoryLength
    ensures PushAll(h, xs) == (h + xs)[|xs|..]
    ensures |PushAll(h, xs)| == MaxHistoryLength
    decreases |xs|
  {
    if |xs| == 0 {
      assert h + xs == h;
    } else {
      var h' := Push(h, xs[0]);
      assert h' == h[1..] + [xs[0]];
      PushAllSlides(h', xs[1..]);
      assert h' + xs[1..] == (h + xs)[1..] by {
        assert xs == [xs[0]] + xs[1..];
        assert h + xs == h + [xs[0]] + xs[1..];
      }
      assert (h' + xs[1..])[|xs| - 1..] == (h + xs)[1..][|xs| - 1..];
    }
  }

  /** After at least `MaxHistoryLength` pushes onto a full window, the window
      holds exactly the most recent `MaxHistoryLength` samples, in order; its
      element 0 is the `MaxHistoryLength`-th most recent push. */
  lemma {:induction false} PushAllKeepsMostRecent(h: seq<Sample>, xs: seq<Sample>)
    requires |h| == MaxHistoryLength
    requires |xs| >= MaxHistoryLength
    ensures PushAll(h, xs) == xs[|xs| - MaxHistoryLength..]
    ensures PushAll(h, xs)[0] == xs[|xs| - MaxHistoryLength]
  {
    PushAllSlides(h, xs);
    assert (h + xs)[|xs|..] == xs[|xs| - MaxHistoryLength..];
  }
}
