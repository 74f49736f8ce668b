/** Phase arithmetic of one looping stem: where in its buffer a stem that has
    been looping since the shared epoch currently is, and the buffer re-cut so
    that playing it from the top continues from exactly that point. */
module Sync {

  /** A 16-bit signed PCM sample, the mixer's sample format. */
  newtype int16 = x: int | -32768 <= x < 32768

  /** One row of the sample array: a stereo frame (the mixer runs two channels). */
  datatype Frame = Frame(left: int16, right: int16)

  /** The offset into a buffer of `total` frames that a continuous loop started
      at the epoch has reached after `elapsed` frames of wall-clock time.
      `elapsed` is the already-truncated product of elapsed seconds and rate. */
  function StartSample(elapsed: nat, total: nat): (r: nat)
    requires total > 0
    ensures r < total
    ensures (elapsed - r) % total == 0
  {
    var r := elapsed % total;
    ModUnique(elapsed - r, total, elapsed / total, 0);
    r
  }

  /** The buffer cut at `k`: the tail from `k` followed by the head up to `k`. */
  function Rotate<T>(s: seq<T>, k: nat): (r: seq<T>)
    requires k <= |s|
    ensures |r| == |s|
    ensures forall i :: 0 <= i < |s| ==> r[i] == s[(k + i) % |s|]
  {
    var r := s[k..] + s[..k];
    forall i | 0 <= i < |s| ensures r[i] == s[(k + i) % |s|] {
      if k + i < |s| {
        ModOfSmall(k + i, |s|);
      } else {
        ModOfWrapped(k + i, |s|);
      }
    }
    r
  }

  /** The segment one re-trigger plays for a stem whose loop is `buffer`: as
      long as the loop and made of exactly its frames (`PhaseAligned` says in
      which order). */
  function Segment<T>(buffer: seq<T>, elapsed: nat): (r: seq<T>)
    requires |buffer| > 0
    ensures |r| == |buffer|
    ensures multiset(r) == multiset(buffer)
  {
    var k := StartSample(elapsed, |buffer|);
    RotatePermutes(buffer, k);
    Rotate(buffer, k)
  }

  lemma ModOfSmall(x: nat, n: nat)
    requires x < n
    ensures x % n == x
  {
  }

  lemma ModOfWrapped(x: nat, n: nat)
    requires n <= x < 2 * n
    ensures x % n == x - n
  {
  }

  lemma MulAtLeast(a: nat, n: nat)
    requires a >= 1
    ensures a * n >= n
  {
  }

  /** Quotient and remainder are unique: any split of `x` into whole loops of
      `n` plus a remainder below `n` gives `x % n`. */
  lemma ModUnique(x: nat, n: nat, q: nat, r: nat)
    requires r < n && x == q * n + r
    ensures x % n == r
  {
    var q', r' := x / n, x % n;
    assert x == q' * n + r';
    if q > q' {
      assert q * n == q' * n + (q - q') * n;
      MulAtLeast(q - q', n);
    } else if q < q' {
      assert q' * n == q * n + (q' - q) * n;
      MulAtLeast(q' - q, n);
    }
  }

  /** Adding whole loops does not move the phase. */
  lemma ModAddMultiple(x: nat, q: nat, n: nat)
    requires n > 0
    ensures (x + q * n) % n == x % n
  {
    var q', r := x / n, x % n;
    assert x + q * n == (q' + q) * n + r;
    ModUnique(x + q * n, n, q' + q, r);
  }

  /** Reducing the first summand modulo `n` does not change the sum's phase. */
  lemma ModAddReduce(e: nat, i: nat, n: nat)
    requires n > 0
    ensures (e % n + i) % n == (e + i) % n
  {
    var q := e / n;
    assert e == e % n + q * n;
    ModAddMultiple(e % n + i, q, n);
    assert e % n + i + q * n == e + i;
  }

  /** Phase alignment: the i-th frame of the segment played at `elapsed` is the
      frame a loop running continuously since the epoch sounds at `elapsed + i`.
      So a stem re-triggered at any instant is in phase with the shared
      timeline, whatever happened to it before. */
  lemma PhaseAligned<T>(buffer: seq<T>, elapsed: nat, i: nat)
    requires 0 < |buffer| && i < |buffer|
    ensures |Segment(buffer, elapsed)| == |buffer|
    ensures Segment(buffer, elapsed)[i] == buffer[(elapsed + i) % |buffer|]
  {
    ModAddReduce(elapsed, i, |buffer|);
  }

  /** Two stems with buffers of the same length, re-triggered at the same
      instant, both start at the same offset and play, frame for frame, the
      same position of their loops. A corollary of `PhaseAligned`, applied to
      each stem: the alignment across stems comes from sharing the epoch, not
      from any coordination between them. */
  lemma SharedEpochInPhase<T, U>(a: seq<T>, b: seq<U>, elapsed: nat, i: nat)
    requires 0 < |a| == |b| && i < |a|
    ensures StartSample(elapsed, |a|) == StartSample(elapsed, |b|)
    ensures Segment(a, elapsed)[i] == a[(elapsed + i) % |a|]
    ensures Segment(b, elapsed)[i] == b[(elapsed + i) % |a|]
  {
    PhaseAligned(a, elapsed, i);
    PhaseAligned(b, elapsed, i);
  }

  /** Resuming does not compensate for the pause: the offset at a re-trigger at
      `resumed` is the offset at `paused` advanced by the paused duration, and it
      equals the paused offset exactly when the pause lasted whole loops. */
  lemma {:induction false} ResumeJumpsAhead(paused: nat, resumed: nat, total: nat)
    requires 0 < total && paused <= resumed
    ensures StartSample(resumed, total) == (StartSample(paused, total) + (resumed - paused)) % total
    ensures StartSample(resumed, total) == StartSample(paused, total) <==> (resumed - paused) % total == 0
  {
    var d := resumed - paused;
    ModAddReduce(paused, d, total);
    var p := paused % total;
    var q, s := d / total, d % total;
    assert d == s + q * total;
    ModAddMultiple(p + s, q, total);
    assert (p + d) % total == (p + s) % total;
    if p + s < total {
      ModOfSmall(p + s, total);
    } else {
      ModOfWrapped(p + s, total);
    }
  }

  /** Rotating by zero plays the buffer as loaded. */
  lemma RotateZero<T>(s: seq<T>)
    ensures Rotate(s, 0) == s
  {
  }

  /** Cutting at `|s| - k` undoes a cut at `k`: nothing is lost or reordered
      beyond the rotation itself. */
  lemma RotateInverse<T>(s: seq<T>, k: nat)
    requires k <= |s|
    ensures Rotate(Rotate(s, k), |s| - k) == s
  {
  }

  /** The segment holds exactly the buffer's frames. */
  lemma RotatePermutes<T>(s: seq<T>, k: nat)
    requires k <= |s|
    ensures multiset(Rotate(s, k)) == multiset(s)
  {
    assert s == s[..k] + s[k..];
    calc {
      multiset(Rotate(s, k));
      multiset(s[k..]) + multiset(s[..k]);
      multiset(s[..k] + s[k..]);
    }
  }
}
