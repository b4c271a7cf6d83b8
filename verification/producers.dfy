/**
  The two producer goroutines: each runs `for i := 1; i <= 100; i++` and
  offers `i` to its channel with a non-blocking send, dropping it when the
  channel is full. The pacing `time.Sleep` between offers carries no meaning
  here; how many offers happen between two consumer probes is chosen by the
  caller (see `Run`).
 */
module Producers {
  import opened Channels

  /** Last value a producer offers. */
  const Limit: int := 100

  /** A producer: the loop variable `i` it offers next, and the ledger of the
      values its channel accepted so far, oldest first. */
  datatype Producer = Producer(next: int, sent: seq<int>)

  /** A producer before its loop starts. */
  function Start(): Producer {
    Producer(1, [])
  }

  /** The producer's loop has finished; its goroutine does nothing more. */
  predicate Done(p: Producer) {
    p.next > Limit
  }

  predicate Increasing(s: seq<int>) {
    forall i, j :: 0 <= i < j < |s| ==> s[i] < s[j]
  }

  /** What the loop guarantees about a producer: `i` stays within 1..101 and
      every accepted value was offered earlier, in ascending order. */
  predicate Ok(p: Producer) {
    && 1 <= p.next <= Limit + 1
    && Increasing(p.sent)
    && forall i :: 0 <= i < |p.sent| ==> 1 <= p.sent[i] < p.next
  }

  /** Splitting the new part of a ledger that grew twice. */
  lemma SuffixSplit(a: seq<int>, b: seq<int>, c: seq<int>)
    requires a <= b <= c
    ensures c[|a|..] == b[|a|..] + c[|b|..]
  {
  }

  /** A ledger that grew twice keeps, past its first length, what the
      middle one holds there. */
  lemma PrefixAt(a: seq<int>, b: seq<int>, c: seq<int>)
    requires a <= b <= c
    ensures |a| < |b| ==> |a| < |c| && c[|a|] == b[|a|]
  {
  }

  /** One iteration of the producer loop: offer `i`, then move to `i + 1`.
      A finished producer changes nothing. */
  function Step(p: Producer, c: Chan): (r: (Producer, Chan))
    requires !c.closed || Done(p)
    ensures Done(p) ==> r == (p, c)
    ensures !Done(p) ==> r.0.next == p.next + 1
    ensures !Done(p) && |c.buf| < Capacity ==> r.0.sent == p.sent + [p.next] && r.1.buf == c.buf + [p.next]
    ensures |c.buf| >= Capacity ==> r.0.sent == p.sent && r.1 == c
    ensures p.sent <= r.0.sent && r.1.buf == c.buf + r.0.sent[|p.sent|..]
    ensures r.1.closed == c.closed && p.next <= r.0.next
    ensures Ok(p) ==> Ok(r.0)
    ensures Valid(c) ==> Valid(r.1)
  {
    if Done(p) then (p, c)
    else
      var (c', accepted) := TrySend(c, p.next);
      (Producer(p.next + 1, if accepted then p.sent + [p.next] else p.sent), c')
  }

  /** Where the loop variable `i` stands after `n` more iterations from
      `next`: the loop stops once `i` passes `Limit`. */
  function Advanced(next: int, n: nat): int {
    if next + n <= Limit + 1 then next + n else Limit + 1
  }

  /** `n` iterations of the producer loop. The channel only grows at its tail,
      by exactly the values newly recorded in the ledger; `i` advances by
      `n`, stopping after 100; and every offer is accepted while the channel
      has room, the rest being dropped (`RunAccepts` states it for the
      ledger). */
  function Run(p: Producer, c: Chan, n: nat): (r: (Producer, Chan))
    requires !c.closed || Done(p)
    ensures p.sent <= r.0.sent
    ensures r.1.buf == c.buf + r.0.sent[|p.sent|..]
    ensures r.1.closed == c.closed
    ensures p.next <= r.0.next
    ensures Done(p) ==> r == (p, c)
    ensures Ok(p) ==> r.0.next == Advanced(p.next, n)
    ensures !Done(p) && n > 0 && |c.buf| < Capacity ==> |p.sent| < |r.0.sent| && r.0.sent[|p.sent|] == p.next
    ensures Ok(p) ==> Ok(r.0)
    ensures Valid(c) ==> Valid(r.1)
    ensures p.next <= Limit + 1 && Valid(c) ==>
              r.1.buf == c.buf + Range(p.next, p.next + Accepts(p.next, Capacity - |c.buf|, n))
    decreases n
  {
    if n == 0 then (p, c)
    else
      var (p', c') := Step(p, c);
      var r := Run(p', c', n - 1);
      RunStep(p, c, n, p', c', r);
      r
  }

  /** What `Run` promises about a burst of `n` iterations from `p` and `c`
      that ended in `r`. */
  predicate Ran(p: Producer, c: Chan, n: nat, r: (Producer, Chan)) {
    && p.sent <= r.0.sent
    && r.1.buf == c.buf + r.0.sent[|p.sent|..]
    && r.1.closed == c.closed
    && p.next <= r.0.next
    && (Done(p) ==> r == (p, c))
    && (Ok(p) ==> r.0.next == Advanced(p.next, n))
    && (!Done(p) && n > 0 && |c.buf| < Capacity ==> |p.sent| < |r.0.sent| && r.0.sent[|p.sent|] == p.next)
    && (Ok(p) ==> Ok(r.0))
    && (Valid(c) ==> Valid(r.1))
    && (p.next <= Limit + 1 && Valid(c) ==>
          r.1.buf == c.buf + Range(p.next, p.next + Accepts(p.next, Capacity - |c.buf|, n)))
  }

  /** The induction step of `Run`: one `Step`, which gave `p'` and `c'`,
      followed by a burst of `n - 1` iterations ending in `r`, is a burst of
      `n` iterations ending in `r`. */
  lemma RunStep(p: Producer, c: Chan, n: nat, p': Producer, c': Chan, r: (Producer, Chan))
    requires !c.closed || Done(p)
    requires n > 0 && (p', c') == Step(p, c)
    requires Ran(p', c', n - 1, r)
    ensures Ran(p, c, n, r)
  {
    SuffixSplit(p.sent, p'.sent, r.0.sent);
    PrefixAt(p.sent, p'.sent, r.0.sent);
    if !Done(p) {
      assert p'.next == p.next + 1 && Advanced(p'.next, n - 1) == Advanced(p.next, n);
      if p.next <= Limit + 1 && Valid(c) {
        StepFills(p, c, n, p', c', r.1.buf);
      }
    }
  }

  /** The values `lo`, `lo + 1`, ..., `hi - 1`. */
  function Range(lo: int, hi: int): (r: seq<int>)
    ensures |r| == if lo <= hi then hi - lo else 0
    ensures forall i :: 0 <= i < |r| ==> r[i] == lo + i
    decreases hi - lo
  {
    if lo >= hi then [] else [lo] + Range(lo + 1, hi)
  }

  /** How many of the next `n` offers from `next` a channel with `room` free
      slots accepts: every offer while there is room, none after the loop
      has passed `Limit`. */
  function Accepts(next: int, room: int, n: nat): int {
    var offers := Advanced(next, n) - next;
    if offers <= room then offers else room
  }

  /** Pushing `lo` and then the values after it is pushing the whole range. */
  lemma PushThenRange(a: seq<int>, lo: int, hi: int)
    requires lo < hi
    ensures a + [lo] + Range(lo + 1, hi) == a + Range(lo, hi)
  {
    assert Range(lo, hi) == [lo] + Range(lo + 1, hi);
  }

  /** A burst of `n` iterations accepts exactly the offers that fit, and
      records them in the ledger: the consecutive values from `next` on, as
      many as there are offers left in the loop and free slots in the
      channel; the rest are dropped. */
  lemma RunAccepts(p: Producer, c: Chan, n: nat, p': Producer, c': Chan)
    requires !c.closed || Done(p)
    requires p.next <= Limit + 1 && Valid(c)
    requires (p', c') == Run(p, c, n)
    ensures c'.buf == c.buf + Range(p.next, p.next + Accepts(p.next, Capacity - |c.buf|, n))
    ensures p'.sent == p.sent + Range(p.next, p.next + Accepts(p.next, Capacity - |c.buf|, n))
  {
    var added := Range(p.next, p.next + Accepts(p.next, Capacity - |c.buf|, n));
    CancelLeft(c.buf, p'.sent[|p.sent|..], added);
    assert p'.sent == p.sent + p'.sent[|p.sent|..];
  }

  /** Equal sequences with equal prefixes have equal rests. */
  lemma CancelLeft(a: seq<int>, x: seq<int>, y: seq<int>)
    requires a + x == a + y
    ensures x == y
  {
    assert x == (a + x)[|a|..];
  }

  /** The induction step of the closed form of `Run`: if the remaining
      `n - 1` iterations after one `Step`, which gave `p'` and `c'`, leave
      the buffer `buf`, then all `n` leave the closed form. */
  lemma StepFills(p: Producer, c: Chan, n: nat, p': Producer, c': Chan, buf: seq<int>)
    requires !c.closed && !Done(p) && n > 0 && p.next <= Limit + 1 && Valid(c)
    requires (p', c') == Step(p, c)
    requires buf == c'.buf + Range(p'.next, p'.next + Accepts(p'.next, Capacity - |c'.buf|, n - 1))
    ensures buf == c.buf + Range(p.next, p.next + Accepts(p.next, Capacity - |c.buf|, n))
  {
    var k := Accepts(p.next, Capacity - |c.buf|, n);
    var k' := Accepts(p'.next, Capacity - |c'.buf|, n - 1);
    assert Advanced(p'.next, n - 1) == Advanced(p.next, n);
    if |c.buf| < Capacity {
      var hi := p.next + k;
      assert p'.next == p.next + 1 && p'.next + k' == hi && p.next < hi;
      PushThenRange(c.buf, p.next, hi);
    } else {
      assert k == 0 && k' == 0;
    }
  }

  /** A strictly increasing sequence drawn from `lo..hi-1` has at most `hi - lo` elements. */
  lemma {:induction false} IncreasingBound(s: seq<int>, lo: int, hi: int)
    requires Increasing(s)
    requires forall i :: 0 <= i < |s| ==> lo <= s[i] < hi
    requires lo <= hi
    ensures |s| <= hi - lo
  {
    if |s| > 0 {
      assert forall i :: 0 <= i < |s[1..]| ==> s[1..][i] == s[i + 1];
      IncreasingBound(s[1..], s[0] + 1, hi);
    }
  }

  /** A producer's channel accepts at most `Limit` values in all. */
  lemma SentBound(p: Producer)
    requires Ok(p)
    ensures |p.sent| <= p.next - 1 <= Limit
  {
    IncreasingBound(p.sent, 1, p.next);
  }
}
