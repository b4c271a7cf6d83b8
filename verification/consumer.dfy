/**
  The consumer loop `receiveWithRatio`: 500 iterations of the selection
  cascade, bumping `count1` or `count2` for every value received with
  `ok == true`. Besides the counters the model keeps the values received from
  each channel in order (the values the loop prints), which is what the
  ordering properties are about.
 */
module Consumer {
  import opened Channels
  import opened Producers
  import opened Selector

  /** Number of iterations of the consumer loop. */
  const Iterations: nat := 500

  /** The start of the run: both channels empty and open, both producers
      before their first iteration. */
  function Initial(): World {
    World(Chan([], false), Chan([], false), Start(), Start())
  }

  /** The inputs one iteration needs: the producer interleaving, Go's choice
      between two ready cases, and the result of `rand.Intn(3)`. */
  datatype Turn = Turn(sched: Schedule, pick: Side, draw: Draw)

  datatype Counters = Counters(count1: nat, count2: nat)

  /** The counter update after one iteration: only a value actually received
      is counted, on its own side. */
  function Tally(k: Counters, o: Outcome): (r: Counters)
    ensures r.count1 == k.count1 + |TakenBy(o, One)|
    ensures r.count2 == k.count2 + |TakenBy(o, Two)|
    ensures r.count1 + r.count2 <= k.count1 + k.count2 + 1
    ensures !o.Took? ==> r == k
  {
    match o
    case Took(One, _) => k.(count1 := k.count1 + 1)
    case Took(Two, _) => k.(count2 := k.count2 + 1)
    case _ => k
  }

  /** Conservation on both lanes: everything a producer's channel accepted was
      either received by the consumer (`got1`/`got2`, in order) or is still
      buffered, in order. */
  predicate Ledger(w: World, got1: seq<int>, got2: seq<int>) {
    && Sound(w)
    && w.p1.sent == got1 + w.ch1.buf
    && w.p2.sent == got2 + w.ch2.buf
  }

  /** One lane of `EvolvesKeepsLedger`. */
  lemma LaneKeepsLedger(c: Chan, p: Producer, c': Chan, p': Producer, got: seq<int>, taken: seq<int>)
    requires p.sent == got + c.buf
    requires LaneEvolves(c, p, c', p', taken)
    ensures p'.sent == got + taken + c'.buf
  {
    var added := p'.sent[|p.sent|..];
    calc {
      p'.sent;
      p.sent + added;
      got + c.buf + added;
      got + (c.buf + added);
      got + (taken + c'.buf);
    }
  }

  /** Any consumer step that evolves the world keeps the ledger, each
      received log growing by the value the step took from its side. */
  lemma EvolvesKeepsLedger(w: World, w': World, o: Outcome, got1: seq<int>, got2: seq<int>)
    requires Ledger(w, got1, got2)
    requires Evolves(w, w', o) && Sound(w')
    ensures Ledger(w', got1 + TakenBy(o, One), got2 + TakenBy(o, Two))
  {
    LaneKeepsLedger(w.ch1, w.p1, w'.ch1, w'.p1, got1, TakenBy(o, One));
    LaneKeepsLedger(w.ch2, w.p2, w'.ch2, w'.p2, got2, TakenBy(o, Two));
  }

  /** What the ledger says about one lane: the received values and the
      buffered values are each strictly increasing, everything received was
      accepted before anything still buffered, and at most `Limit` values
      were ever received, all from 1..Limit. */
  lemma {:induction false} LaneFacts(c: Chan, p: Producer, got: seq<int>)
    requires Ok(p) && p.sent == got + c.buf
    ensures Increasing(got) && Increasing(c.buf)
    ensures forall i, j :: 0 <= i < |got| && 0 <= j < |c.buf| ==> got[i] < c.buf[j]
    ensures got <= p.sent
    ensures |got| <= |p.sent| <= Limit
    ensures forall i :: 0 <= i < |got| ==> 1 <= got[i] <= Limit
  {
    SentBound(p);
    assert forall i :: 0 <= i < |got| ==> got[i] == p.sent[i];
    assert forall j :: 0 <= j < |c.buf| ==> c.buf[j] == p.sent[|got| + j];
  }

  /** The consumer's state between iterations: the world, the counters, and
      the values received from each channel, in order. */
  datatype Progress = Progress(world: World, counts: Counters, got1: seq<int>, got2: seq<int>)

  /** The ledger holds and each counter is the number of values received on its side. */
  predicate Consistent(s: Progress) {
    && Ledger(s.world, s.got1, s.got2)
    && s.counts.count1 == |s.got1|
    && s.counts.count2 == |s.got2|
  }

  /** The state `receiveWithRatio` starts from: `count1 := 0`, `count2 := 0`. */
  function Begin(): Progress {
    Progress(Initial(), Counters(0, 0), [], [])
  }

  /** At the start nothing was accepted, nothing was received, both counters
      are zero, and the state is consistent. */
  lemma BeginConsistent()
    ensures Begin().counts.count1 == 0 && Begin().counts.count2 == 0
    ensures Begin().world.p1.sent == [] && Begin().world.p2.sent == []
    ensures Consistent(Begin())
  {
  }

  /** Stage 2 is reachable: at the start nothing is ready, so the race falls
      to `default`; producer 1 pushes its first value during the sleep, and
      the probe of channel 1 receives it. */
  lemma SleepPushReachesStageTwo()
    ensures var idle := Burst(0, 0);
            var sched := Schedule(idle, Burst(1, 0), idle, idle, idle);
            Attempt(Initial(), sched, One, 0).out == Took(One, 1)
  {
  }

  /** One iteration of the loop body: the cascade, then the counter update
      and the record of the value received. */
  function Iterate(s: Progress, t: Turn): (r: Progress)
    requires Wellformed(s.world)
    ensures Wellformed(r.world)
  {
    var a := Attempt(s.world, t.sched, t.pick, t.draw);
    Progress(a.world, Tally(s.counts, a.out), s.got1 + TakenBy(a.out, One), s.got2 + TakenBy(a.out, Two))
  }

  /** An iteration keeps the state consistent, adds at most one to the
      counters in total, and only extends the received logs. */
  lemma IterateKeeps(s: Progress, t: Turn)
    requires Wellformed(s.world)
    ensures Consistent(s) ==> Consistent(Iterate(s, t))
    ensures var r := Iterate(s, t);
            r.counts.count1 + r.counts.count2 <= s.counts.count1 + s.counts.count2 + 1
    ensures s.got1 <= Iterate(s, t).got1 && s.got2 <= Iterate(s, t).got2
  {
    var a := Attempt(s.world, t.sched, t.pick, t.draw);
    if Consistent(s) {
      EvolvesKeepsLedger(s.world, a.world, a.out, s.got1, s.got2);
    }
  }

  /** The loop as a fold of `Iterate` over the turns. */
  function Loop(s: Progress, turns: seq<Turn>): (r: Progress)
    requires Wellformed(s.world)
    ensures Wellformed(r.world)
    decreases |turns|
  {
    if turns == [] then s else Loop(Iterate(s, turns[0]), turns[1..])
  }

  /** The fold keeps the state consistent, adds at most one count per turn,
      and only extends the received logs. */
  lemma {:induction false} LoopKeeps(s: Progress, turns: seq<Turn>)
    requires Wellformed(s.world)
    ensures Consistent(s) ==> Consistent(Loop(s, turns))
    ensures var r := Loop(s, turns);
            r.counts.count1 + r.counts.count2 <= s.counts.count1 + s.counts.count2 + |turns|
    ensures s.got1 <= Loop(s, turns).got1 && s.got2 <= Loop(s, turns).got2
    decreases |turns|
  {
    if turns != [] {
      IterateKeeps(s, turns[0]);
      LoopKeeps(Iterate(s, turns[0]), turns[1..]);
    }
  }

  /** `Loop` takes the first turn, then the rest. */
  lemma LoopUnfold(s: Progress, turns: seq<Turn>, i: nat)
    requires Wellformed(s.world) && i < |turns|
    ensures Loop(s, turns[i..]) == Loop(Iterate(s, turns[i]), turns[i + 1..])
  {
    assert turns[i..][1..] == turns[i + 1..];
  }

  /** What a consistent state says about the counters and the received
      values: each counter is bounded by the values its channel accepted, at
      most `Limit`, and the values received on each side are strictly
      increasing, from 1..Limit, and a prefix of what was accepted. */
  lemma ConsistentFacts(s: Progress)
    requires Consistent(s)
    ensures s.counts.count1 <= |s.world.p1.sent| <= Limit
    ensures s.counts.count2 <= |s.world.p2.sent| <= Limit
    ensures s.got1 <= s.world.p1.sent && s.got2 <= s.world.p2.sent
    ensures Increasing(s.got1) && Increasing(s.got2)
    ensures forall i :: 0 <= i < |s.got1| ==> 1 <= s.got1[i] <= Limit
    ensures forall i :: 0 <= i < |s.got2| ==> 1 <= s.got2[i] <= Limit
  {
    LaneFacts(s.world.ch1, s.world.p1, s.got1);
    LaneFacts(s.world.ch2, s.world.p2, s.got2);
  }

  /** The `for` loop of `receiveWithRatio`, run over `turns` from `start`:
      it computes the fold `Loop`, keeps the state consistent and counts at
      most one value per iteration. */
  method Fold(start: Progress, turns: seq<Turn>) returns (s: Progress)
    requires Wellformed(start.world) && Consistent(start)
    ensures s == Loop(start, turns)
    ensures Wellformed(s.world) && Consistent(s)
    ensures s.counts.count1 + s.counts.count2 <= start.counts.count1 + start.counts.count2 + |turns|
  {
    s := start;
    assert turns[0..] == turns;
    for i := 0 to |turns|
      invariant Wellformed(s.world) && Consistent(s)
      invariant Loop(s, turns[i..]) == Loop(start, turns)
      invariant s.counts.count1 + s.counts.count2 <= start.counts.count1 + start.counts.count2 + i
    {
      LoopUnfold(s, turns, i);
      IterateKeeps(s, turns[i]);
      s := Iterate(s, turns[i]);
    }
    assert turns[|turns|..] == [];
  }

  /** The consumer loop: `Iterations` iterations of the cascade, one `Turn`
      of inputs each. The closure runs on the channels and counters it
      captures: both counters are still zero and nothing was received, but the
      producers, started before the call, may already have pushed values
      (`Begin()` is the state when nothing has run yet). */
  method ReceiveWithRatio(start: Progress, turns: seq<Turn>) returns (k: Counters, got1: seq<int>, got2: seq<int>, w: World)
    requires |turns| == Iterations
    requires Consistent(start) && start.counts == Counters(0, 0) && start.got1 == [] && start.got2 == []
    ensures Progress(w, k, got1, got2) == Loop(start, turns)
    ensures Ledger(w, got1, got2)
    ensures k.count1 + k.count2 <= Iterations
    ensures k.count1 == |got1| && k.count2 == |got2|
    ensures k.count1 <= |w.p1.sent| && k.count2 <= |w.p2.sent|
    ensures got1 <= w.p1.sent && got2 <= w.p2.sent
    ensures |w.p1.sent| <= Limit && |w.p2.sent| <= Limit
    ensures Increasing(got1) && Increasing(got2)
    ensures forall i :: 0 <= i < |got1| ==> 1 <= got1[i] <= Limit
    ensures forall i :: 0 <= i < |got2| ==> 1 <= got2[i] <= Limit
    ensures Valid(w.ch1) && Valid(w.ch2)
  {
    var s := Fold(start, turns);
    ConsistentFacts(s);
    w, k, got1, got2 := s.world, s.counts, s.got1, s.got2;
  }
}
