/**
  One iteration of the consumer loop in `receiveWithRatio`: a cascade of
  non-blocking receives over the two channels.

    1. a two-way `select` with a `default` branch (the race);
    2. after a short sleep, a probe of channel 1;
    3. a probe of channel 2;
    4. a draw `d` in 0..2: when `d < 2` channel 1 is probed first and then
       channel 2, otherwise channel 2 first and then channel 1.

  The producers run concurrently; a `Schedule` says how many producer
  iterations happen before each probe. Go's random choice between two ready
  cases is the input `pick`, and `rand.Intn(3)` is the input `draw`.
 */
module Selector {
  import opened Channels
  import opened Producers

  datatype Side = One | Two

  function Other(s: Side): Side {
    if s == One then Two else One
  }

  /** What one probe or one iteration did: took a value from a channel
      (`ok == true`, a counter is bumped), received from a closed and drained
      channel (`ok == false`, nothing is counted), or ran into `default`. */
  datatype Outcome = Took(side: Side, value: int) | Drained(side: Side) | Nothing

  /** The values an outcome removed from the channel on side `s`. */
  function TakenBy(o: Outcome, s: Side): seq<int> {
    if o.Took? && o.side == s then [o.value] else []
  }

  /** Both channels and both producers. */
  datatype World = World(ch1: Chan, ch2: Chan, p1: Producer, p2: Producer)

  function Ch(w: World, s: Side): Chan {
    if s == One then w.ch1 else w.ch2
  }

  function Prod(w: World, s: Side): Producer {
    if s == One then w.p1 else w.p2
  }

  function WithCh(w: World, s: Side, c: Chan): World {
    if s == One then w.(ch1 := c) else w.(ch2 := c)
  }

  /** A channel is closed only by its own producer once its loop has ended
      (the demo never closes one), so no producer sends on a closed channel. */
  predicate Wellformed(w: World) {
    && (!w.ch1.closed || Done(w.p1))
    && (!w.ch2.closed || Done(w.p2))
  }

  /** Everything the runtime and the producer loops keep true of a world. */
  predicate Sound(w: World) {
    && Wellformed(w)
    && Valid(w.ch1) && Valid(w.ch2)
    && Ok(w.p1) && Ok(w.p2)
  }

  /** A receive case on side `s` would be chosen by a `select` right now. */
  predicate CanRecv(w: World, s: Side) {
    Ch(w, s).buf != [] || Ch(w, s).closed
  }

  /** From `c`/`p` to `c'`/`p'` the producer only appended to its ledger, and
      the channel lost exactly `taken` at its head: what was buffered plus
      what was newly accepted equals what was taken plus what is buffered now. */
  predicate LaneEvolves(c: Chan, p: Producer, c': Chan, p': Producer, taken: seq<int>) {
    && p.sent <= p'.sent
    && c'.closed == c.closed
    && c.buf + p'.sent[|p.sent|..] == taken + c'.buf
  }

  /** `LaneEvolves` on both sides, the consumer having taken what `o` says. */
  predicate Evolves(w: World, w': World, o: Outcome) {
    && LaneEvolves(w.ch1, w.p1, w'.ch1, w'.p1, TakenBy(o, One))
    && LaneEvolves(w.ch2, w.p2, w'.ch2, w'.p2, TakenBy(o, Two))
  }

  /** On one side: producer pushes followed by a consumer step compose. */
  lemma LanePushesThen(c: Chan, p: Producer, c1: Chan, p1: Producer, c2: Chan, p2: Producer, taken: seq<int>)
    requires LaneEvolves(c, p, c1, p1, []) && LaneEvolves(c1, p1, c2, p2, taken)
    ensures LaneEvolves(c, p, c2, p2, taken)
  {
    SuffixSplit(p.sent, p1.sent, p2.sent);
    var a, b := p1.sent[|p.sent|..], p2.sent[|p1.sent|..];
    calc {
      c.buf + p2.sent[|p.sent|..];
      c.buf + (a + b);
      (c.buf + a) + b;
      { assert [] + c1.buf == c1.buf; }
      c1.buf + b;
      taken + c2.buf;
    }
  }

  /** Producer pushes followed by one consumer step compose. */
  lemma PushesThen(w: World, w1: World, w2: World, o: Outcome)
    requires Evolves(w, w1, Nothing) && Evolves(w1, w2, o)
    ensures Evolves(w, w2, o)
  {
    LanePushesThen(w.ch1, w.p1, w1.ch1, w1.p1, w2.ch1, w2.p1, TakenBy(o, One));
    LanePushesThen(w.ch2, w.p2, w1.ch2, w1.p2, w2.ch2, w2.p2, TakenBy(o, Two));
  }

  /** How many iterations each producer runs at one point of the cascade. */
  datatype Burst = Burst(steps1: nat, steps2: nat)

  /** The iterations a burst gives the producer on side `s`. */
  function Steps(b: Burst, s: Side): nat {
    if s == One then b.steps1 else b.steps2
  }

  /** The producer iterations interleaved with one consumer iteration: before
      the race, during the 1 ms sleep, between the probes of stages 2 and 3,
      before the weighted probes, and between the two weighted probes. */
  datatype Schedule = Schedule(
    beforeRace: Burst,
    duringSleep: Burst,
    beforeProbe2: Burst,
    beforeDraw: Burst,
    beforeSecond: Burst)

  /** The world after a step, and what the consumer did in it. */
  datatype Attempted = Attempted(world: World, out: Outcome)

  /** Both producers run concurrently for the iterations `b` gives them. */
  function Env(w: World, b: Burst): (r: World)
    requires Wellformed(w)
    ensures Wellformed(r)
    ensures Evolves(w, r, Nothing)
    ensures Sound(w) ==> Sound(r)
    ensures Sound(w) ==> r.p1.next == Advanced(w.p1.next, b.steps1) && r.p2.next == Advanced(w.p2.next, b.steps2)
  {
    var (p1, c1) := Run(w.p1, w.ch1, b.steps1);
    var (p2, c2) := Run(w.p2, w.ch2, b.steps2);
    World(c1, c2, p1, p2)
  }

  /** Each producer accepts every offer of the burst while its channel has
      room and drops the rest: the channel on side `s` grows by the
      consecutive values from the producer's `i` on, as many as there are
      offers left in its loop and free slots in the channel. (By `Evolves`,
      the producer's ledger grows by the same values.) */
  lemma EnvAccepts(w: World, b: Burst, s: Side)
    requires Sound(w)
    ensures var p := Prod(w, s);
            Ch(Env(w, b), s).buf == Ch(w, s).buf + Range(p.next, p.next + Accepts(p.next, Capacity - |Ch(w, s).buf|, Steps(b, s)))
  {
    var e := Env(w, b);
    EnvLane(w, b, s);
    RunAccepts(Prod(w, s), Ch(w, s), Steps(b, s), Prod(e, s), Ch(e, s));
  }

  /** The producers run independently: side `s` of a burst is that side's
      producer loop alone. */
  lemma EnvLane(w: World, b: Burst, s: Side)
    requires Wellformed(w)
    ensures (Prod(Env(w, b), s), Ch(Env(w, b), s)) == Run(Prod(w, s), Ch(w, s), Steps(b, s))
  {
  }

  /** One producer iteration on side `s`, with room in its channel, pushes
      the producer's next value and leaves the other channel alone. */
  lemma BurstPushes(w: World, s: Side)
    requires Wellformed(w) && !Done(Prod(w, s)) && |Ch(w, s).buf| < Capacity
    ensures var b := if s == One then Burst(1, 0) else Burst(0, 1);
            && Ch(Env(w, b), s).buf == Ch(w, s).buf + [Prod(w, s).next]
            && Prod(Env(w, b), s).next == Prod(w, s).next + 1
            && Ch(Env(w, b), Other(s)) == Ch(w, Other(s))
  {
  }

  /** A single-case `select` with `default` on side `s`. */
  function Probe(w: World, s: Side): (r: Attempted)
    ensures r.out.Nothing? <==> !CanRecv(w, s)
    ensures r.out.Nothing? ==> r.world == w
    ensures !r.out.Nothing? ==> r.out.side == s
    ensures r.out.Took? ==> Ch(w, s).buf != [] && r.out.value == Ch(w, s).buf[0]
    ensures r.out.Drained? ==> Ch(w, s).closed && Ch(w, s).buf == []
    ensures Evolves(w, r.world, r.out)
    ensures r.world.p1 == w.p1 && r.world.p2 == w.p2
    ensures Wellformed(w) ==> Wellformed(r.world)
    ensures Sound(w) ==> Sound(r.world)
  {
    match TryRecv(Ch(w, s))
    case Blocked => Attempted(w, Nothing)
    case Ready(v, ok, rest) => Attempted(WithCh(w, s, rest), if ok then Took(s, v) else Drained(s))
  }

  /** Stage 1: the two-way `select`. A ready case is taken when there is one;
      when both are ready Go chooses at random, here `pick`. */
  function Race(w: World, pick: Side): (r: Attempted)
    ensures r.out.Nothing? <==> !CanRecv(w, One) && !CanRecv(w, Two)
    ensures !r.out.Nothing? ==> CanRecv(w, r.out.side)
    ensures CanRecv(w, One) && CanRecv(w, Two) ==> r.out.side == pick
    ensures !r.out.Nothing? ==> r == Probe(w, r.out.side)
    ensures r.out.Nothing? ==> r.world == w
  {
    if CanRecv(w, One) && (pick == One || !CanRecv(w, Two)) then Probe(w, One)
    else Probe(w, Two)
  }

  /** A value `rand.Intn(3)` can return. */
  type Draw = d: int | 0 <= d < 3

  /** Which channel a draw `d` makes stage 4 try first: `d < 2` means channel 1. */
  function Primary(draw: Draw): Side {
    if draw < 2 then One else Two
  }

  /** Of the three values `rand.Intn(3)` can return, two put channel 1 first
      and one puts channel 2 first: the 2:1 weight. */
  lemma DrawWeights()
    ensures |set d | 0 <= d < 3 && Primary(d) == One| == 2
    ensures |set d | 0 <= d < 3 && Primary(d) == Two| == 1
  {
    assert (set d | 0 <= d < 3 && Primary(d) == One) == {0, 1};
    assert (set d | 0 <= d < 3 && Primary(d) == Two) == {2};
  }

  /** Stage 4: probe the primary channel; if it is not ready, let the
      producers run for `b`, then probe the other one. */
  function Weighted(w: World, b: Burst, draw: Draw): (r: Attempted)
    requires Wellformed(w)
    ensures CanRecv(w, Primary(draw)) ==> !r.out.Nothing? && r.out.side == Primary(draw)
    ensures !CanRecv(w, Primary(draw)) ==>
              (r.out.Nothing? <==> !CanRecv(Env(w, b), Other(Primary(draw))))
    ensures !CanRecv(w, Primary(draw)) && !r.out.Nothing? ==> r.out.side == Other(Primary(draw))
    ensures r.out.Nothing? ==> r.world == Env(w, b)
    ensures Wellformed(r.world)
    ensures Evolves(w, r.world, r.out)
    ensures Sound(w) ==> Sound(r.world)
  {
    var first := Primary(draw);
    var r1 := Probe(w, first);
    if !r1.out.Nothing? then r1
    else
      var w1 := Env(w, b);
      var r2 := Probe(w1, Other(first));
      PushesThen(w, w1, r2.world, r2.out);
      r2
  }

  /** Stages 2 to 4, entered from the `default` branch of the race with the
      world `w` the race saw. */
  function Fallback(w: World, sched: Schedule, draw: Draw): (r: Attempted)
    requires Wellformed(w)
    ensures var w1 := Env(w, sched.duringSleep);
            CanRecv(w1, One) ==> !r.out.Nothing? && r.out.side == One
    ensures var w1 := Env(w, sched.duringSleep);
            var w2 := Env(w1, sched.beforeProbe2);
            !CanRecv(w1, One) && CanRecv(w2, Two) ==> !r.out.Nothing? && r.out.side == Two
    ensures var w1 := Env(w, sched.duringSleep);
            var w2 := Env(w1, sched.beforeProbe2);
            !CanRecv(w1, One) && !CanRecv(w2, Two) ==>
              r == Weighted(Env(w2, sched.beforeDraw), sched.beforeSecond, draw)
    ensures Wellformed(r.world)
    ensures Evolves(w, r.world, r.out)
    ensures Sound(w) ==> Sound(r.world)
  {
    var w1 := Env(w, sched.duringSleep);
    var r1 := Probe(w1, One);
    PushesThen(w, w1, r1.world, r1.out);
    if !r1.out.Nothing? then r1
    else
      var w2 := Env(w1, sched.beforeProbe2);
      var r2 := Probe(w2, Two);
      PushesThen(w1, w2, r2.world, r2.out);
      PushesThen(w, w1, r2.world, r2.out);
      if !r2.out.Nothing? then r2
      else
        var w3 := Env(w2, sched.beforeDraw);
        var r3 := Weighted(w3, sched.beforeSecond, draw);
        PushesThen(w2, w3, r3.world, r3.out);
        PushesThen(w, w2, r3.world, r3.out);
        r3
  }

  /** One iteration of the loop body in `receiveWithRatio`. The channels
      change only by producer appends and at most one removal at a head;
      `AttemptStages` says which stage decides the outcome. */
  function Attempt(w: World, sched: Schedule, pick: Side, draw: Draw): (r: Attempted)
    requires Wellformed(w)
    ensures Wellformed(r.world)
    ensures Evolves(w, r.world, r.out)
    ensures Sound(w) ==> Sound(r.world)
  {
    var w0 := Env(w, sched.beforeRace);
    var r0 := Race(w0, pick);
    if !r0.out.Nothing? then
      PushesThen(w, w0, r0.world, r0.out);
      r0
    else
      var r1 := Fallback(w0, sched, draw);
      PushesThen(w, w0, r1.world, r1.out);
      r1
  }

  /** Which stage of an iteration decides its outcome: the race, on the
      world after the producers' pre-race burst, whenever a channel is ready
      there (the only ready one, or `pick` when both are), and the fallback
      stages otherwise. */
  lemma AttemptStages(w: World, sched: Schedule, pick: Side, draw: Draw)
    requires Wellformed(w)
    ensures var r := Attempt(w, sched, pick, draw);
            var w0 := Env(w, sched.beforeRace);
            CanRecv(w0, One) && !CanRecv(w0, Two) ==> !r.out.Nothing? && r.out.side == One
    ensures var r := Attempt(w, sched, pick, draw);
            var w0 := Env(w, sched.beforeRace);
            !CanRecv(w0, One) && CanRecv(w0, Two) ==> !r.out.Nothing? && r.out.side == Two
    ensures var r := Attempt(w, sched, pick, draw);
            var w0 := Env(w, sched.beforeRace);
            CanRecv(w0, One) && CanRecv(w0, Two) ==> !r.out.Nothing? && r.out.side == pick
    ensures var r := Attempt(w, sched, pick, draw);
            var w0 := Env(w, sched.beforeRace);
            !CanRecv(w0, One) && !CanRecv(w0, Two) ==> r == Fallback(w0, sched, draw)
  {
  }

  /** An iteration takes at most one value. When it takes one from a channel,
      the other channel only gained the values its producer pushed; when it
      takes nothing, both channels only gained pushed values. */
  lemma IterationFrame(w: World, sched: Schedule, pick: Side, draw: Draw)
    requires Wellformed(w)
    ensures var r := Attempt(w, sched, pick, draw);
            var new1 := r.world.p1.sent[|w.p1.sent|..];
            var new2 := r.world.p2.sent[|w.p2.sent|..];
            && w.p1.sent <= r.world.p1.sent && w.p2.sent <= r.world.p2.sent
            && (r.out.Took? && r.out.side == One ==>
                  w.ch1.buf + new1 == [r.out.value] + r.world.ch1.buf
                  && r.world.ch2.buf == w.ch2.buf + new2)
            && (r.out.Took? && r.out.side == Two ==>
                  w.ch2.buf + new2 == [r.out.value] + r.world.ch2.buf
                  && r.world.ch1.buf == w.ch1.buf + new1)
            && (!r.out.Took? ==>
                  r.world.ch1.buf == w.ch1.buf + new1
                  && r.world.ch2.buf == w.ch2.buf + new2)
  {
  }

  /** If channel 1 is closed and drained when the race runs, the race is
      always won by some case: stages 2 to 4 are never reached, and unless
      `pick` chooses a ready channel 2, every iteration reads the zero value
      from channel 1 and counts nothing; when `pick` chooses a ready
      channel 2, that channel is read instead. */
  lemma ClosedDrainedWinsRace(w: World, sched: Schedule, pick: Side, draw: Draw)
    requires Wellformed(w)
    requires w.ch1.closed && w.ch1.buf == []
    ensures var r := Attempt(w, sched, pick, draw);
            && !r.out.Nothing?
            && (pick == One || !CanRecv(Env(w, sched.beforeRace), Two) ==> r.out == Drained(One))
  {
  }

  /** As written, the weighted draw plays no part when both channels are
      ready at the race: Go's uniform choice `pick` alone decides, whatever
      the draw. The 2:1 weight is applied only after the race and both
      probes of stages 2 and 3 have all missed. */
  lemma DrawIrrelevantWhenBothReady(w: World, sched: Schedule, pick: Side, d1: Draw, d2: Draw)
    requires Wellformed(w)
    requires var w0 := Env(w, sched.beforeRace); CanRecv(w0, One) && CanRecv(w0, Two)
    ensures Attempt(w, sched, pick, d1).out.side == Attempt(w, sched, pick, d2).out.side == pick
  {
  }

  /** A concrete case of the model as written: both channels hold a value,
      the draw is 0 (channel 1 should be preferred), and yet Go's choice
      takes channel 2. */
  lemma BothReadyIgnoresDraw()
    ensures var both := World(Chan([1], false), Chan([1], false), Producer(2, [1]), Producer(2, [1]));
            var idle := Burst(0, 0);
            var sched := Schedule(idle, idle, idle, idle, idle);
            && Primary(0) == One
            && Attempt(both, sched, Two, 0).out == Took(Two, 1)
  {
    var both := World(Chan([1], false), Chan([1], false), Producer(2, [1]), Producer(2, [1]));
    var idle := Burst(0, 0);
    assert Env(both, idle) == both;
  }

  /** The iteration the comment on `receiveWithRatio` describes: when both
      channels are available the weighted draw, not Go's uniform choice,
      decides which one is read. Otherwise the cascade is unchanged. */
  function WeightedAttempt(w: World, sched: Schedule, draw: Draw): (r: Attempted)
    requires Wellformed(w)
    ensures var w0 := Env(w, sched.beforeRace);
            CanRecv(w0, One) && CanRecv(w0, Two) ==> !r.out.Nothing? && r.out.side == Primary(draw)
    ensures var w0 := Env(w, sched.beforeRace);
            CanRecv(w0, One) != CanRecv(w0, Two) ==>
              !r.out.Nothing? && CanRecv(w0, r.out.side)
    ensures var w0 := Env(w, sched.beforeRace);
            !CanRecv(w0, One) && !CanRecv(w0, Two) ==> r == Fallback(w0, sched, draw)
    ensures Wellformed(r.world)
    ensures Evolves(w, r.world, r.out)
    ensures Sound(w) ==> Sound(r.world)
  {
    Attempt(w, sched, Primary(draw), draw)
  }
}
