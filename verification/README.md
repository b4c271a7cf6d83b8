# Weighted non-blocking consumption from two Go channels

A Dafny model of `channel_demo/main.go`. Two producer goroutines push the
values 1..100 into two buffered channels of capacity 10. They never block,
and a value offered to a full channel is dropped. One consumer runs 500
iterations of `receiveWithRatio`. Each iteration is a cascade of
non-blocking receives:

1. a two-way `select` (the race);
2. after a short sleep, a probe of channel 1;
3. a probe of channel 2;
4. a draw from `rand.Intn(3)`: below 2, channel 1 is probed first and then
   channel 2; otherwise the other way round.

Every value received with `ok == true` bumps `count1` or `count2`.

The model has four modules:

- `Channels`: a buffered channel as a FIFO `seq<int>` with a `closed` flag.
  It has a non-blocking send (`TrySend`) and a non-blocking receive
  (`TryRecv`) that reports `ok`.
- `Producers`: the producer loop. The loop variable `next` and a ledger
  `sent` of the values the channel accepted.
- `Selector`: the cascade as pure functions. The stages are `Race`,
  `Fallback` and `Weighted`, and `Attempt` is one whole iteration.
- `Consumer`: the 500-iteration loop with its counters and the logs of
  received values. `receiveWithRatio` is a closure over the channels and
  counters. It is called (line 153) after the producers were started, so
  `Consumer.ReceiveWithRatio` takes the state at the call as input. In that
  state both counters are zero and nothing has been received, but the
  channels may already hold values. `Consumer.Begin` is the state before
  anything ran.

Concurrency is made explicit. A `Schedule` gives the number of producer
iterations that run before each probe: before the race, during the sleep,
between the stage-2 and stage-3 probes, before the draw, and between the two
weighted probes. Go's uniform choice between two ready `select` cases is the
input `pick`. The value of `rand.Intn(3)` is the input `draw`, of type `Selector.Draw` (0..2).

The main invariant is a conservation ledger (`Consumer.Ledger`). For each
channel, the values it accepted equal the values the consumer received, in
order, followed by the values still buffered. From this follow the FIFO
facts: the received values are strictly increasing, and the counters are
bounded by the accepted pushes.

Facts about the source the model makes explicit:

- The weight is fixed in the code: channel 1 is tried first when
  `rand.Intn(3) < 2` (main.go:99). `Selector.DrawWeights` states the 2-of-3
  split.
- The comment at main.go:51 says that when both channels are available,
  channel 1 is read with probability 2/3. The code does not do that. When
  both channels are ready at the race (main.go:55-71), Go's uniform `select`
  chooses, and the draw is reached only when the race and both later probes
  all miss. This is listed under "## Findings".
- A closed, drained channel is always ready for a receive. So when channel 1
  is closed and drained, the race never falls to `default`: it reads the zero
  value from channel 1 with `ok == false`, unless `pick` chooses a ready
  channel 2. `Selector.ClosedDrainedWinsRace` states this. The demo never
  closes a channel. Closing is modelled only so that the `ok == false`
  branches exist.

## Model

| member | source | states |
|---|---|---|
| Channels.TrySend | channel_demo/main.go:28-33 | a send to a full channel leaves it unchanged and the value is dropped; otherwise the value joins the tail; the buffer never exceeds 10 |
| Channels.TryRecv | channel_demo/main.go:55-57 | a receive delivers the head with ok true; a closed drained channel is ready with ok false and zero; an open empty channel is not ready |
| Channels.SendRecvCommute | channel_demo/main.go:15-16 | FIFO: on a non-empty channel with room, send-then-receive equals receive-then-send |
| Channels.SendToEmptyThenRecv | channel_demo/main.go:15-16 | a value sent to an empty channel is the next value received |
| Producers.Step | channel_demo/main.go:27-35 | one producer iteration offers i then moves to i+1; a full channel drops it; a finished producer does nothing; the ascending-ledger invariant is kept |
| Producers.Run | channel_demo/main.go:26-48 | producer iterations only append to the channel tail, exactly the values newly accepted, in order; `i` advances by one per iteration and stops after 100; every value offered while the channel has room is accepted and the rest are dropped, so the buffer grows by exactly the consecutive values i, i+1, ... up to the number of offers left or the free slots, whichever is smaller; capacity and producer invariants are kept |
| Producers.RunAccepts | channel_demo/main.go:27-33 | after n iterations both the ledger of accepted values and the channel grow by exactly the consecutive values from `i` on, as many as min(offers left before 100, free slots of the 10); every later offer is dropped |
| Producers.IncreasingBound | channel_demo/main.go:27 | a strictly increasing sequence of values in lo..hi-1 has at most hi-lo elements |
| Producers.SentBound | channel_demo/main.go:27-29 | a producer's channel accepts at most 100 values in total |
| Selector.PushesThen | channel_demo/main.go:26-48 | concurrent producer pushes followed by one consumer step compose into one step with the same taken values |
| Selector.Env | channel_demo/main.go:26-48 | letting both producers run for some iterations (before the race, during the sleep at line 75, between probes) only appends to each channel, advances each producer's `i` by its iteration count up to 101, and keeps every invariant; which values are appended is stated by `Selector.EnvAccepts` |
| Selector.EnvAccepts | channel_demo/main.go:26-48 | during any burst each producer fills its own channel with its next consecutive values, one per iteration, until the loop ends or the channel is full, and drops every offer after that |
| Selector.BurstPushes | channel_demo/main.go:26-33 | one producer iteration on a side with room pushes that producer's next value onto its channel and leaves the other channel unchanged |
| Selector.Probe | channel_demo/main.go:78-85 | a single-case select with default takes the head exactly when the channel has a buffered value, reports `ok == false` on a closed drained channel, and changes nothing otherwise |
| Selector.Race | channel_demo/main.go:55-72 | stage 1 takes from a ready channel whenever one exists; when only one is ready it is that one; when both are, the tie-break decides; default only when neither is ready |
| Selector.DrawWeights | channel_demo/main.go:97-99 | two of the three draws put channel 1 first, one puts channel 2 first |
| Selector.Weighted | channel_demo/main.go:99-145 | stage 4 takes from the primary channel if ready, else from the other after the producers ran, else nothing and only pushes happened |
| Selector.Fallback | channel_demo/main.go:72-147 | after the race's default, channel 1 is probed before channel 2, and only when both miss is the weighted stage reached |
| Selector.Attempt | channel_demo/main.go:54-148 | one iteration: the channels evolve only by producer appends and at most one head removal, matching the outcome, and the runtime and producer invariants are kept |
| Selector.AttemptStages | channel_demo/main.go:55-148 | the race decides the outcome whenever a channel is ready after the pre-race pushes (the only ready one, or the tie-break when both are); otherwise the fallback stages decide |
| Selector.DrawIrrelevantWhenBothReady | channel_demo/main.go:55-71 | as written, when both channels are ready at the race, the outcome's side is Go's choice `pick` for every draw |
| Selector.BothReadyIgnoresDraw | channel_demo/main.go:51-71 | a concrete case: both channels hold 1, the draw is 0 (channel 1 preferred), and the iteration takes 1 from channel 2 |
| Selector.WeightedAttempt | channel_demo/main.go:50-51 | corrected iteration: when both channels are ready the draw picks the side (channel 1 for draws 0 and 1); with one ready it is that one; otherwise the same fallback; same frame and invariants as `Attempt` |
| Selector.IterationFrame | channel_demo/main.go:55-148 | an iteration removes at most one value; the other channel only gains pushed values; with nothing taken both channels only gain pushed values |
| Selector.ClosedDrainedWinsRace | channel_demo/main.go:55-71 | a closed drained channel 1 always wins or shares the race, so the fallback stages are never reached |
| Consumer.Tally | channel_demo/main.go:57-70 | only a value received with ok true is counted, on its own side; counters never decrease and grow by at most 1 in total |
| Consumer.BeginConsistent | channel_demo/main.go:15-20 | at the start both counters are zero, nothing has been accepted, and the ledger and counter invariant hold, so this state meets the loop's precondition |
| Consumer.SleepPushReachesStageTwo | channel_demo/main.go:55-85 | from the start, with nothing ready at the race and one push by producer 1 during the sleep, the iteration receives 1 from channel 1 at stage 2 |
| Consumer.EvolvesKeepsLedger | channel_demo/main.go:52-150 | every iteration (which evolves the world as `Selector.Attempt` guarantees) keeps the conservation ledger: accepted values = received values followed by buffered values, on each side |
| Consumer.LaneFacts | channel_demo/main.go:27-29 | from the ledger: received and buffered values are each strictly increasing, every received value precedes every buffered one, and at most 100 values from 1..100 are received |
| Consumer.Iterate | channel_demo/main.go:54-148 | one iteration of the loop body: the cascade, the counter bump of lines 59-62 and 67-70, and the value received appended to its side's log; the world stays well-formed |
| Consumer.Loop | channel_demo/main.go:53-149 | the loop as the fold of `Iterate` over the turns, one per iteration; the world stays well-formed |
| Consumer.IterateKeeps | channel_demo/main.go:54-148 | one loop iteration keeps the ledger and counters consistent, adds at most 1 to count1 + count2, and only extends the received logs |
| Consumer.LoopKeeps | channel_demo/main.go:53-149 | the iterations folded over the turns keep consistency, add at most one count per turn, and only extend the received logs |
| Consumer.Fold | channel_demo/main.go:53-149 | the `for` loop computes exactly the fold `Loop` of the iterations over the turns, keeps the ledger and counters consistent, and adds at most one count per iteration |
| Consumer.ConsistentFacts | channel_demo/main.go:19-29 | in a consistent state each counter is at most its channel's accepted pushes (<= 100), and the received values are strictly increasing prefixes of what was accepted, all in 1..100 |
| Consumer.ReceiveWithRatio | channel_demo/main.go:52-150 | started on the captured channels and counters (counters zero, nothing received, producers possibly ahead), the result is exactly the fold of the 500 iterations over the turns, and the ledger holds at the end; count1 + count2 <= 500; each counter equals its received log and is at most the accepted pushes (<= 100); the logs are strictly increasing prefixes of what was accepted |

## Findings

| source | as written | input that shows it | evidently intended | confidence | as-written member | corrected member |
|---|---|---|---|---|---|---|
| channel_demo/main.go:51-71 | when both channels are ready, the two-way `select` chooses uniformly; the 2:1 draw at line 99 is used only after the race and both probes miss | both channels hold a value, draw 0, Go chooses channel 2: the value comes from channel 2 | when both channels are available, read channel 1 with probability 2/3 (comment at line 51) | medium, not executed | Selector.DrawIrrelevantWhenBothReady, Selector.BothReadyIgnoresDraw | Selector.WeightedAttempt |

`Selector.WeightedAttempt` keeps the `Evolves` frame and the `Sound` invariant
of `Selector.Attempt`, so `Consumer.EvolvesKeepsLedger` and the loop's bounds
hold for it unchanged. `Consumer.ReceiveWithRatio` stays on `Selector.Attempt`
because that is what the program does.

## Left out

- Goroutine scheduling is replaced by the explicit `Schedule` of producer iterations. The mutex around the counters (main.go:23) is unnecessary because the counters are plain state.
- `time.Sleep` pacing (main.go:34, 46, 75, 156) is left out. The sleep at line 75 only marks a point where producers may run (`Schedule.duringSleep`).
- `rand.Seed` and `rand.Intn` (main.go:12, 99) are replaced by the `draw` input. The long-run 2:1 convergence is statistical and cannot be proved deductively; only the 2-of-3 split of the draw is stated.
- The per-read `fmt.Printf` lines and the final floating-point ratio report (main.go:61, 161-168) are output only and are left out. The received logs `got1`/`got2` stand for the printed values.
- A send on a closed channel panics in Go. `Channels.TrySend` requires an open channel, and `Selector.Wellformed` lets only a finished producer's channel be closed.
