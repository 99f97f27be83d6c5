# Pigeon ISP: a verified model

Pigeon ISP lets a player carry real Ethernet frames. A *loft* daemon on each
node takes frames off pod interfaces, buffers them under a frame id and tells a
*consumer*, by way of a token, that they are there. The consumer answers with
verdicts (deliver, copy-deliver, drop) and the loft carries them out. One loft is
the gateway, which speaks for all the others. The usual consumer is a game in
which pigeons fly the frames over a factory floor. This project models the parts
of that system in which mistakes lose, duplicate or misdirect frames, and proves
what the system promises of them.

The project is checked with `dafny verify dfyconfig.toml`.

## What is modelled

**The flock** (`LoftCore`, `Cluster*`, `OneLoft*`, `LoftDaemon`). A transition
system of one gateway and any number of edges. Every section under a loft's mutex
is one atomic event; the two critical sections of one verdict are two events, and
anything may come between them. Tokens, instructions and payload pushes are
messages in flight that may be delayed, reordered or lost at any moment. The
invariant (`ClusterSafety.Inv`) is kept by every event, and the flock is proved to
refine a single large loft. `ClusterArrival` shows that a verdict nothing interferes with
does what it says, `ClusterAddresses` where addresses come from, and `ClusterCounters`
that every counter tells what it is named for. `ClusterEnds` and `ClusterFates` follow each frame and each
payload to its end over whole runs, and `ClusterScenes` holds concrete runs that lose
one. `LoftConservation` keeps exact books for one loft.
`LoftDaemon.Daemon` is the daemon as an object, each method proved against the
state function that the theorems are about; `Wire` is its message formats.

**The pigeons** (`Pigeon*`). Reference counting of frames that hubs and switches
clone, over whole games; the composition with the loft; the walk of one pigeon
over the floor, with `PigeonRouting` saying from which cell to which it goes; and, in `PigeonScene`, a floor on which 500 of them fill the sky.

**The machines** (`Switching`, `Bridges`, `SwitchMachine`, `Meter`, `AutoRoute`).
The learning bridge (IEEE 802.1D sections 7.7 to 7.9), the learn and lookup tables
that rebuild it, the token bucket and the headless learning consumer, over whole
traces.

**The fluid** (`Stencil`, `Transfers`, `Fluid*`, `FixedPoint`, `Baked*`). The
particle/grid transfers over exact reals, summed over the cells of the grid and with
their error in sparse regions, what pressure and viscosity do to the nodes, the
fixed-point atomics with truncation and 32-bit wrap-around, and the baked collision
grid against brute force and against the boxes themselves.

**Packets** (`InternetChecksum`, `Frames`, `Perch`, `TwoHosts*`, `SimBridge`,
`Dns`). Checksums, builders and decoder over bytes, the perch's replies, two hosts
under an arbitrary consumer, and DNS answers.

**The floor** (`Floor*`, `HostSlots`, `Roosts`). The board's representation invariant
under every edit, hosts and their slots, and save/restore; `FloorBoard.Board` is the
board as an object.

## Where the code departs from its promises

- The rule that every frame ends delivered or counted (`bridge/cmd/loftd/main.go:26`,
  `docs/pigeon-api.md:28-46`) does not hold of every run. `NoSilentEndIff` says exactly of
  which frames it does, and `SilenceTakes` what a silent end takes: the ingress port gone
  when the frame left its buffer (`bridge/cmd/loftd/main.go:594`, `:844`), or a payload
  turned away at a port no longer registered or lost between two lofts
  (`bridge/cmd/loftd/main.go:720-730`, `:772-780`). `DeliveredToAWithdrawnPort`,
  `CopiedToAWithdrawnPort` and `ExpiredWithoutItsPort` are such runs. An uncounted drop
  after a copy is no departure in itself (`docs/pigeon-api.md:75-77`); it is one when the
  copy was lost. The books therefore keep totals of their own, which no operation reads.
- A deliver to an unknown port leaves a local frame buffered
  (`bridge/cmd/loftd/main.go:472`) but consumes and loses a remote one. The model does both.
- When the sky is full a clone that was never counted gives back a count
  (`game/src/game/pigeons.ts:314`); `TickExactIff` says exactly when that hurts and
  `FreedAndDelivered` shows a floor and a game in which it does.
- Clock zero is the meter's mark for not yet started
  (`game/src/game/machines.ts:157`), so what is offered then counts as offered at the first
  later reading; see `DivertedFromZeroIff`, and `SentinelHarmlessIff` for the traces on
  which that makes no difference.
- `evictOldest` goes by clock reading, so a refresh within the same reading does not
  count; see `TiesEvictTheRefreshed`. The recency theorem has a strictly increasing
  clock; with any other, `RecencyUnlessTied` says when last sightings still decide what the
  table holds and `TiesUndecided` that otherwise they do not.
- The perch reads the fixed IPv4 header before knowing that it is there
  (`bridge/cmd/perch/main.go:138-151`); `InRangeIff` is the exact condition and
  `BareHeaderOutOfRange` a frame that fails it.
- A switch that is not a full rectangle, or has a port half placed, does not survive
  save and restore; see `SwitchesComeBackIff`, `HalfPlacedIsLost` and `AroundAHostIsLost`.
- The nineteenth host shares a slot; see `AddedApartIff` and `NineteenShareASlot`.
- A host is moved by name: the first placed port of that name is taken off and the last
  announced one is seated (`game/src/game/board.ts:751-767`). When two ports go by one
  name, as two agents of one name do, these can differ, and then a slot stays taken with
  nobody in it and the floor shows a host twice, or a port that has left is seated.
  `MoveKeepsIff` and `RelocateKeepsIff` give the exact condition, `SeatsInOrderIff` and
  `BoardInOrderIff` carry it over whole sessions, and `TwoAgentsLeakASlot` and
  `TwoAgentsShownTwice` are such a session.

## What the statements assume

- Port ids (16 bits) and frame ids (32 bits) wrap in the code. The model wraps them
  too; runs go on while no counter is about to wrap (`Cluster.IdsLeft`), and
  `IngestKeepsEveryFrameIff` says what the first wrap onto a live frame does.
- The flock's events take place on one clock that never goes back.
- An edge's hello need not come first: until it does its address is empty, and a push
  to a port registered before then can only be lost.
- The network never duplicates a message. It need not keep order, which is weaker
  than the ordered connections of the code.
- Grid nodes lighter than 0.0001 keep momentum instead of velocity
  (`ballpit/src/gpu/fluid.ts:268`), so `AffineFlowSurvives` asks for none in the
  particle's stencil; `LightNodesCost` bounds what they cost. Particles are required to have their
  stencil on the grid, where `ClampedInRange` puts them.
- The slots hosts remember are loaded from storage: sessions start from any memory whose
  slots exist. Nothing in the code checks that.
- `Math.hypot` is any non-negative function whose square is the sum of the squares.

## Model

| member | source | states |
|---|---|---|
| OneLoftRefinement.FlockRefinesOneLoft | bridge/cmd/loftd/trunk.go:82-178 | Every run of the gateway and its edges, under every interleaving, delay and loss, looks from outside like a play of one big loft with one frame table, one table of ports that open and close, and a lossy mailbox of verdicts, in which nothing leaves through a port that is closed; the play is produced, not just said to exist |
| OneLoftRefinement.StepRefines | bridge/cmd/loftd/main.go:673-782 | Each single event of the flock, from any state a run can reach, is matched by that exact list of moves of the one loft: open, close, answer when the frame and port are there, ignore when not, announce, expire, emit through an open port only, lose |
| ClusterRuns.VerdictsReachWhatTheyName | bridge/cmd/loftd/main.go:673-736 | In all four local/remote cases, a payload written because of verdict (P, F) is byte for byte the payload buffered for the frame announced as F, agrees with the length and snapshot announced, and leaves by the physical port announced as P, whichever loft that is on |
| ClusterRuns.ConsumedOnce | bridge/cmd/loftd/main.go:467-486 | Two consuming writes of the same announced frame are one and the same write |
| ClusterRuns.EmittedAtMost | bridge/cmd/loftd/trunk.go:335-357 | Over a whole run a frame's payload is emitted at most once plus once per copy-deliver asked for it |
| ClusterRuns.OnlyItsOwnFrame | bridge/cmd/loftd/main.go:589-600 | A verdict acted on at the gateway, at an edge or by a peer push, however late or repeated, leaves every frame at every loft alone but the one its id was announced for |
| ClusterRuns.GatewayForgetsNoLiveFrame | bridge/cmd/loftd/main.go:840-853 | When the gateway's 35 s rule expires a remote id, the loft that buffered the frame has already let it go, for every token delay, if that loft swept within the last 5 s |
| ClusterArrival.VerdictArrives | bridge/cmd/loftd/main.go:673-736 | In every state a run can reach, in all four local/remote cases: if the frame is buffered where it was announced and the port registered where it was announced, a deliver or copy-deliver whose own events (lookup, action, the edge's part, the push's arrival) follow one another writes exactly that frame's payload to exactly that port, once, the port counts it, the frame is consumed with that verdict as its fate or kept and marked, and nothing is left on its way |
| ClusterArrival.DropArrives | bridge/cmd/loftd/main.go:589-600 | Likewise a drop frees the frame where it is buffered, writes nothing, and moves the port's consumer counter exactly if the port is there and no copy was made |
| ClusterAddresses.GreetedPortsCarryAddress | bridge/cmd/loftd/trunk.go:104-125 | A port registered after its edge's hello carries that edge's own address, and stands for that edge's own port, at every later point of the run at which it is still registered |
| ClusterAddresses.AddressKept | bridge/cmd/loftd/trunk.go:104-109 | An edge that has said hello has that address on its trunk for as long as the trunk lasts |
| ClusterAddresses.PortKept | bridge/cmd/loftd/trunk.go:180-191 | A registered port keeps address, edge and number for as long as it is registered, and no other port ever gets its id |
| ClusterRuns.StepKeeps | bridge/cmd/loftd/trunk.go:303-358 | Every event of the protocol keeps the whole cluster invariant and never changes what an announced frame id, port id, buffered payload or ended frame stands for |
| ClusterRuns.RunInv | bridge/cmd/loftd/trunk.go:82-178 | The cluster invariant holds in every state of every run |
| ClusterRuns.RunContinues | bridge/cmd/loftd/trunk.go:165-166 | Nothing but id wrap-around ends a run: while ids are left every event has a next state and the longer list is again a run |
| ClusterRuns.RunGrows | bridge/cmd/loftd/trunk.go:180-191 | Between any two points of a run, announced frames, port identities, born frames and fates only grow and never change |
| ClusterTrunk.InverseAdd | bridge/cmd/loftd/trunk.go:180-191 | Registering a remote port keeps every edge's port map and the gateway's remote-port table mutually inverse |
| ClusterTrunk.InverseRemove | bridge/cmd/loftd/trunk.go:126-133 | Removing a remote port keeps the two maps mutually inverse |
| ClusterTrunk.InverseGone | bridge/cmd/loftd/trunk.go:198-214 | Losing a whole edge keeps the two maps mutually inverse |
| ClusterTrunk.AnnounceRemote | bridge/cmd/loftd/trunk.go:165-174 | The rewritten token tells the consumer the truth: its port stands for the frame's own ingress port, its length and snapshot are the buffered payload's |
| ClusterTrunk.TokenInKeeps | bridge/cmd/loftd/trunk.go:148-177 | Admitting or refusing a token, including the instruction to free a refused frame at its edge, keeps the cluster invariant |
| ClusterTrunk.HelloKeeps | bridge/cmd/loftd/trunk.go:104-117 | An edge's hello keeps the cluster invariant |
| ClusterTrunk.PortAddedKeeps | bridge/cmd/loftd/trunk.go:118-125 | A port-added message keeps the cluster invariant, duplicates included |
| ClusterTrunk.TrunkLostKeeps | bridge/cmd/loftd/trunk.go:198-221 | Losing an edge, with its frames and ports forgotten, keeps the cluster invariant |
| ClusterVerdicts.VerdictInKeeps | bridge/cmd/loftd/main.go:673-680 | Looking a verdict's two ids up, in its own critical section, keeps the cluster invariant |
| ClusterVerdicts.ActKeeps | bridge/cmd/loftd/main.go:682-736 | Acting on the looked-up verdict afterwards, whatever happened in between, keeps the cluster invariant: locally, as a push, or as an instruction to the edge |
| ClusterVerdicts.EdgeInKeeps | bridge/cmd/loftd/trunk.go:315-357 | An edge carrying out an instruction, or pushing a payload on, keeps the cluster invariant |
| ClusterVerdicts.PeerInKeeps | bridge/cmd/loftd/main.go:756-782 | A pushed payload arriving at a sibling keeps the cluster invariant, written or not |
| ClusterVerdicts.PeerFailedKeeps | bridge/cmd/loftd/main.go:797-821 | A failed push is counted once, loses only that payload and keeps the cluster invariant |
| ClusterVerdicts.BoundPort | bridge/cmd/loftd/main.go:771-779 | A payload that reaches a registered port has reached the port the verdict named |
| ClusterVerdicts.OwnIds | bridge/cmd/loftd/main.go:673-684 | The gateway's own frame and port ids stand for themselves in the consumer's id space: nothing remote ever took them |
| ClusterInvariant.FrameInKeeps | bridge/cmd/loftd/main.go:396-448 | A frame arriving at the gateway or at an edge keeps the cluster invariant |
| ClusterInvariant.HousekeepingKeeps | bridge/cmd/loftd/main.go:836-853 | A sweep at any loft keeps the cluster invariant |
| ClusterRuns.EveryLoftBalances | bridge/cmd/loftd/main.go:396-438 | At every point of every run, each loft's received frames are exactly those unrouted, shed, still buffered, delivered, dropped or expired; a buffered frame has no fate yet and every other has exactly one; and no more than 8192 are buffered |
| LoftConservation.Conservation | bridge/cmd/loftd/main.go:396-438 | The books balance: frames received are exactly those refused for want of a router, shed at a full buffer, still buffered, delivered, dropped or expired; and never more than 8192 are buffered |
| LoftConservation.IngestBooks | bridge/cmd/loftd/main.go:396-438 | An arriving frame keeps the books exact: unrouted, shed or newly buffered, with the counters to match |
| LoftConservation.DeliverLocalBooks | bridge/cmd/loftd/main.go:467-501 | A (copy-)deliver keeps the books exact: a consuming one gives the frame its one fate, a copying one gives it none |
| LoftConservation.DropLocalBooks | bridge/cmd/loftd/main.go:589-600 | A drop keeps the books exact: one fate for that frame, counted or not as the fate says |
| LoftConservation.PushBooks | bridge/cmd/loftd/main.go:687-707 | Taking a frame out to push it to a sibling keeps the books exact |
| LoftConservation.PeerWriteBooks | bridge/cmd/loftd/main.go:771-779 | Writing a sibling's payload touches no frame of this loft |
| LoftConservation.SweepBooks | bridge/cmd/loftd/main.go:836-853 | A sweep gives every stale frame the expired fate, at once, and counts per port exactly those whose port is still here |
| LoftConservation.AddPortBooks | bridge/cmd/loftd/main.go:352-353 | A new port starts with counters that match its empty past |
| LoftConservation.RemovePortBooks | bridge/cmd/loftd/main.go:303-307 | Removing a port keeps the books, with its counters frozen |
| LoftConservation.DropMovesACounterIff | bridge/cmd/loftd/main.go:589-600 | A drop moves the consumer counter of the frame's port if and only if the frame was never copied out and that port is still registered; what this means for the rule that nothing is lost silently is said by the rows of ClusterFates |
| LoftConservation.SweepCountsIff | bridge/cmd/loftd/main.go:841-847 | Expiry is counted for a port if and only if the port is still registered |
| LoftConservation.FrameIdsComeRound | bridge/cmd/loftd/main.go:424-431 | Frame ids are given out in order by 32 bits: one comes round again after 4294967296 accepted frames |
| LoftConservation.PortIdsComeRound | bridge/cmd/loftd/main.go:350-360 | Port ids are given out in order by 16 bits: one comes round again after 65536 ports |
| LoftConservation.IngestKeepsEveryFrameIff | bridge/cmd/loftd/main.go:424-431 | An accepted frame overwrites no other if and only if the next id is not one of a live frame: what wrap-around would break |
| ClusterFates.NoSilentEndIff | docs/pigeon-api.md:28-46 | Over every run of the flock, a frame that has ended is answered for (its drop or expiry counted, or a payload of it written, still on its way or counted as a trunk drop) if and only if it did not leave its buffer uncounted (consumed, dropped after a copy, or with its port gone) with every payload ever taken out of it turned away at an unregistered port or lost on the way |
| ClusterFates.SilenceTakes | docs/pigeon-api.md:28-46 | A frame that ends unanswered for takes one of two things, which this names in the run: its ingress port was gone when it left, or a payload of it vanished |
| ClusterFates.PayloadsEndOneWay | bridge/cmd/loftd/trunk.go:335-357 | Every payload ever taken out to be written or pushed is, at any later point of the run, in exactly one of four states: written to a port, on its way, counted as a trunk drop, or vanished at an unregistered port or between two lofts |
| ClusterFates.LeftOnce | bridge/cmd/loftd/main.go:589-600 | A frame that has ended left its buffer at one step of the run, with the fate it has had since |
| ClusterFates.CopiedWasTaken | bridge/cmd/loftd/main.go:687-707 | A buffered frame is marked as copied only if a payload of it was taken out under a verdict about it: what the uncounted drop after a copy relies on |
| ClusterFates.FailureIsCounted | bridge/cmd/loftd/main.go:797-821 | A failed push moves the trunk counter of the loft it came from by one |
| ClusterFates.CountersTell | bridge/cmd/loftd/main.go:836-848 | At every point of every run a port's consumer and ttl counters are the numbers of its frames whose drop and expiry counted |
| ClusterCounters.EveryCounterTells | docs/pigeon-api.md:28-46 | At every point of every run, every counter of every loft is the number of what it is named for: frames and bytes come in, frames that found 8192 buffered, frames and bytes written out, frames and tokens nobody was there to decide, and losses on trunks and pushes |
| ClusterCounters.StepCounts | bridge/cmd/loftd/main.go:396-448 | Every event moves every one of those counters of every loft by just what it is there to count |
| ClusterCounters.SweepTakesTheOld | bridge/cmd/loftd/main.go:836-853 | Housekeeping lets go of exactly the frames older than 30 s and the remote ids older than 35 s, with the fate to match |
| ClusterEnds.TakenStep | bridge/cmd/loftd/main.go:771-779 | One event: a payload that is out stays out unless this very event fails its push, turns it away or loses it, and then nothing of it is left |
| ClusterEnds.FrameStep | bridge/cmd/loftd/main.go:467-486 | One event: a frame ends only out of its buffer; if delivered, a payload of it is out under that verdict; a drop counts exactly when it was never copied and its port is registered, an expiry exactly when its port is; and it becomes copied only with a payload of it out |
| ClusterScenes.DeliveredToAWithdrawnPort | bridge/cmd/loftd/main.go:771-779 | A concrete run from nothing: an edge's frame is delivered to a gateway port withdrawn meanwhile; it has ended, was written nowhere, is nowhere on its way, and no counter of any loft has moved |
| ClusterScenes.CopiedToAWithdrawnPort | bridge/cmd/loftd/main.go:589-600 | A concrete run: the frame is copied to that withdrawn port and then dropped; the lost copy is why the drop does not count, and nothing is written or counted |
| ClusterScenes.ExpiredWithoutItsPort | bridge/cmd/loftd/main.go:841-847 | A concrete run: a port leaves, its frame expires 31 s later, and no counter moves |
| LoftDaemon.Daemon.constructor | bridge/cmd/loftd/main.go:156-180 | A new loft has empty books |
| LoftDaemon.Daemon.AddPort | bridge/cmd/loftd/main.go:352-358 | A port gets a fresh id and zero counters; the books stay exact while ids are left |
| LoftDaemon.Daemon.RemovePort | bridge/cmd/loftd/main.go:303-307 | A port goes and its buffered frames stay |
| LoftDaemon.Daemon.Ingest | bridge/cmd/loftd/main.go:396-448 | The daemon's buffer, counters and id counter after an arrival are those of the specification, the token returned is the one to send, and the books stay exact |
| LoftDaemon.Daemon.DeliverLocal | bridge/cmd/loftd/main.go:467-486 | Nothing happens unless both frame and port are here; otherwise exactly that frame's payload is handed back, freed if consuming and marked if copying |
| LoftDaemon.Daemon.Take | bridge/cmd/loftd/main.go:687-706 | A frame taken for a push is freed or marked, and its payload returned, if and only if it is here |
| LoftDaemon.Daemon.DropLocal | bridge/cmd/loftd/main.go:589-600 | The frame goes, with the one counter move the specification allows |
| LoftDaemon.Daemon.ServePeer | bridge/cmd/loftd/main.go:756-782 | A push is written if and only if its port is here and it is at least 14 bytes |
| LoftDaemon.Daemon.SweepFrames | bridge/cmd/loftd/main.go:841-848 | Deleting from the map while walking it ends with exactly the fresh frames and, per registered port, one count per stale one |
| LoftDaemon.Daemon.SweepRemote | bridge/cmd/loftd/main.go:849-853 | Deleting while walking leaves exactly the remote ids younger than 35 s |
| LoftDaemon.Daemon.Housekeeping | bridge/cmd/loftd/main.go:836-853 | The whole sweep meets its specification and keeps the books exact |
| LoftDaemon.Daemon.Hello | bridge/cmd/loftd/trunk.go:104-117 | Address recorded, nothing else moved |
| LoftDaemon.Daemon.RegisterRemotePort | bridge/cmd/loftd/trunk.go:180-191 | A fresh consumer id in both maps, unless the port already had one |
| LoftDaemon.Daemon.UnregisterRemotePort | bridge/cmd/loftd/trunk.go:126-133 | Both entries go together |
| LoftDaemon.Daemon.OnToken | bridge/cmd/loftd/trunk.go:148-175 | The token forwarded is the rewritten one, if and only if the port is known and a router is attached |
| LoftDaemon.Daemon.ForgetPorts | bridge/cmd/loftd/trunk.go:203-207 | The walk removes exactly the lost edge's ports |
| LoftDaemon.Daemon.ForgetFrames | bridge/cmd/loftd/trunk.go:208-213 | The walk removes exactly the lost edge's frames and counts each as a trunk drop |
| LoftDaemon.Daemon.EdgeGone | bridge/cmd/loftd/trunk.go:198-214 | The whole teardown meets its specification and keeps the books exact |
| LoftDaemon.Daemon.Lookup | bridge/cmd/loftd/main.go:677-680 | Both ids are looked up in one critical section; a drop forgets the remote id at once |
| Wire.TokenRoundTrip | bridge/cmd/loftd/main.go:450-462 | A token's bytes decode to the token |
| Wire.BuildTokenBytes | bridge/cmd/loftd/main.go:450-462 | The buffer filled field by field is the encoding of the token for that frame |
| Wire.PatchIsRewrite | bridge/cmd/loftd/trunk.go:170-174 | Overwriting bytes 1 to 6 of a token is the same as encoding the token with both ids replaced |
| Wire.VerdictRoundTrip | bridge/cmd/loftd/trunk.go:31-39 | A verdict's seven bytes decode to it |
| Wire.PushRoundTrip | bridge/cmd/loftd/main.go:809-812 | A pushed payload decodes to its port and bytes |
| Wire.SendDecodes | bridge/cmd/loftd/trunk.go:323-332 | A send-remote instruction always decodes, to the address cut to its length modulo 256 |
| Wire.SendRoundTripIff | bridge/cmd/loftd/trunk.go:42-53 | It decodes to itself if and only if the address is shorter than 256 bytes |
| Wire.KindsApart | bridge/cmd/loftd/trunk.go:315-322 | No decoder reads a message of another kind |
| Wire.TokenLayout | bridge/cmd/loftd/main.go:450-462 | A token is its kind, 1, then port, frame and length, high byte first, then the snapshot |
| Wire.VerdictLayout | bridge/cmd/loftd/trunk.go:31-39 | A verdict is seven bytes: 2, 3 or 4 for deliver, drop or copy-deliver, then port and frame, high byte first |
| Wire.PushLayout | bridge/cmd/loftd/main.go:809-812 | A push is its kind, 0x14, the port, four bytes unused and the payload |
| Wire.SendLayout | bridge/cmd/loftd/trunk.go:42-53 | A send-remote is its kind, 0x15, one for consuming, frame, port, one byte of address length, and the address |
| PigeonRuns.FramesEndOnce | game/src/game/pigeons.ts:260-362 | In every game whose ticks never find the sky full for a clone: a frame's reference count is the number of pigeons carrying it, an enqueued frame is waiting, flying or finished and only one of these, and its verbs are copy-delivers followed by at most one final one |
| PigeonRuns.TickExactIff | game/src/game/pigeons.ts:293-327 | A tick leaves every count exact and every frame's verbs in order if and only if no clone of that tick finds 500 pigeons flying |
| PigeonRuns.RunLedger | game/src/game/pigeons.ts:293-327 | The ledger holds after every run of enqueues and ticks that avoids that branch |
| PigeonRuns.NeverOverCapacity | game/src/game/pigeons.ts:280-296 | Whatever comes and happens, at most 500 pigeons fly and 10000 frames wait; below that a frame joins the line, and at it the first in line is dropped and counted |
| PigeonLedger.ClonesExactIff | game/src/game/pigeons.ts:308-325 | The clone pass keeps the ledger exact if and only if it never finds the sky full |
| PigeonLedger.EnqueueKeeps | game/src/game/pigeons.ts:280-287 | Enqueueing, including shedding the oldest at 10000, keeps the ledger |
| PigeonLedger.SpawnAllKeeps | game/src/game/pigeons.ts:351-362 | Letting the queue take off, including dropping frames whose roost is gone, keeps the ledger |
| PigeonLedger.RideAllKeeps | game/src/game/pigeons.ts:297-307 | Everyone riding, landing and falling in one tick keeps the ledger |
| PigeonRuns.FullSkyFreesALiveFrame | game/src/game/pigeons.ts:312-316 | At capacity one clone too many frees a frame while its only counted pigeon still flies |
| PigeonRuns.SecondFinalVerb | game/src/game/pigeons.ts:329-338 | When that pigeon lands, the frame gets a second final verb |
| PigeonScene.FreedAndDelivered | game/src/game/pigeons.ts:312-338 | A concrete game on a concrete floor, every pigeon's outcome worked out by the walk over it: with 500 flying, frame 0 meets a hub, is dropped twice while its pigeon flies on, and is then delivered |
| PigeonScene.ShopIsBuilt | game/src/game/board.ts:687-705 | That floor is what two hosts and five placed machines leave, and it meets the floor's invariant |
| PigeonScene.AtTheHub | game/src/game/pigeons.ts:137-146 | There, half a cell and half a cell bring the pigeon to the hub, where it asks for two clones whose ways are clear and rides straight on |
| PigeonScene.OthersWait | game/src/game/pigeons.ts:231-249 | A pigeon whose roost faces an empty cell waits on it, at every tick |
| PigeonManager.Manager.Enqueue | game/src/game/pigeons.ts:280-287 | Adds the frame, shedding the first in line at the limit, and keeps the ledger |
| PigeonManager.Manager.Resolve | game/src/game/pigeons.ts:329-338 | A landing sends a copy while other pigeons carry the frame and a final deliver for the last |
| PigeonManager.Manager.Unref | game/src/game/pigeons.ts:340-349 | A falling pigeon gives one count back; the last one drops the frame |
| PigeonManager.Manager.Spawn | game/src/game/pigeons.ts:351-362 | A frame takes off with one reference, or is dropped if its roost is gone |
| PigeonManager.Manager.DrainQueue | game/src/game/pigeons.ts:293-296 | The queue takes off in order while there is room |
| PigeonManager.Manager.Ride | game/src/game/pigeons.ts:297-307 | The loop from last to first is the specified fold, with each pigeon's clones noted in order |
| PigeonManager.Manager.PlaceClones | game/src/game/pigeons.ts:308-325 | The backlog is emptied into the sky as specified |
| PigeonManager.Manager.Update | game/src/game/pigeons.ts:293-327 | One tick meets its specification and leaves the ledger exact if and only if no clone found the sky full |
| PigeonsAndLoft.FinishedLeavesTheLoftIff | bridge/cmd/loftd/main.go:467-486 | Game and loft together: a frame only ever copied stays buffered; a finished one is still buffered if and only if its last verb was a deliver to a port the loft does not have |
| PigeonsAndLoft.FinishedIsItsFate | bridge/cmd/loftd/main.go:589-600 | While landing ports stay registered, the last verb is the frame's fate in the loft, and a drop is counted only if nothing was copied out |
| PigeonsAndLoft.EveryVerbFindsItsFrame | game/src/game/pigeons.ts:329-349 | No verb of a whole game is wasted: each finds its frame still buffered, payload unchanged |
| PigeonWalk.NeverInsideAWall | game/src/game/pigeons.ts:231-249 | A pigeon never arrives in a solid or off-floor cell; it lands only on a landing pad, with that pad's port, and falls only at a switch that filtered it |
| PigeonWalk.NoCellSkipped | game/src/game/pigeons.ts:96-135 | While it keeps riding it arrives at exactly as many cells as its progress pays for: none is stepped over, at any speed |
| PigeonWalk.AnySpeedSameWay | game/src/game/pigeons.ts:96-135 | Covering n cells and then m more gives the same path, clones and end as n + m at once |
| PigeonRouting.CrossingGoesStraight | game/src/game/pigeons.ts:158-161 | Riding onto a crossing, a pigeon is sent into the cell opposite the one it came from, or waits if that is solid |
| PigeonRouting.BeltGoesItsWay | game/src/game/pigeons.ts:156-157 | From a belt, and from a MIDI or learn box, it is sent to the neighbour in the direction set |
| PigeonRouting.HubGoesEveryWay | game/src/game/pigeons.ts:172-175 | From a hub it is sent the first, in order, of the three ways that do not lead back to where it came from, and asks for a clone each of the other two ways |
| PigeonRouting.FilterHasTwoWays | game/src/game/pigeons.ts:162-171 | From a filter it goes the way set for matches if it matches and the default way if not |
| PigeonRouting.MeterHasTwoWays | game/src/game/pigeons.ts:176-179 | From a meter it goes the default way if it passes and the overflow way if not |
| PigeonRouting.LookupGoesWhereStored | game/src/game/pigeons.ts:199-206 | From a lookup it goes the way its table has stored, and the way set for misses if none |
| PigeonRouting.ThroughASwitch | game/src/game/pigeons.ts:207-213 | Into a switch it comes out at the first emission, with a clone for each of the others, or waits there if the next cell is solid; with no emission it falls |
| PigeonRouting.PadLandsIt | game/src/game/pigeons.ts:226-227 | On a landing pad it lands, at that pad's port |
| PigeonRouting.BareFloorHoldsIt | game/src/game/pigeons.ts:153-154 | On a cell with nothing on it, it waits |
| PigeonRouting.RoostLetsItOut | game/src/game/pigeons.ts:231-249 | Out of a roost it sets off the way the roost faces if something that is not solid stands there, and waits if not |
| PigeonRouting.WaitingTriesAgain | game/src/game/pigeons.ts:97-104 | A waiting pigeon is sent on just as if it had only now arrived |
| PigeonRouting.AlwaysOnItsWay | game/src/game/pigeons.ts:231-249 | However far it goes, it rides from a cell to a neighbour of it in the direction it travels, while all directions set and stored are among the four |
| PigeonRouting.MayEnterIff | game/src/game/pigeons.ts:231-242 | From anything but a roost it may enter exactly the cells on the board that are no roost, switch body, half-placed port or way out |
| PigeonWalk.SwitchEmitsAtItsPorts | game/src/game/pigeons.ts:207-213 | A switch emits at a cell if and only if that is a way out of that very switch for a port it decided on, in the direction recorded there; the next cell that way is never one of its own; and with nothing to emit at, the frame is dropped |
| PigeonWalk.Pigeon.Update | game/src/game/pigeons.ts:96-135 | A tick leaves bird, fate, clones, cells visited and progress owed exactly as the specified flight, in at most 513 steps |
| PigeonWalk.Pigeon.Ride | game/src/game/pigeons.ts:107-131 | The loop over progress is the specified walk, cell for cell |
| Switching.RecencyWindow | game/src/game/machines.ts:58-107 | With a strictly increasing clock, after any trace a source heard within the ageing time is in the filtering database, on the port of its last frame, if and only if fewer than the capacity of other sources were heard since; the table never exceeds its capacity |
| Switching.RecencyBounds | game/src/game/machines.ts:58-107 | With a clock that may stand still the window is bounded from both sides: an entry has fewer than the capacity heard later, and a source without one has that many heard no earlier |
| Bridges.RecencyUnlessTied | game/src/game/machines.ts:58-107 | With such a clock sightings decide exactly as before unless a tie straddles the edge of the window: fewer than the capacity heard later, but that many heard no earlier |
| Bridges.TiesUndecided | game/src/game/machines.ts:97-107 | At such a tie sightings decide nothing: two concrete traces with the same last sightings of all sources end with tables that hold different ones |
| Switching.TraceKeeps | game/src/game/machines.ts:58-95 | The invariant behind both: every entry is a true last sighting, and whoever has none aged out or was overtaken |
| Bridges.TiesEvictTheRefreshed | game/src/game/machines.ts:97-107 | A concrete trace: within one clock reading a refresh does not protect an entry from eviction |
| Bridges.UnicastReachesItsHost | game/src/game/machines.ts:58-95 | If each address keeps to one port, then after any learning, ageing and eviction a unicast frame's exits contain its host's port whenever that differs from ingress, contain no other once it is known, and never contain ingress; a broadcast reaches every other port |
| Bridges.StepAgreesIff | game/src/game/tables.ts:55-84 | Learn then lookup decides as one switch step does if and only if the frame is not a broadcast with a fresh entry for the broadcast address |
| Bridges.PartsRebuildTheSwitch | game/src/game/tables.ts:55-84 | On any trace in which nobody claims the broadcast address, both decide every frame alike and hold the same table: hits, ageing, eviction and ties included |
| SwitchMachine.SwitchState.Step | game/src/game/machines.ts:58-95 | The method's decision and new table are the specification's, and its trace grows by this frame |
| SwitchMachine.SwitchState.Route | game/src/game/machines.ts:70-95 | Forward, filter and flood counters count exactly the decisions taken |
| SwitchMachine.SwitchState.EvictOldest | game/src/game/machines.ts:97-107 | The loop evicts the first of the least recently learned |
| SwitchMachine.SwitchState.LearnSource | game/src/game/machines.ts:60-68 | Refresh in place, or evict and append |
| SwitchMachine.NamedTable.Learn | game/src/game/tables.ts:55-72 | The named table after learning, eviction loop included, is the specification's |
| SwitchMachine.NamedTable.Lookup | game/src/game/tables.ts:75-84 | The answer and the removal of a stale entry are the specification's |
| SwitchMachine.NamedTable.EvictOldest | game/src/game/tables.ts:62-70 | The loop removes the first of the earliest entries |
| Meter.LevelIsTheLeastAllowance | game/src/game/machines.ts:155-174 | The bucket's level at any time is the least that any window of past frames still allows, and some window attains it |
| Meter.DivertedOnlyIfItMust | game/src/game/machines.ts:155-174 | A frame is diverted if and only if its cost is more than some window ending now still allows: limit, plus limit times the milliseconds since over 1000, less what has passed since |
| Meter.NeverMoreThanTheBound | game/src/game/machines.ts:155-174 | Over any stretch of frames the passed cost is at most limit + limit * milliseconds / 1000 |
| Meter.DivertedFromZeroIff | game/src/game/machines.ts:155-174 | On every trace of a clock from zero, a frame is diverted if and only if passing it would break the bound for some window, frames at clock zero counting as offered at the first later reading |
| Meter.SentinelHarmlessIff | game/src/game/machines.ts:157 | On every such trace, every frame finds the bucket at the level it would have without clock zero as the not-yet-started mark if and only if the limit is zero, all frames came at clock zero, or none that did could be charged for |
| Meter.SentinelDiverts | game/src/game/machines.ts:157 | A concrete trace in which that mark diverts a frame no window forbids |
| Meter.MeterState.Step | game/src/game/machines.ts:155-174 | The method passes a frame, at a cost of one in pps mode and of its length in bps mode, if and only if every window ending now allows it, and counts it |
| Meter.MeterState.RollRate | game/src/game/machines.ts:177-185 | The displayed rate is the units of the last bucket that lasted at least a second |
| AutoRoute.OneConsumingVerb | tools/autoroute.mjs:65-83 | Every token is answered by copies and then exactly one consuming verb, all naming that token's own frame |
| AutoRoute.AnswerReaches | tools/autoroute.mjs:65-79 | The ports reached are exactly the learned one, or every other listed one, and never the ingress |
| AutoRoute.UnicastReachesItsHost | tools/autoroute.mjs:65-79 | With every address on its own port, after any history the frame reaches its host if and only if that is not the ingress port and it is learned or listed |
| AutoRoute.AnswerFreesTheFrameIff | tools/autoroute.mjs:65-83 | After the answer the loft still holds the frame if and only if it was sent to a learned port the loft no longer has |
| AutoRoute.ReadsTheAddresses | tools/autoroute.mjs:49-64 | What it takes for a frame's destination and source are just those, whatever follows in the snapshot |
| AutoRoute.Consumer.OnToken | tools/autoroute.mjs:49-84 | The loop's messages are the specified answer, and exactly one of the three counters moves |
| AutoRoute.Consumer.PortAdded | tools/autoroute.mjs:41-43 | The port joins the list, once |
| AutoRoute.Consumer.PortRemoved | tools/autoroute.mjs:44-45 | The port leaves it |
| Stencil.AxisMoments | ballpit/src/gpu/fluid.ts:161-168 | The quadratic weights sum to one, have no first moment and second moment a quarter, wherever the particle is |
| Stencil.AffineValue | ballpit/src/gpu/fluid.ts:332-345 | The weighted sum of any affine field over the 27 nodes is its value at the particle |
| Stencil.AffineMoment | ballpit/src/gpu/fluid.ts:346-349 | The sum of an affine field weighted also by distance is a quarter of its gradient |
| Transfers.ClampedInRange | ballpit/src/gpu/fluid.ts:354-357 | Wherever a particle drifts, the clamp puts its whole stencil on the grid |
| Transfers.ClampedIsNearest | ballpit/src/gpu/fluid.ts:354-357 | It moves a coordinate only if the particle is through a wall there, and then to that wall |
| Transfers.NodeIndexInjective | ballpit/src/gpu/fluid.ts:169 | Distinct grid nodes have distinct in-range indices |
| Fluid.TransferConserves | ballpit/src/gpu/fluid.ts:216-233 | For any number of particles, the adds of one scatter total the live count in mass and their momentum, component by component |
| FluidGrid.GridConserves | ballpit/src/gpu/fluid.ts:216-233 | Summed over the cells of the grid: mass is the live count, and each momentum component is the particles' own |
| FluidGrid.StressConservesOnGrid | ballpit/src/gpu/fluid.ts:235-264 | After the stress pass too, for any particles under any stresses, the cells together hold exactly the particles' momentum |
| FluidGrid.GridHoldsAll | ballpit/src/gpu/fluid.ts:169 | What lies on the cells of the grid together is what was added: no add of a clamped particle falls outside |
| Fluid.ParticleMass | ballpit/src/gpu/fluid.ts:221-227 | One particle puts exactly one unit of mass on the grid |
| Fluid.ParticleMomentum | ballpit/src/gpu/fluid.ts:226-230 | One particle puts exactly its own momentum on the grid, whatever its affine part |
| Fluid.StressAddsNoMomentum | ballpit/src/gpu/fluid.ts:235-264 | The stress pass adds no net momentum, for any stress whatever |
| Fluid.StressAddsNoSpin | ballpit/src/gpu/fluid.ts:247-264 | The kernel's stress being symmetric, its pass adds no net turning moment about any axis |
| FluidStress.StressPushesOutward | ballpit/src/gpu/fluid.ts:235-264 | The impulses of one particle's stress pass push its nodes outward by volume * dt * (3 * pressure - 2 * viscosity * the rate at which the flow spreads): the weighted sum over the stencil of arm times impulse, with the kernel's own coefficient |
| FluidStress.AxisPush | ballpit/src/gpu/fluid.ts:249-264 | The same along each axis by itself |
| FluidStress.ShearIsOpposed | ballpit/src/gpu/fluid.ts:249-264 | Arm along one axis times impulse along another sums to minus volume * dt * viscosity times the symmetrised gradient, the same both ways round |
| FluidStress.RotationIsFree | ballpit/src/gpu/fluid.ts:249-264 | Fluid that only rotates gets its pressure and no viscosity |
| FluidStress.PressureSign | ballpit/src/gpu/fluid.ts:246-247 | The pressure is positive exactly when the fluid is denser than at rest, negative exactly when it is thinner, and never below -0.2 |
| FluidStress.CompressedFluidSpreads | ballpit/src/gpu/fluid.ts:245-264 | So still fluid is pushed apart exactly when it is denser than at rest, and drawn together exactly when it is thinner |
| Fluid.GatherReproducesAffine | ballpit/src/gpu/fluid.ts:329-353 | Gathering from any affine flow returns the flow at the particle and its gradient, both exactly |
| FluidFlow.NodeCarriesTheFlow | ballpit/src/gpu/fluid.ts:216-233 | If particles move as one affine flow, every node's momentum is its mass times the flow there |
| FluidFlow.AffineFlowSurvives | ballpit/src/gpu/fluid.ts:216-353 | Scattered to the grid and gathered back, such particles move as that same flow: velocity and gradient, exactly, where no node of the stencil is light (the grid pass leaves those undivided) |
| FluidSparse.LightNodesCost | ballpit/src/gpu/fluid.ts:266-353 | Light nodes included: each light node of the stencil, of which there are at most 27, puts a velocity component off by at most a ten-thousandth of the fastest flow there, and a gradient component by at most six times that |
| FluidSparse.OwnShare | ballpit/src/gpu/fluid.ts:221-227 | A node holds at least what each particle put there, which is why a light node can matter little |
| FixedPoint.ScatterAt | ballpit/src/gpu/fluid.ts:159-160 | Each cell ends as what it was plus everything added to it, modulo the 32-bit word |
| FixedPoint.EncTruncates | ballpit/src/gpu/fluid.ts:159 | A share is written as whole millionths, the rest cut off towards zero for either sign |
| FixedPoint.ScheduleIndependent | ballpit/src/gpu/fluid.ts:227-230 | Every schedule of the same atomic adds leaves the same grid, overflow included |
| FixedPoint.SumAtAnyOrder | ballpit/src/gpu/fluid.ts:227-230 | What reaches one cell does not depend on the order |
| FixedPoint.DecodedTotal | ballpit/src/gpu/fluid.ts:159-160 | Without overflow nothing is lost between the adds and the grid |
| FixedPoint.DecodedMass | ballpit/src/gpu/fluid.ts:159-233 | Under every schedule without overflow the mass read back is at most the live count n and short of it by less than 27n millionths |
| FixedPoint.DecodedMomentum | ballpit/src/gpu/fluid.ts:159-233 | Each momentum component read back is off by less than 27n millionths, to either side |
| FluidGrid.DecodedAfterStress | ballpit/src/gpu/fluid.ts:227-263 | With the stress pass as well, under every schedule without overflow, each momentum component read back is off by less than 54n millionths |
| FluidKernels.ScatterAll | ballpit/src/gpu/fluid.ts:216-233 | The triple loop over an array of atomics leaves exactly the scatter of the specified shares |
| FluidKernels.ParticlesToGrid | ballpit/src/gpu/fluid.ts:216-233 | The first scatter into four cleared buffers, with the mass bound for the whole |
| FluidKernels.ScatterParticle | ballpit/src/gpu/fluid.ts:221-231 | One particle's 27 adds, in the kernel's own loop order |
| BakedGrid.BakedIffInside | ballpit/src/gpu/fluid.ts:608-636 | For any boxes with orthonormal axes, a grid value is negative if and only if its node lies strictly inside some inflated box |
| BakedDistance.BakedIffHeld | ballpit/src/gpu/fluid.ts:605-636 | With the inflated box written out: a node reads negative if and only if, in the part's own axes, it lies within a twentieth of a cell of some box, or of a cell's thickness where the box is thinner, downward only along its upright axis |
| BakedDistance.InsideIsHeld | ballpit/src/gpu/fluid.ts:609-617 | The same for one box |
| BakedDistance.OwnBoxIsHeld | ballpit/src/gpu/fluid.ts:605-611 | The part's own box, top and all, lies inside |
| BakedDistance.OutsideNearest | ballpit/src/gpu/fluid.ts:624-629 | Outside, the distance is that to the nearest point of the inflated box |
| BakedDistance.InsideDepth | ballpit/src/gpu/fluid.ts:624-629 | Inside, it is minus the depth behind the nearest face |
| BakedDistance.CellIsLeast | ballpit/src/gpu/fluid.ts:605-634 | A node's value is the least distance to a box that scans it, and four where that is less or there is none |
| BakedDistance.ScannedIsNear | ballpit/src/gpu/fluid.ts:617-622 | The scan takes in every node within a cell of the bounding box and none two cells away |
| BakedGrid.InsideIsScanned | ballpit/src/gpu/fluid.ts:617-622 | The clipped bounding-box scan misses no node inside the box |
| BakedGrid.NegativeInside | ballpit/src/gpu/fluid.ts:624-629 | One box's distance is negative if and only if the node is strictly inside it |
| BakedGrid.PartBoxOrthonormal | ballpit/src/gpu/fluid.ts:492-499 | The axes a part gets from a unit quaternion are orthonormal, so the condition above always holds |
| BakedGrid.Bake | ballpit/src/gpu/fluid.ts:608-636 | The nested scan over the array, for any number of boxes, leaves that index |
| BakedGrid.StampBox | ballpit/src/gpu/fluid.ts:614-634 | One box's scan lowers exactly the nodes it should and no other |
| InternetChecksum.FoldModulo | bridge/cmd/perch/main.go:177-189 | Folding keeps the sum modulo 65535 and only zero folds to zero |
| InternetChecksum.StoredVerifies | bridge/cmd/perch/main.go:177-189 | Storing the checksum where a zero word was makes the whole verify (RFC 1071) |
| InternetChecksum.OneWordChanged | bridge/cmd/perch/main.go:177-189 | A stored checksum catches every change of one word but a swap of the two zeros of ones'-complement arithmetic |
| InternetChecksum.FoldDown | bridge/cmd/perch/main.go:185-187 | The carry loop terminates for every accumulator value |
| InternetChecksum.Compute | bridge/cmd/perch/main.go:177-189 | The 32-bit accumulator gives the checksum whenever the word sum fits, which any data of up to 128 KiB does |
| Frames.Ipv4HeaderVerifies | protocol/src/simbridge.ts:46-58 | Every IPv4 header built carries a sum that verifies |
| Frames.IcmpEchoVerifies | protocol/src/simbridge.ts:60-70 | Every echo message built carries a sum that verifies, for any payload length, odd ones included |
| Frames.BuildIpv4 | protocol/src/simbridge.ts:46-58 | Zero sum in place, checksum, then patched: the specified packet |
| Frames.BuildEcho | protocol/src/simbridge.ts:60-70 | The buffer filled by the payload loop and patched with its sum is the specified echo message |
| Frames.BuildUdp | protocol/src/simbridge.ts:72-80 | The datagram, with its length field |
| Frames.ArpRoundTrip | protocol/src/decode.ts:53-66 | The decoder reads back every field of every ARP frame the builder makes |
| Frames.EchoRoundTrip | protocol/src/decode.ts:67-110 | The decoder reads back kind, addresses, time to live, identifier and sequence number of every echo frame built |
| Frames.UdpRoundTrip | protocol/src/decode.ts:67-127 | The decoder reads back addresses and ports of every UDP frame built |
| Frames.AnyHeaderDecodes | protocol/src/decode.ts:67-127 | For an IPv4 header of any length, options included, and any payload: kind, ports, TCP flags and echo numbers are read from the payload's own bytes, addresses, protocol and time to live from the header's |
| Frames.HeaderParts | protocol/src/simbridge.ts:46-58 | A built header names its version, total length, time to live, protocol and addresses |
| Frames.UdpParts | protocol/src/simbridge.ts:72-80 | A built datagram names its ports and its length |
| Frames.ArpParts | protocol/src/simbridge.ts:29-35 | A built ARP message is for IPv4 over Ethernet, with its operation and four addresses |
| Frames.SnapshotIsEnough | protocol/src/decode.ts:41-129 | Decoding a token's 128-byte snapshot gives what the whole frame would |
| Frames.DecodeFrame | protocol/src/decode.ts:41-129 | The result object filled field by field is the specified decoding, short frames included |
| Perch.EchoReplyAnswers | bridge/cmd/perch/main.go:138-175 | Every echo request with a header of at least 20 bytes gets a reply that goes back to its sender from this host, keeps identifier, sequence number and data, decodes as an echo reply, and whose two checksums verify |
| Perch.ArpReplyAnswers | bridge/cmd/perch/main.go:109-136 | Every who-has for this host is answered by the ARP reply with the addresses crossed over, and it decodes so |
| Perch.InRangeIff | bridge/cmd/perch/main.go:138-175 | No field is read past the end if and only if the frame holds the fixed header or is turned away before the first field it lacks |
| Perch.AnswersIff | bridge/cmd/perch/main.go:109-175 | For any bytes at all, the agent answers exactly the who-has for its address and the echo request to its address with room for the echo header, told byte by byte |
| Perch.BareHeaderOutOfRange | bridge/cmd/perch/main.go:138-151 | For any host and addresses, an Ethernet header of type IPv4 with nothing after it is read past its end |
| Perch.ProperHeaderInRange | bridge/cmd/perch/main.go:138-175 | A header length of at least 20 is always enough |
| Perch.EditReply | bridge/cmd/perch/main.go:155-174 | The edited reply buffer is the specified reply |
| TwoHostsSafety.TwoHostsStaySafe | protocol/src/simbridge.ts:143-262 | Under any consumer that reorders, duplicates, loses or misroutes: every buffered frame is one the hosts built, alice's ARP table only maps bob's address to bob's own, she accepts only sequence numbers she sent, and answers never exceed pings sent plus copies made |
| TwoHostsSafety.HeldUntilTakenOut | protocol/src/simbridge.ts:168-218 | Over every run a frame once buffered is there, unchanged, exactly until a deliver or drop names it, and its number is never given out again |
| TwoHosts.PingTold | protocol/src/simbridge.ts:91-160 | A ping is an echo request from 10.244.0.10 to 10.244.0.11, both hosts' own addresses, with identifier 0x1d42 and alice's sequence number |
| TwoHostsSafety.CopiesCanOutnumberPings | protocol/src/simbridge.ts:192-209 | A concrete run with one ping, copied twice and answered twice: the copies in that bound are needed |
| SimBridge.Bridge.AliceTick | protocol/src/simbridge.ts:143-159 | Ask until resolved, then ping, sequence number advancing |
| SimBridge.Bridge.PodSend | protocol/src/simbridge.ts:168-185 | A frame joins the buffer under a fresh id |
| SimBridge.Bridge.PodReceive | protocol/src/simbridge.ts:220-262 | A host's reaction: learn, answer after a delay, or accept, and only frames for it |
| SimBridge.Bridge.DeliverInternal | protocol/src/simbridge.ts:196-209 | An unknown frame changes nothing; a consuming deliver removes it, a copying one does not |
| SimBridge.Bridge.FireTimer | protocol/src/simbridge.ts:229-253 | A delayed answer is sent when its timer fires |
| SimBridge.Bridge.Drop | protocol/src/simbridge.ts:211-218 | The frame goes and nothing else does |
| SimBridge.Bridge.StormPacket | protocol/src/simbridge.ts:161-165 | The storm is one more frame of alice's |
| Dns.ParsesQueries | bridge/cmd/uplink/main.go:366-401 | For any question whose labels are ASCII, dot-free and 1 to 63 bytes long, the parser returns the lowercased name and the type, and the question's end is exact (RFC 1035, section 4.1.2) |
| Dns.CutShortIff | bridge/cmd/uplink/main.go:366-401 | A question is refused exactly when fewer than the four bytes of type and class follow its name |
| Dns.NameReadsBack | bridge/cmd/uplink/main.go:366-388 | That name, read at its dots, gives back the labels in order and in lower case |
| Dns.LowerFolds | bridge/cmd/uplink/main.go:388 | Upper-case ASCII letters, and no other bytes, are moved to their lower case |
| Dns.AnswersUndoQueries | bridge/cmd/uplink/main.go:404-419 | The answer keeps id and question, is marked authoritative, and its one record reads back as an address record for that name, through pointer 0xC00C, with the given address (RFC 1035, sections 4.1.3 and 4.1.4) |
| Dns.RefusalsKeepTheQuestion | bridge/cmd/uplink/main.go:423-438 | A header-only response keeps id and question, has no records and carries the response code asked for |
| Dns.AnsweringBits | bridge/cmd/uplink/main.go:404-419 | Setting the response and authority bits leaves the other six alone |
| Dns.Parse | bridge/cmd/uplink/main.go:366-388 | The walk over the labels is the specified parser, malformed messages included |
| Dns.FindQuestionEnd | bridge/cmd/uplink/main.go:390-401 | The walk to the question's end is the specified one |
| Dns.MakeAnswer | bridge/cmd/uplink/main.go:404-419 | The buffer written into is the specified answer |
| Dns.MakeRefusal | bridge/cmd/uplink/main.go:423-438 | The buffer written into is the specified refusal |
| FloorEdits.FloorAgrees | game/src/game/board.ts:417-519 | After any edits: switches share no cells, every switch cell belongs to a live switch, each of a switch's cells shows exactly the port, lane and number its record gives it, ports sit on the rim, and one step out of a port leaves the switch, by the first side in the order north, east, south, west that does |
| FloorEdits.FloorStaysOk | game/src/game/board.ts:417-623 | The representation invariant survives every sequence of edits |
| FloorEdits.TogglePortKeeps | game/src/game/board.ts:455-508 | Every click on a switch keeps the floor's invariant: first cell, second cell, and removal with renumbering |
| FloorEdits.ClickIs | game/src/game/board.ts:455-501 | What a click does to the record: nothing inside the switch; on a port, that port goes; otherwise the first click is remembered and the second makes a port of the two, looking out of the switch by the first open side in the order north, east, south, west |
| FloorEdits.EdgeTold | game/src/game/board.ts:511-519 | A cell takes a port exactly if some neighbour is outside the switch, and the direction is that of the first such neighbour in that order |
| FloorEdits.CreateSwitchKeeps | game/src/game/board.ts:417-449 | Laying a switch, which scraps the machines it covers and steps around hosts, keeps the floor's invariant |
| FloorEdits.FootprintTold | game/src/game/board.ts:417-431 | A switch is laid on every cell between two corners, given in any order, that is on the 28 by 16 board and holds no host |
| FloorEdits.LaidSwitchIs | game/src/game/board.ts:432-449 | With fewer than two such cells nothing is laid; otherwise the new switch is those cells, without ports and under the next number, the switches that had one of them are gone, and all others stay as they were |
| FloorEdits.AppliancesDisjoint | game/src/game/board.ts:417-449 | Live switches never share a cell |
| FloorEdits.RemoveMachineShrinks | game/src/game/board.ts:612-623 | Removing changes no cell and no record but those it removes |
| FloorEdits.PlaceHostKeeps | game/src/game/board.ts:687-705 | Placing a host, scrapping what stands there, keeps the floor's invariant |
| FloorEdits.RemoveHostKeeps | game/src/game/board.ts:838-849 | Taking a host away keeps the floor's invariant |
| FloorStore.SaveThenRestore | game/src/game/board.ts:883-940 | Restoring a saved floor of full-rectangle switches gives back every single-cell machine in place and every switch with cells, ports, numbers and directions, renumbered in the order saved |
| FloorStore.SwitchesComeBackIff | game/src/game/board.ts:926-937 | Every switch comes back as it was if and only if each is a full rectangle and none has a port half placed |
| FloorStore.HalfPlacedIsLost | game/src/game/board.ts:455-465 | A floor of two edits, a switch and one click on its corner, does not come back however it is saved |
| FloorStore.AroundAHostIsLost | game/src/game/board.ts:417-449 | Nor does one with a switch laid across a host's cell |
| FloorStore.SwitchRestored | game/src/game/board.ts:926-937 | One full rectangle replayed click by click is that switch, less a port half placed |
| FloorStore.Serialize | game/src/game/board.ts:883-908 | Every machine and every switch is written down exactly once |
| HostSlots.SeatsStayApart | game/src/game/board.ts:668-874 | From any slots remembered, while no more than eighteen hosts are placed and no two announced ports go by one name, however they come, go, move and reconnect, no two share a slot and the used slots are exactly theirs |
| HostSlots.SeatsInOrderIff | game/src/game/board.ts:668-874 | From any slots remembered, seats are in order all along if and only if each event fits what can be seen before it: room for a new host, and for a move, that the first placed port under the name is the last one announced under it |
| HostSlots.AddedApartIff | game/src/game/board.ts:668-705 | A new host leaves all slots distinct if and only if fewer than eighteen are placed |
| HostSlots.NineteenShareASlot | game/src/game/board.ts:771-785 | Whatever is remembered, the last of nineteen hosts is put on slot zero, where another sits |
| HostSlots.PickedUnusedIff | game/src/game/board.ts:771-785 | The slot picked is unused if and only if some slot is |
| HostSlots.ReturnsToItsSlot | game/src/game/board.ts:771-785 | A host that comes back gets its remembered slot if no one sits there |
| HostSlots.MoveKeepsIff | game/src/game/board.ts:751-767 | A move takes the first placed port of a name off and seats the last announced one: seats stay in order if and only if these are one port; otherwise that port's old slot stays taken with nobody in it, or a port that has left is seated |
| HostSlots.LeakCostsASeat | game/src/game/board.ts:751-785 | A slot leaked by such a move with seventeen placed makes the eighteenth host share a slot |
| HostSlots.TwoAgentsLeakASlot | game/src/game/board.ts:751-767 | A concrete run: two ports under one name, one move, and slot one is taken with nobody in it, even once nobody is placed at all |
| Roosts.BoardStaysInOrder | game/src/game/board.ts:417-874 | However machines are built and erased and hosts come, go and move, while at most eighteen are on the board and no two announced ports go by one name: switch cells agree with their records, no two hosts share a slot, and the floor shows exactly the hosts that are seated, each at its slot's roost and landing |
| Roosts.BoardInOrderIff | game/src/game/board.ts:417-874 | All that holds all along a session if and only if every deed of it suits: room for a new host, and moves only of the port last announced under the name |
| Roosts.JoinKeepsIff | game/src/game/board.ts:668-705 | A new host leaves all that in force if and only if fewer than eighteen are placed; otherwise some seated host is no longer shown |
| Roosts.EditSpares | game/src/game/board.ts:417-628 | No edit of machines or switches touches a host's cell |
| Roosts.SlotsLaidOut | game/src/game/board.ts:99-120 | Where the roost and landing of each of the eighteen slots are, side by side in turn, the landing two cells further on or one in the corner |
| Roosts.FacesTheFloor | game/src/game/board.ts:99-120 | The roost of a slot faces into the floor, away from its own side |
| Roosts.SlotTold | game/src/game/board.ts:99-120 | No two slots share a cell and all lie on the board: a cell tells its slot |
| Roosts.RelocateKeepsIff | game/src/game/board.ts:751-767 | A move leaves floor and seats in agreement if and only if the port taken off is the one last announced under the name |
| Roosts.TwoAgentsShownTwice | game/src/game/board.ts:751-767 | A concrete session: two ports under one name and one move, and the floor shows the second of them at two slots |
| Roosts.ResetKeepsLayout | game/src/game/board.ts:856-863 | Clearing all hosts on a new session keeps floor and seats in agreement |
| FloorBoard.Board.CreateSwitch | game/src/game/board.ts:417-449 | Clearing the footprint cell by cell and laying the body is the specified edit; an id comes back if and only if two cells were free |
| FloorBoard.Board.FindEdge | game/src/game/board.ts:511-519 | The first open side of a cell, if it has one |
| FloorBoard.Board.TogglePort | game/src/game/board.ts:455-501 | A click is the specified edit and keeps the invariant |
| FloorBoard.Board.TakeOutPort | game/src/game/board.ts:466-508 | Taking a port out and renumbering the remaining cells in a loop is the specified edit |
| FloorBoard.Board.RemoveMachine | game/src/game/board.ts:612-623 | True if and only if there was a machine to remove |
| FloorBoard.Board.RemoveAppliance | game/src/game/board.ts:548-554 | The whole box goes with its record |
| FloorBoard.Board.SetMachine | game/src/game/board.ts:242-252 | A machine replaces what stood there, unless a host does |
| FloorBoard.Board.EraseMachine | game/src/game/board.ts:601-603 | Erasing keeps the invariant |
| FloorBoard.Board.Restore | game/src/game/board.ts:916-944 | Replaying the saved items, two clicks a port, is the restore that the round trip is about |
| FloorBoard.Board.PlaceAtSlot | game/src/game/board.ts:687-705 | The host takes its two cells and its slot, whatever machine stood there |
| FloorBoard.Board.RemovePortVisuals | game/src/game/board.ts:838-849 | The host's cells and its slot are given back, and no other cell changes |
| FloorBoard.Board.FindFree | game/src/game/board.ts:778-779 | The first free slot of the zone, or else of all |
| FloorBoard.Board.PickSlot | game/src/game/board.ts:771-785 | The searches in order, remembered slot first, then zone, free, unused, and slot zero, give the specified slot and remember it |
| FloorBoard.Board.AddPort | game/src/game/board.ts:668-682 | A new host leaves floor and seats in agreement if and only if fewer than eighteen are placed |
| FloorBoard.Board.RemovePort | game/src/game/board.ts:865-874 | A host leaves and floor and seats still agree |
| FloorBoard.Board.FindPlaced | game/src/game/board.ts:754-756 | The search finds the first placed port of that name |
| FloorBoard.Board.MoveHost | game/src/game/board.ts:751-767 | By name, as in the source: the specified move, true if and only if the target is on the board and unused and the name is placed and known; floor and seats still agree if and only if the port taken off is the one last announced |
| FloorBoard.Board.ResetPorts | game/src/game/board.ts:856-863 | Every placed port's cells go, the remembered slots stay, and floor and seats agree |
| FloorBoard.Board.ClearPlaced | game/src/game/board.ts:857 | The walk over the placed ports clears exactly their cells |

## Left out

- Sockets, WebSockets, AF_PACKET, TUN, netlink, iptables, WireGuard and Kubernetes: frames, messages and their loss are events of the model.
- JSON control messages and statistics as text, log narration, latency averages, the overflow narration's hysteresis and reconnect back-off: no proved property reads them.
- Observers and virtual ports served over `/port`: a virtual port is a port like any other, except that an edge never announces it on the trunk; consumers attached to an edge are not modelled.
- Process restart, with its reset ids.
- A per-port trunk-drop counter exists in the code but nothing increments it, so it is not modelled; the loft-wide one is.
- LoftDaemon.Daemon.ServePeer: the write to the interface is its result; what the kernel does with it is not modelled. Peer connections are not cached, a push simply arrives or fails.
- ClusterRuns.VerdictsReachWhatTheyName: is about payloads that are written; that a verdict is eventually carried out is not claimed, since every message may be lost.
- ClusterFates.NoSilentEndIff: a payload still on its way counts as answered for; that it arrives is not claimed.
- ClusterArrival.VerdictArrives: is about a verdict whose own events follow one another; what others may do in between is covered by the safety statements, not by this one.
- PigeonRuns.FramesEndOnce: frames whose pigeons never land have no final verb yet; that they land is up to the floor and is not claimed.
- PigeonsAndLoft.EveryVerbFindsItsFrame: frames do not expire between game verbs; expiry is covered by the cluster's runs.
- PigeonManager.Manager.Update: what each pigeon decides in a tick is a parameter here; it is modelled for one pigeon in `PigeonWalk` and tied to the game in `PigeonScene.OutcomeOf`; filters, meters, tables and switches enter the walk as arbitrary answers.
- PigeonWalk.Pigeon.Update: the position interpolated for drawing and the meshes are left out.
- Switching.RecencyWindow: the display rows and their rounded ages are left out, as is the switch cell's label.
- FluidFlow.AffineFlowSurvives: gravity, walls, colliders and conveyors in the grid pass are left out, as are pressure tuning, stability and GPU timing; density and viscosity enter the stress as arbitrary numbers. Float rounding is ignored except for the fixed-point truncation.
- FluidGrid.DecodedAfterStress: says nothing when a cell overflows its 32-bit word; `ScatterAt` does.
- FluidKernels.ScatterAll: one pass per buffer, since the four buffers share nothing; the code interleaves them node by node, which `ScheduleIndependent` makes the same.
- The fluid's particle slot pool, sink ring and vehicle hulls, and the rigid-body simulation.
- BakedGrid.Bake: grid values are exact reals; the trilinear sampling of them is left out.
- SimBridge.Bridge.PodReceive: timers fire in any order and at any time; the milestone message and per-pod statistics are left out.
- Dns.ParsesQueries: lower-casing is that of ASCII letters; the host list, forwarding upstream and the reply policy are left out.
- InternetChecksum.Compute: beyond a word sum of 32 bits the accumulator wraps, and the result is only tied to the wrapped sum.
- FloorStore.Serialize: saved values are structured, not JSON text; a switch's ageing time is saved but never restored by the code, and older saved formats are not modelled.
- Roosts.BoardStaysInOrder: shelving, the host inventory and placement rules are left out but for the slot zone they yield.
- Custom filter expressions, MIDI, tower services, the CNI's counter file, shells, panels and three.js objects.
