/** A pairing that succeeds: two endpoints of one reservation are staged, admitted and paired, both
    receive PairReady, and a frame of the first reaches the socket of the second. The guarantees of
    all runs are therefore not about a machine that never moves. */
module RelayDataExample {
  import opened Options
  import opened RelayDataTable
  import opened RelayDataInvariants
  import opened RelayDataPumps
  import opened RelayDataPairing

  const INITIATING := Info(5, 1, 1, Some(Initiator))
  const RESPONDING := Info(5, 2, 1, Some(Responder))

  lemma Extend(states: seq<Sys>, labels: seq<SysLabel>, l: SysLabel, s': Sys) returns (states': seq<Sys>, labels': seq<SysLabel>)
    requires IsRun(1, states, labels) && Can(states[|labels|], l) && Do(states[|labels|], l) == s'
    ensures IsRun(1, states', labels') && |labels'| == |labels| + 1 && states'[|labels'|] == s'
  {
    hide Do, Can;
    states', labels' := states + [s'], labels + [l];
  }

  lemma Begun() returns (states: seq<Sys>, labels: seq<SysLabel>)
    ensures IsRun(1, states, labels) && labels == [] && states[0] == Start(1)
  {
    states, labels := [Start(1)], [];
  }

  // ---------- staging ----------

  function OneStaged(leases: map<LeaseId, Lease>, slots: int): Sys {
    Sys(Table(Staging(1, map[1 := INITIATING], leases, {1}, slots, {1}, false), Core(map[], 0, 0, {}, map[], None), Tombs(map[], 0, map[])),
        map[1 := FRESH_PUMP], Pact(Free, map[], map[]))
  }

  /** Both endpoints are staged; `up` have not sent their first frame yet. */
  function World(up: set<EndpointId>, slots: int, core: Core, tombs: Tombs, p: Pump, q: Pump, pact: Pact): Sys {
    Sys(Table(Staging(1, map[1 := INITIATING, 2 := RESPONDING], map[], up, slots, {1, 2}, false), core, tombs), map[1 := p, 2 := q], pact)
  }

  const NO_PAIRS := Core(map[], 0, 0, {}, map[], None)
  const NO_TOMBS := Tombs(map[], 0, map[])
  const NO_PACT := Pact(Free, map[], map[])

  lemma StageFirst() returns (states: seq<Sys>, labels: seq<SysLabel>)
    ensures IsRun(1, states, labels) && states[|labels|] == OneStaged(map[], 1)
  {
    hide IsRun;
    states, labels := Begun();
    var leased := Start(1).(t := Initial(1).(staging := Staging(1, map[], map[0 := Lease(1, 1)], {}, 1, {}, false)));
    states, labels := Extend(states, labels, Registry(DoBeginUpgrade(0, 1, 1), 0), leased);
    assert map[0 := Lease(1, 1)] - {0} == map[];
    states, labels := Extend(states, labels, Registry(DoStage(0, 1, INITIATING), 0), OneStaged(map[], 1));
  }

  lemma StageSecond() returns (states: seq<Sys>, labels: seq<SysLabel>)
    ensures IsRun(1, states, labels) && states[|labels|] == World({1, 2}, 2, NO_PAIRS, NO_TOMBS, FRESH_PUMP, FRESH_PUMP, NO_PACT)
  {
    hide IsRun;
    states, labels := StageFirst();
    states, labels := Extend(states, labels, Registry(DoBeginUpgrade(0, 2, 1), 0), OneStaged(map[0 := Lease(2, 1)], 2));
    assert map[0 := Lease(2, 1)] - {0} == map[];
    assert map[1 := INITIATING][2 := RESPONDING] == map[1 := INITIATING, 2 := RESPONDING];
    states, labels := Extend(states, labels, Registry(DoStage(0, 2, RESPONDING), 0),
      World({1, 2}, 2, NO_PAIRS, NO_TOMBS, FRESH_PUMP, FRESH_PUMP, NO_PACT));
  }

  // ---------- admission ----------

  const WAITING := Core(map[5 := Pair(Some(1), None, false, false)], 1, 0, {1}, map[], None)

  function PairedCore(active: bool): Core {
    Core(map[5 := Pair(Some(1), Some(2), active, false)], if active then 0 else 1, if active then 1 else 0, {1, 2}, map[1 := 2, 2 := 1],
         if active then None else Some(Pairing(5, 2, 1, 0)))
  }

  function PactAt(phase: Phase, verdict: Verdict, mated: bool): Pact {
    Pact(phase, map[0 := Decision(5, 2, 1, verdict)], if mated then map[1 := 2, 2 := 1] else map[])
  }

  lemma FirstAdmission()
    ensures Admit(World({1, 2}, 2, NO_PAIRS, NO_TOMBS, FRESH_PUMP, FRESH_PUMP, NO_PACT).t, 1, false, 0)
         == (World({2}, 1, WAITING, NO_TOMBS, FRESH_PUMP, FRESH_PUMP, NO_PACT).t, Waiting({}))
  {
    assert {1, 2} - {1} == {2};
    assert OpenPair(NO_PAIRS, 5, Initiator, 1) == WAITING;
    assert ForgetOwn(NO_TOMBS, 5, 0) == NO_TOMBS;
  }

  lemma SecondAdmission()
    ensures Admit(World({2}, 1, WAITING, NO_TOMBS, FRESH_PUMP, FRESH_PUMP, NO_PACT).t, 2, false, 0)
         == (World({}, 0, PairedCore(false), NO_TOMBS, FRESH_PUMP, FRESH_PUMP, NO_PACT).t, Paired(1))
  {
    assert {2} - {2} == {};
    assert map[][2 := 1][1 := 2] == map[1 := 2, 2 := 1];
    assert WAITING.pairs[5 := Pair(Some(1), Some(2), false, false)] == map[5 := Pair(Some(1), Some(2), false, false)];
    assert PairUp(WAITING, 5, Responder, 2, 0) == PairedCore(false);
    assert ForgetOwn(NO_TOMBS, 5, 0) == NO_TOMBS && Swept(NO_TOMBS, 0) == NO_TOMBS;
  }

  lemma AdmitFirst() returns (states: seq<Sys>, labels: seq<SysLabel>)
    ensures IsRun(1, states, labels) && states[|labels|] == World({2}, 1, WAITING, NO_TOMBS, FRESH_PUMP, FRESH_PUMP, NO_PACT)
  {
    hide IsRun, Admit;
    states, labels := StageSecond();
    var s := World({1, 2}, 2, NO_PAIRS, NO_TOMBS, FRESH_PUMP, FRESH_PUMP, NO_PACT);
    FirstAdmission();
    assert Terminate(s.pumps, {}) == s.pumps;
    states, labels := Extend(states, labels, Registry(DoAdmit(1, false, 0), 0),
      World({2}, 1, WAITING, NO_TOMBS, FRESH_PUMP, FRESH_PUMP, NO_PACT));
  }

  lemma AdmitSecond() returns (states: seq<Sys>, labels: seq<SysLabel>)
    ensures IsRun(1, states, labels)
    ensures states[|labels|] == World({}, 0, PairedCore(false), NO_TOMBS, FRESH_PUMP, FRESH_PUMP, PactAt(Linking(0), Undecided, false))
  {
    hide IsRun, Admit;
    states, labels := AdmitFirst();
    var s := World({2}, 1, WAITING, NO_TOMBS, FRESH_PUMP, FRESH_PUMP, NO_PACT);
    var s' := World({}, 0, PairedCore(false), NO_TOMBS, FRESH_PUMP, FRESH_PUMP, PactAt(Linking(0), Undecided, false));
    SecondAdmission();
    assert AdmitStep(s, 2, 0, 0).pumps == s'.pumps;
    states, labels := Extend(states, labels, Registry(DoAdmit(2, false, 0), 0), s');
  }

  // ---------- pairing ----------

  const ACTIVE_TOMBS := Tombs(map[5 := CONSUMED_RETENTION], 0, map[5 := 0])
  const QUEUED := Enqueue(FRESH_PUMP, PairReady(0))
  const READY := QUEUED.(ready := true)

  lemma PairsUp() returns (states: seq<Sys>, labels: seq<SysLabel>)
    ensures IsRun(1, states, labels)
    ensures states[|labels|] == World({}, 0, PairedCore(true), ACTIVE_TOMBS, READY, READY, PactAt(Activated(0), Undecided, true))
  {
    hide IsRun;
    states, labels := AdmitSecond();
    states, labels := Extend(states, labels, QueueCurrent(true),
      World({}, 0, PairedCore(false), NO_TOMBS, FRESH_PUMP, QUEUED, PactAt(HalfQueued(0), Undecided, false)));
    states, labels := Extend(states, labels, QueuePeer(true),
      World({}, 0, PairedCore(false), NO_TOMBS, QUEUED, QUEUED, PactAt(BothQueued(0), Undecided, false)));
    var s := World({}, 0, PairedCore(false), NO_TOMBS, QUEUED, QUEUED, PactAt(BothQueued(0), Undecided, false));
    var s' := World({}, 0, PairedCore(true), ACTIVE_TOMBS, READY, READY, PactAt(Activated(0), Undecided, true));
    Activation();
    assert ActivateStep(s, 0).pumps == s'.pumps;
    states, labels := Extend(states, labels, Activate, s');
  }

  lemma Activation()
    ensures var t := World({}, 0, PairedCore(false), NO_TOMBS, QUEUED, QUEUED, PactAt(BothQueued(0), Undecided, false)).t;
      Commit(t) == World({}, 0, PairedCore(true), ACTIVE_TOMBS, READY, READY, PactAt(Activated(0), Undecided, true)).t
    ensures map[][2 := 1][1 := 2] == map[1 := 2, 2 := 1]
  {
  }

  // ---------- frames ----------

  /** The active pair with committed decision, and given pumps. */
  function Live(p: Pump, q: Pump): Sys { World({}, 0, PairedCore(true), ACTIVE_TOMBS, p, q, PactAt(Free, Committed, true)) }

  lemma Commits() returns (states: seq<Sys>, labels: seq<SysLabel>)
    ensures IsRun(1, states, labels) && states[|labels|] == Live(READY, READY)
  {
    hide IsRun;
    states, labels := PairsUp();
    states, labels := Extend(states, labels, ResolveCommit, Live(READY, READY));
  }

  /** A writer step of one endpoint of the live pair. */
  lemma MoveOne(states: seq<Sys>, labels: seq<SysLabel>, p: Pump, q: Pump, first: bool, k: PumpLabel)
    returns (states': seq<Sys>, labels': seq<SysLabel>)
    requires IsRun(1, states, labels) && states[|labels|] == Live(p, q)
    requires CanPump(if first then p else q, PactAt(Free, Committed, true).decisions, k)
    ensures IsRun(1, states', labels')
    ensures states'[|labels'|] == if first then Live(PumpStep(p, k), q) else Live(p, PumpStep(q, k))
  {
    hide IsRun, PumpStep;
    var s' := if first then Live(PumpStep(p, k), q) else Live(p, PumpStep(q, k));
    states', labels' := Extend(states, labels, Local(if first then 1 else 2, k), s');
  }

  /** Writing the frame at the head of the queue. */
  lemma WriteOne(states: seq<Sys>, labels: seq<SysLabel>, p: Pump, q: Pump, first: bool, x: Pump)
    returns (states': seq<Sys>, labels': seq<SysLabel>)
    requires IsRun(1, states, labels) && states[|labels|] == Live(p, q) && x == (if first then p else q)
    requires x.writer.Idle? && x.queue != [] && !x.terminal && (x.queue[0].PairReady? ==> x.queue[0] == PairReady(0))
    ensures IsRun(1, states', labels')
    ensures var x' := x.(queue := x.queue[1..], wire := x.wire + [x.queue[0]], sent := x.sent || x.queue[0].PairReady?);
      states'[|labels'|] == if first then Live(x', q) else Live(p, x')
  {
    hide IsRun, Live;
    var x1 := PumpStep(x, Dequeue);
    var x2 := PumpStep(x1, BeginWrite);
    var x3 := PumpStep(x2, EndWrite(true));
    states', labels' := MoveOne(states, labels, p, q, first, Dequeue);
    states', labels' := MoveOne(states', labels', if first then x1 else p, if first then q else x1, first, BeginWrite);
    states', labels' := MoveOne(states', labels', if first then x2 else p, if first then q else x2, first, EndWrite(true));
    states', labels' := MoveOne(states', labels', if first then x3 else p, if first then q else x3, first, NoteSent);
  }

  /** There is a run in which the first endpoint's frame reaches the second endpoint's socket, right
      behind its PairReady. */
  lemma FramesDoFlow() returns (states: seq<Sys>, labels: seq<SysLabel>)
    ensures IsRun(1, states, labels) && 2 in states[|labels|].pumps
    ensures states[|labels|].pumps[2].wire == [PairReady(0), Business(1, 7)]
  {
    hide IsRun;
    states, labels := Commits();
    states, labels := WriteOne(states, labels, READY, READY, true, READY);
    var p := READY.(queue := [], wire := [PairReady(0)], sent := true);
    assert READY.queue == [PairReady(0)] && READY.queue[1..] == [];
    states, labels := WriteOne(states, labels, p, READY, false, READY);
    var handed := Enqueue(p, Business(1, 7));
    states, labels := Extend(states, labels, Forward(1, 7), Live(p, handed));
    assert handed.queue == [Business(1, 7)];
    states, labels := WriteOne(states, labels, p, handed, false, handed);
  }
}
