/** The invariant of registry and pumps together, and what it means for every run. */
module RelayDataPairing {
  import opened Options
  import opened RelayDataTable
  import opened RelayDataAccounting
  import opened RelayDataInvariants
  import opened RelayDataRuns
  import opened RelayDataPumps
  import opened RelayDataDelivery

  type Mates = map<EndpointId, EndpointId>

  // ---------- what is known of one endpoint ----------

  predicate Party(x: Decision, e: EndpointId) { x.current == e || x.other == e }

  /** PairReady frames belong to decisions about this endpoint; those on the socket are committed. */
  predicate ReadyAt(p: Pump, e: EndpointId, decisions: Decisions) {
    && (forall f | f in p.accepted && f.PairReady? :: f.decision in decisions && Party(decisions[f.decision], e))
    && (forall f | f in Out(p) && f.PairReady? :: Decided(decisions, f, Committed))
  }

  /** Business frames come from the endpoint's mate, whose own PairReady was written. */
  predicate BizAt(p: Pump, e: EndpointId, mates: Mates, pumps: Pumps) {
    forall f | f in p.accepted && f.Business? ::
      e in mates && mates[e] == f.from && f.from in pumps && HasReady(pumps[f.from].wire)
  }

  ghost predicate PumpsInv(pumps: Pumps, decisions: Decisions, mates: Mates) {
    forall e | e in pumps :: PumpOk(pumps[e]) && ReadyAt(pumps[e], e, decisions) && BizAt(pumps[e], e, mates, pumps)
  }

  // ---------- decisions and mates ----------

  predicate Sealed(x: Decision, d: DecisionId, pumps: Pumps, mates: Mates) {
    && x.current in pumps && PairReady(d) in pumps[x.current].accepted
    && x.other in pumps && PairReady(d) in pumps[x.other].accepted
    && x.current in mates && mates[x.current] == x.other && x.other in mates && mates[x.other] == x.current
  }

  predicate DecisionAt(x: Decision, d: DecisionId, pumps: Pumps, phase: Phase, mates: Mates) {
    && x.current in pumps && x.other in pumps
    && (x.verdict.Undecided? ==> !phase.Free? && phase.d == d)
    && (x.verdict.Aborted? ==> pumps[x.current].terminal && pumps[x.other].terminal)
    && (x.verdict.Committed? ==> Sealed(x, d, pumps, mates))
  }

  ghost predicate DecisionsInv(pumps: Pumps, pact: Pact) {
    forall d | d in pact.decisions :: DecisionAt(pact.decisions[d], d, pumps, pact.phase, pact.mates)
  }

  /** Mates are fixed when a pair becomes active: an active pair holds mates, and no endpoint that
      still waits or is not admitted has one. */
  predicate MatedPair(p: Pair, mates: Mates) {
    if p.active then
      && Full(p) && p.initiator.value in mates && mates[p.initiator.value] == p.responder.value
      && p.responder.value in mates && mates[p.responder.value] == p.initiator.value
    else Members(p) !! mates.Keys
  }

  ghost predicate SameReservation(info: map<EndpointId, Info>, mates: Mates) {
    forall e | e in mates :: e in info && mates[e] in info && info[mates[e]].rid == info[e].rid
  }

  ghost predicate MatesInv(t: Table, mates: Mates) {
    && SameReservation(t.staging.info, mates) && t.staging.upgrades !! mates.Keys
    && forall r | r in t.core.pairs :: MatedPair(t.core.pairs[r], mates)
  }

  ghost predicate MatedReady(pumps: Pumps, mates: Mates) {
    forall e | e in mates :: e in pumps && HasReady(pumps[e].accepted)
  }

  predicate Pairs(t: Table, x: Decision) {
    && t.core.pairing.Some? && t.core.pairing.value.rid == x.rid
    && t.core.pairing.value.current == x.current && t.core.pairing.value.other == x.other
  }

  predicate PhaseInv(t: Table, pumps: Pumps, pact: Pact) {
    if pact.phase.Free? then t.core.pairing.None?
    else
      && pact.phase.d in pact.decisions && pact.decisions[pact.phase.d].verdict.Undecided?
      && PhaseAt(t, pumps, pact.phase, pact.decisions[pact.phase.d], pact.mates)
  }

  predicate PhaseAt(t: Table, pumps: Pumps, phase: Phase, x: Decision, mates: Mates)
    requires !phase.Free?
  {
    && x.current in pumps && x.other in pumps
    && match phase
       case Activated(d) =>
         t.core.pairing.None? && Sealed(x, d, pumps, mates) && x.rid in t.core.pairs && t.core.pairs[x.rid].active
         && Members(t.core.pairs[x.rid]) == {x.current, x.other}
       case Undone(d) => t.core.pairing.None? && pumps[x.current].terminal && pumps[x.other].terminal
       case HalfQueued(d) => Pairs(t, x) && PairReady(d) in pumps[x.current].accepted
       case BothQueued(d) =>
         Pairs(t, x) && PairReady(d) in pumps[x.current].accepted && PairReady(d) in pumps[x.other].accepted
       case _ => Pairs(t, x)
  }

  ghost predicate PactInv(t: Table, pumps: Pumps, pact: Pact) {
    DecisionsInv(pumps, pact) && MatedReady(pumps, pact.mates) && PhaseInv(t, pumps, pact)
  }

  ghost predicate SysInv(s: Sys) {
    && TableInv(s.t) && s.pumps.Keys == s.t.staging.info.Keys
    && PumpsInv(s.pumps, s.pact.decisions, s.pact.mates)
    && PactInv(s.t, s.pumps, s.pact)
    && MatesInv(s.t, s.pact.mates)
  }

  // ---------- frames of the parts ----------

  ghost predicate AllEvolve(pumps: Pumps, pumps': Pumps) {
    forall e | e in pumps :: e in pumps' && Evolves(pumps[e], pumps'[e])
  }

  lemma ReadyStays(s: seq<Frame>, s': seq<Frame>)
    requires HasReady(s) && s <= s'
    ensures HasReady(s')
  {
    var f :| f in s && f.PairReady?;
    assert f in s';
  }

  lemma PactEvolves(t: Table, t': Table, pumps: Pumps, pumps': Pumps, pact: Pact)
    requires PactInv(t, pumps, pact) && AllEvolve(pumps, pumps') && t'.core == t.core
    ensures PactInv(t', pumps', pact)
  {
    hide HasReady;
    forall e | e in pact.mates
      ensures e in pumps' && HasReady(pumps'[e].accepted)
    {
      ReadyStays(pumps[e].accepted, pumps'[e].accepted);
    }
    forall d | d in pact.decisions
      ensures DecisionAt(pact.decisions[d], d, pumps', pact.phase, pact.mates)
    {
      assert DecisionAt(pact.decisions[d], d, pumps, pact.phase, pact.mates);
    }
  }

  /** One endpoint changed: what it accepted anew is legitimate, what it sends is committed. */
  lemma OnePumpInv(pumps: Pumps, e: EndpointId, p: Pump, decisions: Decisions, mates: Mates)
    requires PumpsInv(pumps, decisions, mates) && e in pumps && Evolves(pumps[e], p)
    requires PumpOk(p) && ReadyAt(p, e, decisions) && BizAt(p, e, mates, pumps)
    ensures PumpsInv(pumps[e := p], decisions, mates) && AllEvolve(pumps, pumps[e := p])
  {
    hide HasReady, PumpOk, ReadyAt;
    var pumps' := pumps[e := p];
    forall x | x in pumps'
      ensures BizAt(pumps'[x], x, mates, pumps')
    {
      forall f | f in pumps'[x].accepted && f.Business?
        ensures f.from in pumps' && HasReady(pumps'[f.from].wire)
      {
        assert BizAt(pumps'[x], x, mates, pumps);
        if f.from == e {
          ReadyStays(pumps[e].wire, p.wire);
        }
      }
    }
  }

  // ---------- local steps ----------

  lemma LocalReady(p: Pump, e: EndpointId, decisions: Decisions, l: PumpLabel)
    requires PumpOk(p) && ReadyAt(p, e, decisions) && CanPump(p, decisions, l)
    ensures ReadyAt(PumpStep(p, l), e, decisions)
  {
    hide Lossless, InOrder, Noted;
  }

  lemma LocalKeeps(s: Sys, e: EndpointId, l: PumpLabel)
    requires SysInv(s) && Can(s, Local(e, l))
    ensures SysInv(Do(s, Local(e, l)))
  {
    hide TableInv, MatesInv, PactInv, PumpOk, ReadyAt, HasReady;
    var p, decisions := s.pumps[e], s.pact.decisions;
    assert l.Discard? ==> p.terminal by {
      if l.Discard? {
        DiscardIsTerminal(s, e);
      }
    }
    assert PumpOk(p) && ReadyAt(p, e, decisions) && BizAt(p, e, s.pact.mates, s.pumps);
    PumpStepOk(p, decisions, l);
    LocalReady(p, e, decisions, l);
    OnePumpInv(s.pumps, e, PumpStep(p, l), decisions, s.pact.mates);
    PactEvolves(s.t, s.t, s.pumps, s.pumps[e := PumpStep(p, l)], s.pact);
  }

  /** The parties of an aborted decision are terminal, so discarding their PairReady loses nothing. */
  lemma DiscardIsTerminal(s: Sys, e: EndpointId)
    requires SysInv(s) && e in s.pumps && CanPump(s.pumps[e], s.pact.decisions, Discard)
    ensures s.pumps[e].terminal
  {
    hide TableInv, MatesInv, PhaseInv, MatedReady, Lossless, InOrder, Noted;
    var p := s.pumps[e];
    if Decided(s.pact.decisions, p.writer.frame, Aborted) {
      assert PumpOk(p) && ReadyAt(p, e, s.pact.decisions);
      assert p.writer.frame in p.wire + Current(p.writer) + p.queue;
      var d := p.writer.frame.decision;
      assert DecisionAt(s.pact.decisions[d], d, s.pumps, s.pact.phase, s.pact.mates);
    }
  }

  // ---------- pairing steps ----------

  lemma Rephase(t: Table, pumps: Pumps, pact: Pact, phase: Phase)
    requires PactInv(t, pumps, pact) && !pact.phase.Free? && !phase.Free? && phase.d == pact.phase.d
    requires PhaseAt(t, pumps, phase, pact.decisions[phase.d], pact.mates)
    ensures PactInv(t, pumps, pact.(phase := phase))
  {
    hide HasReady, Sealed, PhaseAt;
    forall d | d in pact.decisions
      ensures DecisionAt(pact.decisions[d], d, pumps, phase, pact.mates)
    {
      assert DecisionAt(pact.decisions[d], d, pumps, pact.phase, pact.mates);
    }
  }

  lemma QueuedReady(p: Pump, e: EndpointId, d: DecisionId, decisions: Decisions)
    requires ReadyAt(p, e, decisions) && d in decisions && Party(decisions[d], e)
    ensures ReadyAt(Enqueue(p, PairReady(d)), e, decisions)
  {
  }

  /** A party of the pairing queues its PairReady. */
  lemma QueueOne(s: Sys, e: EndpointId) returns (s': Sys)
    requires SysInv(s) && !s.pact.phase.Free? && e in s.pumps && Enqueueable(s.pumps[e], PairReady(s.pact.phase.d))
    requires s.pact.phase.d in s.pact.decisions && Party(s.pact.decisions[s.pact.phase.d], e)
    ensures s' == s.(pumps := s.pumps[e := Enqueue(s.pumps[e], PairReady(s.pact.phase.d))]) && SysInv(s')
  {
    hide TableInv, MatesInv, PactInv, PumpOk, ReadyAt, HasReady;
    var d := s.pact.phase.d;
    var p' := Enqueue(s.pumps[e], PairReady(d));
    s' := s.(pumps := s.pumps[e := p']);
    assert PumpOk(s.pumps[e]) && ReadyAt(s.pumps[e], e, s.pact.decisions) && BizAt(s.pumps[e], e, s.pact.mates, s.pumps);
    EnqueueOk(s.pumps[e], PairReady(d));
    QueuedReady(s.pumps[e], e, d, s.pact.decisions);
    OnePumpInv(s.pumps, e, p', s.pact.decisions, s.pact.mates);
    PactEvolves(s.t, s.t, s.pumps, s'.pumps, s.pact);
  }

  lemma RephaseSys(s: Sys, phase: Phase)
    requires SysInv(s) && !s.pact.phase.Free? && !phase.Free? && phase.d == s.pact.phase.d
    requires PhaseAt(s.t, s.pumps, phase, s.pact.decisions[phase.d], s.pact.mates)
    ensures SysInv(s.(pact := s.pact.(phase := phase)))
  {
    hide TableInv, MatesInv, PumpsInv, PhaseAt;
    Rephase(s.t, s.pumps, s.pact, phase);
  }

  lemma QueueCurrentKeeps(s: Sys, ok: bool)
    requires SysInv(s) && Can(s, QueueCurrent(ok))
    ensures SysInv(Do(s, QueueCurrent(ok)))
  {
    hide TableInv, MatesInv, PumpsInv, DecisionsInv, MatedReady;
    var d := s.pact.phase.d;
    if ok {
      var s' := QueueOne(s, s.pact.decisions[d].current);
      RephaseSys(s', HalfQueued(d));
    } else {
      RephaseSys(s, Refused(d));
    }
  }

  lemma QueuePeerKeeps(s: Sys, ok: bool)
    requires SysInv(s) && Can(s, QueuePeer(ok))
    ensures SysInv(Do(s, QueuePeer(ok)))
  {
    hide TableInv, MatesInv, PumpsInv, DecisionsInv, MatedReady;
    var d := s.pact.phase.d;
    if ok {
      var s' := QueueOne(s, s.pact.decisions[d].other);
      RephaseSys(s', BothQueued(d));
    } else {
      RephaseSys(s, Refused(d));
    }
  }

  // ---------- flags ----------

  /** Only flags changed, terminal was not cleared and sent was not set. */
  predicate Flagged(p: Pump, p': Pump) {
    && p' == p.(terminal := p'.terminal, ready := p'.ready, sent := p'.sent)
    && (p.terminal ==> p'.terminal) && (p'.sent ==> p.sent)
  }

  ghost predicate AllFlagged(pumps: Pumps, pumps': Pumps) {
    pumps'.Keys == pumps.Keys && forall e | e in pumps :: Flagged(pumps[e], pumps'[e])
  }

  lemma FlagsKeep(pumps: Pumps, pumps': Pumps, decisions: Decisions, mates: Mates)
    requires PumpsInv(pumps, decisions, mates) && AllFlagged(pumps, pumps')
    ensures PumpsInv(pumps', decisions, mates) && AllEvolve(pumps, pumps')
  {
    hide HasReady, InOrder;
    forall e | e in pumps'
      ensures PumpOk(pumps'[e]) && ReadyAt(pumps'[e], e, decisions) && BizAt(pumps'[e], e, mates, pumps')
    {
      assert Flagged(pumps[e], pumps'[e]);
      FlagOk(pumps[e], pumps'[e]);
      FlagReady(pumps[e], pumps'[e], e, decisions);
    }
  }

  lemma FlagOk(p: Pump, p': Pump)
    requires PumpOk(p) && Flagged(p, p')
    ensures PumpOk(p')
  {
    hide Biz, ReadyFirst, HasReady;
    assert Out(p') == Out(p);
  }

  lemma FlagReady(p: Pump, p': Pump, e: EndpointId, decisions: Decisions)
    requires ReadyAt(p, e, decisions) && Flagged(p, p')
    ensures ReadyAt(p', e, decisions)
  {
  }

  // ---------- more decisions, more mates ----------

  /** Decisions keep their parties, committed ones stay committed, and mates are never changed. */
  ghost predicate Extends(decisions: Decisions, decisions': Decisions, mates: Mates, mates': Mates) {
    && (forall d | d in decisions :: d in decisions' && decisions'[d] == decisions[d].(verdict := decisions'[d].verdict)
                                     && (decisions[d].verdict.Committed? ==> decisions'[d].verdict.Committed?))
    && (forall e | e in mates :: e in mates' && mates'[e] == mates[e])
  }

  lemma PumpsExtend(pumps: Pumps, decisions: Decisions, decisions': Decisions, mates: Mates, mates': Mates)
    requires PumpsInv(pumps, decisions, mates) && Extends(decisions, decisions', mates, mates')
    ensures PumpsInv(pumps, decisions', mates')
  {
    hide HasReady, PumpOk;
    forall e | e in pumps
      ensures ReadyAt(pumps[e], e, decisions') && BizAt(pumps[e], e, mates', pumps)
    {
      assert ReadyAt(pumps[e], e, decisions) && BizAt(pumps[e], e, mates, pumps);
    }
  }

  lemma ResolveKeeps(s: Sys, verdict: Verdict)
    requires SysInv(s) && !verdict.Undecided?
    requires if verdict.Committed? then s.pact.phase.Activated? else s.pact.phase.Undone?
    requires s.pact.phase.d in s.pact.decisions
    ensures SysInv(Resolve(s, s.pact.phase.d, verdict))
  {
    hide TableInv, MatesInv, PumpsInv, HasReady;
    var d := s.pact.phase.d;
    var s' := Resolve(s, d, verdict);
    PumpsExtend(s.pumps, s.pact.decisions, s'.pact.decisions, s.pact.mates, s.pact.mates);
    forall x | x in s'.pact.decisions
      ensures DecisionAt(s'.pact.decisions[x], x, s.pumps, Free, s.pact.mates)
    {
      assert DecisionAt(s.pact.decisions[x], x, s.pumps, s.pact.phase, s.pact.mates);
    }
  }

  // ---------- activation and rollback ----------

  /** The pair in progress consists of the decision's parties, and no other pair holds them. */
  predicate Alone(t: Table, x: Decision) {
    && x.rid in t.core.pairs && Full(t.core.pairs[x.rid]) && !t.core.pairs[x.rid].active
    && Members(t.core.pairs[x.rid]) == {x.current, x.other}
    && {x.current, x.other} <= t.staging.info.Keys - t.staging.upgrades
    && t.staging.info[x.current].rid == x.rid && t.staging.info[x.other].rid == x.rid
    && forall r | r in t.core.pairs && r != x.rid :: Members(t.core.pairs[r]) !! {x.current, x.other}
  }

  lemma PairingAlone(t: Table, x: Decision)
    requires TableInv(t) && Pairs(t, x)
    ensures Alone(t, x)
  {
    hide Counted, Linked, TombsExact, SlotsExact;
    assert WellShaped(t.core.pairs[x.rid], true) && PlacedAt(t.core.pairs[x.rid], x.rid, t.core.refs, t.staging);
    assert {x.current, x.other} <= Members(t.core.pairs[x.rid]);
    forall r | r in t.core.pairs && r != x.rid
      ensures Members(t.core.pairs[r]) !! {x.current, x.other}
    {
      assert PlacedAt(t.core.pairs[r], r, t.core.refs, t.staging);
    }
  }

  lemma ActivateMates(t: Table, mates: Mates, x: Decision)
    requires Alone(t, x) && Pairs(t, x) && MatesInv(t, mates)
    ensures x.current !in mates && x.other !in mates
    ensures MatesInv(Commit(t), mates[x.current := x.other][x.other := x.current])
  {
    var p := t.core.pairs[x.rid];
    var mates' := mates[x.current := x.other][x.other := x.current];
    assert MatedPair(p, mates);
    assert x.current in Members(p) && x.other in Members(p);
    forall r | r in Commit(t).core.pairs
      ensures MatedPair(Commit(t).core.pairs[r], mates')
    {
      if r == x.rid {
        ActivatedMates(p, mates', x);
      } else {
        assert MatedPair(t.core.pairs[r], mates) && Members(t.core.pairs[r]) !! {x.current, x.other};
        OthersMated(t.core.pairs[r], mates, mates', x);
      }
    }
  }

  lemma ActivatedMates(p: Pair, mates: Mates, x: Decision)
    requires Full(p) && Members(p) == {x.current, x.other}
    requires x.current in mates && mates[x.current] == x.other && x.other in mates && mates[x.other] == x.current
    ensures MatedPair(p.(active := true, replacementPending := false), mates)
  {
    assert p.initiator.value in Members(p) && p.responder.value in Members(p);
    assert x.current in Members(p) && x.other in Members(p);
  }

  lemma OthersMated(p: Pair, mates: Mates, mates': Mates, x: Decision)
    requires MatedPair(p, mates) && Members(p) !! {x.current, x.other} && mates' == mates[x.current := x.other][x.other := x.current]
    ensures MatedPair(p, mates')
  {
    if p.active {
      assert p.initiator.value in Members(p) && p.responder.value in Members(p);
    }
  }

  lemma DecisionsMated(pumps: Pumps, pact: Pact, pact': Pact)
    requires DecisionsInv(pumps, pact) && !pact.phase.Free? && !pact'.phase.Free? && pact'.phase.d == pact.phase.d
    requires pact'.decisions == pact.decisions && Extends(pact.decisions, pact.decisions, pact.mates, pact'.mates)
    ensures DecisionsInv(pumps, pact')
  {
    forall d | d in pact.decisions
      ensures DecisionAt(pact.decisions[d], d, pumps, pact'.phase, pact'.mates)
    {
      assert DecisionAt(pact.decisions[d], d, pumps, pact.phase, pact.mates);
    }
  }

  lemma MatedReadyGrows(pumps: Pumps, mates: Mates, a: EndpointId, b: EndpointId, d: DecisionId)
    requires MatedReady(pumps, mates) && a in pumps && b in pumps
    requires PairReady(d) in pumps[a].accepted && PairReady(d) in pumps[b].accepted
    ensures MatedReady(pumps, mates[a := b][b := a])
  {
    hide HasReady;
    ReadyWitness(pumps[a].accepted, d);
    ReadyWitness(pumps[b].accepted, d);
  }

  lemma ActivatedPact(t: Table, pumps: Pumps, pact: Pact, pact': Pact)
    requires PactInv(t, pumps, pact) && pact.phase.BothQueued?
    requires var x := pact.decisions[pact.phase.d];
      && Alone(t, x) && x.current !in pact.mates && x.other !in pact.mates
      && pact' == pact.(phase := Activated(pact.phase.d), mates := pact.mates[x.current := x.other][x.other := x.current])
    ensures PactInv(Commit(t), pumps, pact')
  {
    hide HasReady;
    var d := pact.phase.d;
    var x := pact.decisions[d];
    DecisionsMated(pumps, pact, pact');
    MatedReadyGrows(pumps, pact.mates, x.current, x.other, d);
  }

  lemma ReadyWitness(s: seq<Frame>, d: DecisionId)
    requires PairReady(d) in s
    ensures HasReady(s)
  {
  }

  lemma ActivateKeeps(s: Sys, d: DecisionId)
    requires SysInv(s) && s.pact.phase == BothQueued(d) && InProgress(s, d)
    ensures SysInv(ActivateStep(s, d))
  {
    hide TableInv, PumpsInv, MatesInv, PactInv, Alone, Commit;
    var s' := ActivateStep(s, d);
    assert Pairs(s.t, s.pact.decisions[d]) by {
      PhaseFacts(s);
    }
    PairingAlone(s.t, s.pact.decisions[d]);
    ActivateMates(s.t, s.pact.mates, s.pact.decisions[d]);
    CommitTable(s.t);
    assert AllFlagged(s.pumps, s'.pumps);
    FlagsKeep(s.pumps, s'.pumps, s.pact.decisions, s.pact.mates);
    PactEvolves(s.t, s.t, s.pumps, s'.pumps, s.pact);
    ActivatedPact(s.t, s'.pumps, s.pact, s'.pact);
    assert Extends(s.pact.decisions, s.pact.decisions, s.pact.mates, s'.pact.mates);
    PumpsExtend(s'.pumps, s.pact.decisions, s.pact.decisions, s.pact.mates, s'.pact.mates);
  }

  lemma CommitTable(t: Table)
    requires TableInv(t) && t.core.pairing.Some? && t.core.pairing.value.rid in t.core.pairs
    ensures TableInv(Commit(t)) && Commit(t).staging == t.staging
  {
    hide TableInv;
    TableStep(t, DoCommit);
  }

  lemma PhaseFacts(s: Sys)
    requires SysInv(s)
    ensures PhaseInv(s.t, s.pumps, s.pact)
  {
  }

  lemma RollBackKeeps(s: Sys)
    requires SysInv(s) && Can(s, RollBack)
    ensures SysInv(Do(s, RollBack))
  {
    hide TableInv, PumpsInv, DecisionsInv, MatedReady;
    var d, s' := s.pact.phase.d, Do(s, RollBack);
    TableStep(s.t, DoAbort);
    assert AllFlagged(s.pumps, s'.pumps);
    FlagsKeep(s.pumps, s'.pumps, s.pact.decisions, s.pact.mates);
    assert PactInv(s.t, s'.pumps, s.pact) by {
      PactEvolves(s.t, s.t, s.pumps, s'.pumps, s.pact);
    }
    RolledBackPact(s.t, s'.t, s'.pumps, s.pact);
  }

  lemma RolledBackPact(t: Table, t': Table, pumps: Pumps, pact: Pact)
    requires PactInv(t, pumps, pact) && pact.phase.Refused? && t'.core.pairing.None?
    requires pumps[pact.decisions[pact.phase.d].current].terminal && pumps[pact.decisions[pact.phase.d].other].terminal
    ensures PactInv(t', pumps, pact.(phase := Undone(pact.phase.d)))
  {
    hide HasReady, Sealed;
    forall d | d in pact.decisions
      ensures DecisionAt(pact.decisions[d], d, pumps, Undone(pact.phase.d), pact.mates)
    {
      assert DecisionAt(pact.decisions[d], d, pumps, pact.phase, pact.mates);
    }
  }

  // ---------- forwarding ----------

  /** A frame is handed on only between mates. */
  lemma ForwardToMate(s: Sys, e: EndpointId)
    requires SysInv(s) && ForwardTo(s, e).Some?
    ensures var other := ForwardTo(s, e).value;
      && e in s.pumps && HasReady(s.pumps[e].wire) && other in s.pumps && HasReady(s.pumps[other].accepted)
      && other in s.pact.mates && s.pact.mates[other] == e
  {
    hide TableInv, ReadyAt, BizAt, Lossless, InOrder, Known, DecisionsInv, PhaseInv, HasReady;
    var r := s.t.staging.info[e].rid;
    assert MatedPair(s.t.core.pairs[r], s.pact.mates);
    assert PumpOk(s.pumps[e]);
  }

  lemma ForwardedReady(p: Pump, e: EndpointId, f: Frame, decisions: Decisions)
    requires ReadyAt(p, e, decisions) && f.Business?
    ensures ReadyAt(Enqueue(p, f), e, decisions)
  {
  }

  lemma ForwardKeeps(s: Sys, e: EndpointId, payload: nat)
    requires SysInv(s) && Can(s, Forward(e, payload))
    ensures SysInv(Do(s, Forward(e, payload)))
  {
    hide TableInv, MatesInv, PactInv, PumpOk, ReadyAt, HasReady;
    var other, f := ForwardTo(s, e).value, Business(e, payload);
    ForwardToMate(s, e);
    var p := s.pumps[other];
    assert PumpOk(p) && ReadyAt(p, other, s.pact.decisions) && BizAt(p, other, s.pact.mates, s.pumps);
    EnqueueOk(p, f);
    ForwardedReady(p, other, f, s.pact.decisions);
    OnePumpInv(s.pumps, other, Enqueue(p, f), s.pact.decisions, s.pact.mates);
    PactEvolves(s.t, s.t, s.pumps, s.pumps[other := Enqueue(p, f)], s.pact);
  }

  // ---------- registry steps ----------

  /** A pair is left alone, or it is inactive and made of endpoints that waited or were not admitted. */
  predicate PairFrom(p: Pair, t: Table, r: ReservationId) {
    || (r in t.core.pairs && p == t.core.pairs[r])
    || (!p.active && Members(p) <= t.staging.upgrades + if r in t.core.pairs && !t.core.pairs[r].active then Members(t.core.pairs[r]) else {})
  }

  ghost predicate Succeeds(t: Table, t': Table) {
    && t.staging.info.Keys <= t'.staging.info.Keys && (forall e | e in t.staging.info :: t'.staging.info[e] == t.staging.info[e])
    && t'.staging.upgrades <= t.staging.upgrades + (t'.staging.info.Keys - t.staging.info.Keys)
    && AllFrom(t'.core.pairs, t)
  }

  lemma MatesKeep(t: Table, t': Table, mates: Mates)
    requires MatesInv(t, mates) && Succeeds(t, t')
    ensures MatesInv(t', mates)
  {
    forall r | r in t'.core.pairs
      ensures MatedPair(t'.core.pairs[r], mates)
    {
      assert PairFrom(t'.core.pairs[r], t, r);
      if r in t.core.pairs {
        assert MatedPair(t.core.pairs[r], mates);
      }
    }
  }

  lemma FreePact(t: Table, t': Table, pumps: Pumps, pumps': Pumps, pact: Pact)
    requires PactInv(t, pumps, pact) && pact.phase.Free? && AllEvolve(pumps, pumps') && t'.core.pairing.None?
    ensures PactInv(t', pumps', pact)
  {
    hide AllEvolve;
    PactEvolves(t, t.(tombs := t'.tombs), pumps, pumps', pact);
  }

  lemma FreshPump(pumps: Pumps, e: EndpointId, decisions: Decisions, mates: Mates)
    requires PumpsInv(pumps, decisions, mates) && e !in pumps
    ensures PumpsInv(pumps[e := FRESH_PUMP], decisions, mates) && AllEvolve(pumps, pumps[e := FRESH_PUMP])
  {
    hide HasReady, PumpOk, ReadyAt;
    assert PumpOk(FRESH_PUMP) && ReadyAt(FRESH_PUMP, e, decisions) by {
      FreshPumpOk(e, decisions);
    }
    var pumps' := pumps[e := FRESH_PUMP];
    forall x | x in pumps'
      ensures BizAt(pumps'[x], x, mates, pumps')
    {
      if x != e {
        assert BizAt(pumps[x], x, mates, pumps);
      }
    }
  }

  lemma FreshPumpOk(e: EndpointId, decisions: Decisions)
    ensures PumpOk(FRESH_PUMP) && ReadyAt(FRESH_PUMP, e, decisions)
  {
  }

  /** Every registry step but admission ends with the mutex free and derives its pairs from the
      old ones. */
  lemma StepSucceeds(t: Table, k: TableLabel)
    requires TableInv(t) && t.core.pairing.None? && Enabled(t, k) && !k.DoAdmit?
    ensures Succeeds(t, Step(t, k)) && Step(t, k).core.pairing.None?
    ensures Step(t, k).staging.info == if k.DoStage? then Step(t, k).staging.info else t.staging.info
  {
    hide CoreOk, TombsExact, Enumerates, Succeeds;
    if k.DoRelease? {
      ReleaseSucceeds(t, k.e);
    } else if k.DoCloseDevice? {
      CloseSucceeds(t, k.leaseOrder, k.order);
    } else if k.DoCloseAll? {
      CloseAllSucceeds(t, k.leaseOrder, k.order);
    } else {
      StagingSucceeds(t, k);
    }
  }

  lemma StagingSucceeds(t: Table, k: TableLabel)
    requires TableInv(t) && t.core.pairing.None? && Enabled(t, k)
    requires !k.DoAdmit? && !k.DoRelease? && !k.DoCloseDevice? && !k.DoCloseAll?
    ensures Succeeds(t, Step(t, k)) && Step(t, k).core == t.core
    ensures Step(t, k).staging.info == if k.DoStage? then Step(t, k).staging.info else t.staging.info
  {
    hide TableInv, Enumerates, Succeeds, CloseEndpoints, Admit, Release, Commit, AbortCore, Detached, Targets, OwnedLeases;
    CoreSucceeds(t, Step(t, k));
  }

  lemma CloseAllSucceeds(t: Table, leaseOrder: seq<LeaseId>, order: seq<EndpointId>)
    requires CoreOk(t.core, t.staging) && SlotsExact(t.staging) && t.core.pairing.None? && forall e | e in order :: e in t.staging.info
    ensures var t' := CloseEndpoints(t.(staging := t.staging.(closed := true)), leaseOrder, order);
      Succeeds(t, t') && t'.core.pairing.None?
  {
    hide CoreOk, Succeeds;
    var t1 := t.(staging := t.staging.(closed := true));
    StagingShrinks(t.core, t.staging, t1.staging);
    CloseSucceeds(t1, leaseOrder, order);
    SucceedsSame(t, t1, CloseEndpoints(t1, leaseOrder, order));
  }

  lemma CoreSucceeds(t: Table, t': Table)
    requires t'.core == t.core && t.staging.info.Keys <= t'.staging.info.Keys
    requires forall e | e in t.staging.info :: t'.staging.info[e] == t.staging.info[e]
    requires t'.staging.upgrades <= t.staging.upgrades + (t'.staging.info.Keys - t.staging.info.Keys)
    ensures Succeeds(t, t')
  {
  }

  lemma SucceedsSame(t0: Table, t: Table, t': Table)
    requires Succeeds(t, t') && t0.core == t.core && t0.staging.info == t.staging.info && t0.staging.upgrades == t.staging.upgrades
    ensures Succeeds(t0, t')
  {
    forall r | r in t'.core.pairs
      ensures PairFrom(t'.core.pairs[r], t0, r)
    {
      assert PairFrom(t'.core.pairs[r], t, r);
    }
  }

  lemma ReleaseSucceeds(t: Table, e: EndpointId)
    requires CoreOk(t.core, t.staging) && t.core.pairing.None? && e in t.staging.info
    ensures Succeeds(t, Release(t, e)) && Release(t, e).core.pairing.None?
  {
    hide CoreInv, Placed, Linked, PairingNamed;
    CoreOkParts(t.core, t.staging);
    ReleaseKeeps(t.core, t.staging.max, e, t.staging.info[e].rid);
  }

  lemma CloseSucceeds(t: Table, leaseOrder: seq<LeaseId>, order: seq<EndpointId>)
    requires CoreOk(t.core, t.staging) && SlotsExact(t.staging) && t.core.pairing.None? && forall e | e in order :: e in t.staging.info
    ensures Succeeds(t, CloseEndpoints(t, leaseOrder, order)) && CloseEndpoints(t, leaseOrder, order).core.pairing.None?
  {
    hide CoreInv, Placed, Linked, PairingNamed;
    ReleaseAllRemoves(t.core, t.staging, order);
    DropLeasesSlots(t.staging, leaseOrder);
    RemoveUpgradesSlots(DropLeases(t.staging, leaseOrder), order);
  }

  lemma PlainStepKeeps(s: Sys, k: TableLabel, id: DecisionId)
    requires SysInv(s) && Can(s, Registry(k, id)) && !k.DoAdmit?
    ensures SysInv(Do(s, Registry(k, id)))
  {
    hide TableInv, MatesInv, PumpsInv, PactInv, Succeeds, Enabled, Step;
    var s' := RegistryStep(s, k, id);
    FreePhase(s);
    TableStep(s.t, k);
    StepSucceeds(s.t, k);
    MatesKeep(s.t, s'.t, s.pact.mates);
    if k.DoStage? {
      StagePumps(s, k, id);
    } else {
      assert AllFlagged(s.pumps, s'.pumps);
      FlagsKeep(s.pumps, s'.pumps, s.pact.decisions, s.pact.mates);
    }
    FreePact(s.t, s'.t, s.pumps, s'.pumps, s.pact);
  }

  lemma FreePhase(s: Sys)
    requires SysInv(s) && s.pact.phase.Free?
    ensures s.t.core.pairing.None?
  {
  }

  lemma StagePumps(s: Sys, k: TableLabel, id: DecisionId)
    requires SysInv(s) && Can(s, Registry(k, id)) && k.DoStage?
    ensures var s' := RegistryStep(s, k, id);
      s'.pumps.Keys == s'.t.staging.info.Keys && PumpsInv(s'.pumps, s.pact.decisions, s.pact.mates) && AllEvolve(s.pumps, s'.pumps)
  {
    hide TableInv, MatesInv, PumpsInv, PactInv;
    FreshPump(s.pumps, k.e, s.pact.decisions, s.pact.mates);
    assert AllEvolve(s.pumps, s.pumps);
  }

  // ---------- admission ----------

  ghost predicate AllFrom(pairs: Pairs, base: Table) { forall r | r in pairs :: PairFrom(pairs[r], base, r) }

  lemma OneFrom(base: Table, rid: ReservationId, p: Pair)
    requires PairFrom(p, base, rid)
    ensures AllFrom(base.core.pairs[rid := p], base)
  {
  }

  /** A pair that was not active and takes in an endpoint from the upgrade set. */
  lemma FilledFrom(base: Table, rid: ReservationId, role: Role, e: EndpointId, p: Pair)
    requires e in base.staging.upgrades && !p.active
    requires Members(p) <= if rid in base.core.pairs && !base.core.pairs[rid].active then Members(base.core.pairs[rid]) else {}
    ensures PairFrom(Fill(p, role, e), base, rid)
  {
    assert Members(Fill(p, role, e)) <= Members(p) + {e};
  }

  lemma AdmitIntoSucceeds(t: Table, e: EndpointId, rid: ReservationId, role: Role, now: int, base: Table)
    requires CoreOk(t.core, t.staging) && t.core.pairing.None? && e in base.staging.upgrades && t.core == base.core
    ensures var (t', out) := AdmitInto(t, e, rid, role, now);
      && AllFrom(t'.core.pairs, base)
      && (out.Paired? ==>
            t'.core.pairing == Some(Pairing(rid, e, out.other, now)) && rid in t.core.pairs && out.other in Members(t.core.pairs[rid]))
      && (!out.Paired? ==> t'.core.pairing.None?)
  {
    hide Placed, Linked, PairingNamed, Counted, Swept, PairFrom, AllFrom, Fill;
    Unchanged(base);
    if rid !in t.core.pairs {
      FilledFrom(base, rid, role, e, EMPTY_PAIR);
      OneFrom(base, rid, Fill(EMPTY_PAIR, role, e));
    } else if t.core.pairs[rid].active {
      FilledFrom(base, rid, role, e, EMPTY_PAIR.(replacementPending := true));
      OneFrom(base, rid, Fill(EMPTY_PAIR.(replacementPending := true), role, e));
      assert WellShaped(t.core.pairs[rid], false);
    } else {
      FilledFrom(base, rid, role, e, t.core.pairs[rid]);
      OneFrom(base, rid, Fill(t.core.pairs[rid], role, e));
    }
  }

  lemma Unchanged(base: Table)
    ensures AllFrom(base.core.pairs, base)
  {
  }

  lemma AdmitSucceeds(t: Table, e: EndpointId, terminal: bool, now: int)
    requires TableInv(t) && t.core.pairing.None? && e in t.staging.info && (terminal || e in t.staging.upgrades)
    ensures var (t', out) := Admit(t, e, terminal, now);
      && Succeeds(t, t') && t'.staging.info == t.staging.info
      && (out.Paired? ==> t'.core.pairing == Some(Pairing(t.staging.info[e].rid, e, out.other, now)) && out.other in t.staging.info)
      && (!out.Paired? ==> t'.core.pairing.None?)
  {
    hide CoreInv, Linked, PairingNamed, TombsExact, Blocked, SlotsExact;
    var info := t.staging.info[e];
    var g := RemoveUpgrade(t.staging, e);
    if !(t.staging.closed || terminal || info.role.None? || Blocked(t, info.rid, now)) {
      StagingShrinks(t.core, t.staging, g);
      AdmitIntoSucceeds(t.(staging := g, tombs := ForgetOwn(t.tombs, info.rid, now)), e, info.rid, info.role.value, now, t);
      if info.rid in t.core.pairs {
        assert PlacedAt(t.core.pairs[info.rid], info.rid, t.core.refs, t.staging);
      }
    }
  }

  lemma LinkingPact(t: Table, t': Table, pumps: Pumps, pact: Pact, id: DecisionId, x: Decision)
    requires PactInv(t, pumps, pact) && pact.phase.Free? && id !in pact.decisions && x.verdict.Undecided?
    requires Pairs(t', x) && x.current in pumps && x.other in pumps
    ensures PactInv(t', pumps, pact.(phase := Linking(id), decisions := pact.decisions[id := x]))
  {
    hide HasReady, Sealed;
    var decisions := pact.decisions[id := x];
    forall d | d in decisions
      ensures DecisionAt(decisions[d], d, pumps, Linking(id), pact.mates)
    {
      if d != id {
        assert DecisionAt(pact.decisions[d], d, pumps, pact.phase, pact.mates);
      }
    }
  }

  lemma AdmitKeepsSys(s: Sys, e: EndpointId, now: int, id: DecisionId)
    requires SysInv(s) && s.pact.phase.Free? && id !in s.pact.decisions && e in s.pumps && s.t.tombs.clock <= now
    requires s.pumps[e].terminal || e in s.t.staging.upgrades
    ensures SysInv(AdmitStep(s, e, now, id))
  {
    hide TableInv, MatesInv, PumpsInv, PactInv, Succeeds, Admit;
    var s' := AdmitStep(s, e, now, id);
    FreePhase(s);
    AdmitKeeps(s.t, e, s.pumps[e].terminal, now);
    AdmitSucceeds(s.t, e, s.pumps[e].terminal, now);
    MatesKeep(s.t, s'.t, s.pact.mates);
    assert AllFlagged(s.pumps, s'.pumps);
    FlagsKeep(s.pumps, s'.pumps, s.pact.decisions, s.pact.mates);
    var out := Admit(s.t, e, s.pumps[e].terminal, now).1;
    if out.Paired? {
      FreePact(s.t, s.t, s.pumps, s'.pumps, s.pact);
      LinkingPact(s.t, s'.t, s'.pumps, s.pact, id, Decision(s.t.staging.info[e].rid, e, out.other, Undecided));
      PumpsExtend(s'.pumps, s.pact.decisions, s'.pact.decisions, s.pact.mates, s.pact.mates);
    } else {
      FreePact(s.t, s'.t, s.pumps, s'.pumps, s.pact);
    }
  }

  // ---------- every step, every run ----------

  lemma SysStep(s: Sys, l: SysLabel)
    requires SysInv(s) && Can(s, l)
    ensures SysInv(Do(s, l))
  {
    hide SysInv;
    match l
    case Registry(k, id) =>
      if k.DoAdmit? {
        AdmitEntry(s, k, id);
      } else {
        PlainStepKeeps(s, k, id);
      }
    case Local(e, k) => LocalKeeps(s, e, k);
    case QueueCurrent(ok) => QueueCurrentKeeps(s, ok);
    case QueuePeer(ok) => QueuePeerKeeps(s, ok);
    case Activate => ActivateKeeps(s, s.pact.phase.d);
    case ResolveCommit => ResolveKeeps(s, Committed);
    case RollBack => RollBackKeeps(s);
    case ResolveAbort => ResolveKeeps(s, Aborted);
    case Forward(e, payload) => ForwardKeeps(s, e, payload);
  }

  lemma AdmitEntry(s: Sys, k: TableLabel, id: DecisionId)
    requires SysInv(s) && Can(s, Registry(k, id)) && k.DoAdmit?
    ensures SysInv(Do(s, Registry(k, id)))
  {
    hide SysInv;
    AdmitKeepsSys(s, k.e, k.now, id);
  }

  ghost predicate IsRun(max: nat, states: seq<Sys>, labels: seq<SysLabel>) {
    && |states| == |labels| + 1
    && states[0] == Start(max)
    && forall i | 0 <= i < |labels| :: Can(states[i], labels[i]) && states[i + 1] == Do(states[i], labels[i])
  }

  lemma StartInv(max: nat)
    ensures SysInv(Start(max))
  {
    InitialTable(max);
  }

  lemma {:induction false} ReachableSystems(max: nat, states: seq<Sys>, labels: seq<SysLabel>, n: nat)
    requires IsRun(max, states, labels) && n <= |labels|
    ensures SysInv(states[n])
  {
    hide SysInv, Can, Do;
    if n == 0 {
      StartInv(max);
    } else {
      ReachableSystems(max, states, labels, n - 1);
      SysStep(states[n - 1], labels[n - 1]);
    }
  }
}
