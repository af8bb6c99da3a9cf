/** No endpoint lingers: once admitted, an endpoint holds its role slot or is terminal. */
module RelayDataDetachment {
  import opened Options
  import opened RelayDataTable
  import opened RelayDataAccounting
  import opened RelayDataInvariants
  import RelayDataRuns
  import opened RelayDataPumps
  import opened RelayDataPairing

  /** The endpoint fills a role slot of its reservation. */
  predicate Holds(t: Table, e: EndpointId) {
    e in t.staging.info && t.staging.info[e].rid in t.core.pairs && e in Members(t.core.pairs[t.staging.info[e].rid])
  }

  predicate HeldOrTerminal(s: Sys, e: EndpointId) { e in s.pumps && (Holds(s.t, e) || s.pumps[e].terminal) }

  /** Two members of one pair are linked. */
  lemma PartnerLinked(c: Core, g: Staging, r: ReservationId, x: EndpointId, e: EndpointId)
    requires CoreOk(c, g) && r in c.pairs && {x, e} <= Members(c.pairs[r]) && x != e
    ensures x in c.peer && c.peer[x] == e
  {
    hide Counted;
    assert PlacedAt(c.pairs[r], r, c.refs, g);
    assert x in Members(c.pairs[r]) && e in Members(c.pairs[r]);
    assert LinkOf(c.peer, x) == PartnerOf(c.pairs, g.info, x);
  }

  /** Closing endpoints takes a slot only from them and their counterparts. */
  lemma CloseHolds(t: Table, leaseOrder: seq<LeaseId>, order: seq<EndpointId>, e: EndpointId)
    requires CoreOk(t.core, t.staging) && t.core.pairing.None? && (forall x | x in order :: x in t.staging.info) && Holds(t, e)
    ensures Holds(CloseEndpoints(t, leaseOrder, order), e) || e in WithPeers(t.core, set x | x in order)
  {
    hide CoreOk;
    RelayDataRuns.ReleaseAllRemoves(t.core, t.staging, order);
    var r := t.staging.info[e].rid;
    if x :| x in order && x in Members(t.core.pairs[r]) {
      if x != e {
        PartnerLinked(t.core, t.staging, r, x, e);
      }
    }
  }

  lemma ReleaseHolds(t: Table, x: EndpointId, e: EndpointId)
    requires CoreOk(t.core, t.staging) && t.core.pairing.None? && x in t.staging.info && Holds(t, e)
    ensures Holds(Release(t, x), e) || e in WithPeers(t.core, {x})
  {
    hide CoreOk;
    CloseHolds(t, [], [x], e);
    assert (set y | y in [x]) == {x};
    assert [x][1..] == [];
    assert ReleaseAllCore(t.core, t.staging.info, [x]) == ReleaseAllCore(ReleaseCore(t.core, x, t.staging.info[x].rid), t.staging.info, []);
  }

  /** Admission displaces exactly whom it reports, and gives the admitted endpoint its slot. */
  lemma AdmitHolds(t: Table, x: EndpointId, terminal: bool, now: int, e: EndpointId)
    requires x in t.staging.info
    ensures var (t', out) := Admit(t, x, terminal, now);
      && (Holds(t, e) ==> Holds(t', e) || (out.Waiting? && e in out.displaced))
      && (!out.Rejected? ==> Holds(t', x))
  {
    hide Swept, Blocked, AdmitInto, Holds;
    var info := t.staging.info[x];
    var t1 := t.(staging := RemoveUpgrade(t.staging, x), tombs := ForgetOwn(t.tombs, info.rid, now));
    SameSlots(t, t1, e);
    SameSlots(t, t.(staging := RemoveUpgrade(t.staging, x), tombs := t.tombs.(clock := now)), e);
    if info.role.Some? {
      AdmitIntoHolds(t1, x, info.role.value, now, e);
    }
  }

  lemma SameSlots(t: Table, t': Table, e: EndpointId)
    requires t'.core.pairs == t.core.pairs && t'.staging.info == t.staging.info
    ensures Holds(t', e) <==> Holds(t, e)
  {
  }

  lemma FillMembers(p: Pair, role: Role, x: EndpointId)
    ensures x in Members(Fill(p, role, x))
    ensures Members(p) <= Members(Fill(p, role, x)) + Single(Slot(p, role))
  {
  }

  lemma AdmitIntoHolds(t: Table, x: EndpointId, role: Role, now: int, e: EndpointId)
    requires x in t.staging.info
    ensures var (t', out) := AdmitInto(t, x, t.staging.info[x].rid, role, now);
      && (Holds(t, e) ==> Holds(t', e) || (out.Waiting? && e in out.displaced))
      && (!out.Rejected? ==> Holds(t', x))
  {
    hide Swept, Fill, Members;
    var rid := t.staging.info[x].rid;
    FillMembers(EMPTY_PAIR, role, x);
    FillMembers(EMPTY_PAIR.(replacementPending := true), role, x);
    if rid in t.core.pairs {
      FillMembers(t.core.pairs[rid], role, x);
    }
  }

  lemma RollBackHolds(t: Table, e: EndpointId)
    requires CoreOk(t.core, t.staging) && t.core.pairing.Some? && Holds(t, e)
    ensures Holds(t.(core := AbortCore(t.core)), e) || e in {t.core.pairing.value.current, t.core.pairing.value.other}
  {
  }

  lemma CommitHolds(t: Table, e: EndpointId)
    requires t.core.pairing.Some? && t.core.pairing.value.rid in t.core.pairs && Holds(t, e)
    ensures Holds(Commit(t), e)
  {
  }

  lemma PlainHolds(s: Sys, k: TableLabel, id: DecisionId, e: EndpointId)
    requires SysInv(s) && Can(s, Registry(k, id)) && !k.DoAdmit? && HeldOrTerminal(s, e)
    ensures HeldOrTerminal(RegistryStep(s, k, id), e)
  {
    hide CoreOk, PumpsInv, PactInv, MatesInv, RelayDataRuns.TombsExact, SlotsExact;
    hide ReleaseCore, ReleaseAllCore, WithPeers, Enumerates, Targets, OwnedLeases;
    FreePhase(s);
    if Holds(s.t, e) {
      if k.DoRelease? {
        ReleaseHolds(s.t, k.e, e);
      } else if k.DoCloseDevice? {
        CloseHolds(s.t, k.leaseOrder, k.order, e);
      } else if k.DoCloseAll? {
        CloseHolds(s.t, k.leaseOrder, k.order, e);
        ClosedFlagIrrelevant(s.t, k.leaseOrder, k.order, e);
      }
    }
  }

  lemma ClosedFlagIrrelevant(t: Table, leaseOrder: seq<LeaseId>, order: seq<EndpointId>, e: EndpointId)
    requires forall x | x in order :: x in t.staging.info
    ensures Holds(CloseEndpoints(t.(staging := t.staging.(closed := true)), leaseOrder, order), e)
       <==> Holds(CloseEndpoints(t, leaseOrder, order), e)
  {
  }

  lemma AdmissionHolds(s: Sys, x: EndpointId, now: int, id: DecisionId, e: EndpointId)
    requires SysInv(s) && s.pact.phase.Free? && x in s.pumps && HeldOrTerminal(s, e)
    ensures HeldOrTerminal(AdmitStep(s, x, now, id), e)
  {
    hide CoreOk, PumpsInv, PactInv, MatesInv, RelayDataRuns.TombsExact, SlotsExact, Admit, Holds;
    FreePhase(s);
    AdmitHolds(s.t, x, s.pumps[x].terminal, now, e);
  }

  lemma PairingHolds(s: Sys, l: SysLabel, e: EndpointId)
    requires SysInv(s) && Can(s, l) && !l.Registry? && HeldOrTerminal(s, e)
    ensures HeldOrTerminal(Do(s, l), e)
  {
    hide CoreOk, PumpsInv, MatesInv, DecisionsInv, MatedReady, RelayDataRuns.TombsExact, SlotsExact, Commit, AbortCore, Holds, ForwardTo;
    if Holds(s.t, e) {
      if l.Activate? {
        CommitHolds(s.t, e);
      } else if l.RollBack? {
        RollBackHolds(s.t, e);
      }
    }
  }

  lemma StepHolds(s: Sys, l: SysLabel, e: EndpointId)
    requires SysInv(s) && Can(s, l) && HeldOrTerminal(s, e)
    ensures HeldOrTerminal(Do(s, l), e)
  {
    hide SysInv, HeldOrTerminal, RegistryStep, AdmitStep;
    if !l.Registry? {
      PairingHolds(s, l, e);
    } else if l.step.DoAdmit? {
      AdmissionHolds(s, l.step.e, l.step.now, l.id, e);
      AdmitIsStep(s, l.step, l.id);
    } else {
      PlainHolds(s, l.step, l.id, e);
    }
  }

  lemma AdmitIsStep(s: Sys, k: TableLabel, id: DecisionId)
    requires Can(s, Registry(k, id)) && k.DoAdmit?
    ensures RegistryStep(s, k, id) == AdmitStep(s, k.e, k.now, id)
  {
    hide AdmitStep;
  }

  /** Step `i` admitted endpoint `e` to a role slot. */
  ghost predicate Admitted(s: Sys, l: SysLabel, e: EndpointId) {
    && l.Registry? && l.step.DoAdmit? && l.step.e == e && Can(s, l)
    && !Admit(s.t, e, l.step.terminal, l.step.now).1.Rejected?
  }

  /** In every run an endpoint that was admitted and no longer fills its role slot, whether it was
      displaced, its counterpart left, its pairing was rolled back or its device was closed, is terminal. */
  lemma {:induction false} DetachedIsTerminal(max: nat, states: seq<Sys>, labels: seq<SysLabel>, i: nat, n: nat, e: EndpointId)
    requires IsRun(max, states, labels) && i < n <= |labels| && Admitted(states[i], labels[i], e)
    ensures HeldOrTerminal(states[n], e)
  {
    hide SysInv, Can, Do, HeldOrTerminal;
    if n == i + 1 {
      ReachableSystems(max, states, labels, i);
      JustAdmitted(states[i], labels[i], e);
    } else {
      DetachedIsTerminal(max, states, labels, i, n - 1, e);
      ReachableSystems(max, states, labels, n - 1);
      StepHolds(states[n - 1], labels[n - 1], e);
    }
  }

  lemma JustAdmitted(s: Sys, l: SysLabel, e: EndpointId)
    requires SysInv(s) && Admitted(s, l, e)
    ensures HeldOrTerminal(Do(s, l), e)
  {
    hide CoreOk, PumpsInv, PactInv, MatesInv, RelayDataRuns.TombsExact, SlotsExact, Admit, Holds;
    FreePhase(s);
    AdmitHolds(s.t, e, s.pumps[e].terminal, l.step.now, e);
  }
}
