/** A whole reconciliation sweep: exactly which sockets it closes and which it leaves, device by
    device, whatever order it visits the devices in. */
module ReconcileSweep {
  import opened Options
  import opened Cutoffs
  import H = HubProtocol
  import I = HubInvariants
  import D = RelayDataTable
  import opened RelayDataAccounting
  import opened RelayDataInvariants
  import R = RelayDataRuns
  import opened DeviceEvents

  /** The store has answered for the device, and the socket is older than the answer. */
  predicate Stale(answers: map<DeviceId, Read>, device: DeviceId, generation: int) {
    device in answers && !answers[device].Failed? && Older(generation, ReconcileCutoff(answers[device]))
  }

  predicate Gone(seen: set<DeviceId>, answers: map<DeviceId, Read>, device: DeviceId, generation: int) {
    device in seen && Stale(answers, device, generation)
  }

  /** The endpoint, or the counterpart it is linked to, is stale. */
  predicate Hit(t: D.Table, e: D.EndpointId, seen: set<DeviceId>, answers: map<DeviceId, Read>) {
    || (e in t.staging.info && Gone(seen, answers, t.staging.info[e].device, t.staging.info[e].generation))
    || (e in t.core.peer && t.core.peer[e] in t.staging.info
        && Gone(seen, answers, t.staging.info[t.core.peer[e]].device, t.staging.info[t.core.peer[e]].generation))
  }

  /** Of the control sockets in a table exactly the stale ones of the visited devices are gone. */
  ghost predicate PeersSwept(peers0: map<DeviceId, H.Peer>, peers: map<DeviceId, H.Peer>, seen: set<DeviceId>, answers: map<DeviceId, Read>) {
    forall d :: (d in peers <==> d in peers0 && !Gone(seen, answers, d, peers0[d].generation)) && (d in peers ==> peers[d] == peers0[d])
  }

  ghost predicate LeasesSwept(g0: D.Staging, g: D.Staging, seen: set<DeviceId>, answers: map<DeviceId, Read>) {
    forall x :: (x in g.leases <==> x in g0.leases && !Gone(seen, answers, g0.leases[x].device, g0.leases[x].generation))
                && (x in g.leases ==> g.leases[x] == g0.leases[x])
  }

  ghost predicate EndpointsSwept(t0: D.Table, t: D.Table, seen: set<DeviceId>, answers: map<DeviceId, Read>) {
    && t.staging.info == t0.staging.info
    && (forall e :: e in t.core.refs <==> e in t0.core.refs && !Hit(t0, e, seen, answers))
    && (forall e :: e in t.staging.upgrades <==> e in t0.staging.upgrades && !Hit(t0, e, seen, answers))
  }

  ghost predicate LinksKept(t0: D.Table, t: D.Table) {
    forall e | e in t.core.refs :: LinkOf(t.core.peer, e) == LinkOf(t0.core.peer, e)
  }

  /** Exactly the stale control sockets and leases of the visited devices are gone, and exactly the
      endpoints that are stale or linked to a stale counterpart. */
  ghost predicate SweptExactly(h0: H.HubState, t0: D.Table, h: H.HubState, t: D.Table, seen: set<DeviceId>, answers: map<DeviceId, Read>) {
    && PeersSwept(h0.peers, h.peers, seen, answers) && PeersSwept(h0.pending, h.pending, seen, answers)
    && LeasesSwept(t0.staging, t.staging, seen, answers) && EndpointsSwept(t0, t, seen, answers) && LinksKept(t0, t)
  }

  lemma NothingSwept(h: H.HubState, t: D.Table, answers: map<DeviceId, Read>)
    ensures SweptExactly(h, t, h, t, {}, answers)
  {
  }

  /** A device whose read failed is left alone. */
  lemma SkipFailed(h0: H.HubState, t0: D.Table, h: H.HubState, t: D.Table, seen: set<DeviceId>, answers: map<DeviceId, Read>, d: DeviceId)
    requires SweptExactly(h0, t0, h, t, seen, answers) && d in answers && answers[d].Failed?
    ensures SweptExactly(h0, t0, h, t, seen + {d}, answers)
  {
    assert forall x: DeviceId, g: int :: Gone(seen + {d}, answers, x, g) == Gone(seen, answers, x, g);
    assert forall e :: Hit(t0, e, seen + {d}, answers) == Hit(t0, e, seen, answers);
  }

  // ---------- one more device ----------

  lemma PeersVisit(peers0: map<DeviceId, H.Peer>, peers: map<DeviceId, H.Peer>, peers': map<DeviceId, H.Peer>, seen: set<DeviceId>,
                   answers: map<DeviceId, Read>, device: DeviceId)
    requires PeersSwept(peers0, peers, seen, answers) && device in answers && !answers[device].Failed?
    requires forall d :: d in peers' <==> d in peers && !(d == device && Older(peers[d].generation, ReconcileCutoff(answers[device])))
    requires forall d | d in peers' :: peers'[d] == peers[d]
    ensures PeersSwept(peers0, peers', seen + {device}, answers)
  {
  }

  lemma LeasesVisit(t0: D.Table, t: D.Table, l: D.TableLabel, seen: set<DeviceId>, answers: map<DeviceId, Read>)
    requires R.TableInv(t) && D.Enabled(t, l) && l.DoCloseDevice? && LeasesSwept(t0.staging, t.staging, seen, answers)
    requires l.device in answers && !answers[l.device].Failed? && l.cutoff == ReconcileCutoff(answers[l.device])
    ensures LeasesSwept(t0.staging, D.Step(t, l).staging, seen + {l.device}, answers)
  {
    hide R.TableInv, D.Step, D.Targets;
    StagingAfterClose(t, l);
    assert forall x :: x in l.leaseOrder <==> x in D.OwnedLeases(t.staging, l.device, l.cutoff);
  }

  /** Targets are closed under links, so what survives keeps its link. */
  lemma TargetOrLinked(t: D.Table, device: DeviceId, cutoff: int, e: D.EndpointId)
    requires R.TableInv(t) && e in t.core.refs + t.staging.upgrades
    ensures e in D.Targets(t, device, cutoff) <==>
      || e in D.Owned(t, device, cutoff)
      || (e in t.core.peer && t.core.peer[e] in D.Owned(t, device, cutoff))
  {
    hide R.TableInv;
    forall x | x in t.core.peer
      ensures t.core.peer[x] in t.core.peer && t.core.peer[t.core.peer[x]] == x && x in t.core.refs
    {
      LinkFacts(t, x);
    }
  }

  lemma LinkFacts(t: D.Table, x: D.EndpointId)
    requires R.TableInv(t) && x in t.core.peer
    ensures t.core.peer[x] in t.core.peer && t.core.peer[t.core.peer[x]] == x
    ensures x in t.core.refs && t.core.peer[x] in t.core.refs && x in t.staging.info && t.core.peer[x] in t.staging.info
  {
    hide CoreInv, PairingNamed, R.TombsExact, SlotsExact;
    LinksAreMutual(t.core, t.staging, x);
    assert LinkOf(t.core.peer, x) == PartnerOf(t.core.pairs, t.staging.info, x);
    assert PlacedAt(t.core.pairs[t.staging.info[x].rid], t.staging.info[x].rid, t.core.refs, t.staging);
  }

  lemma OwnedIsGone(t: D.Table, device: DeviceId, answers: map<DeviceId, Read>, e: D.EndpointId)
    requires device in answers && !answers[device].Failed? && e in t.core.refs + t.staging.upgrades && e in t.staging.info
    ensures e in D.Owned(t, device, ReconcileCutoff(answers[device])) <==>
      Gone({device}, answers, t.staging.info[e].device, t.staging.info[e].generation)
  {
  }

  /** For an endpoint still there, being a target of this visit is being hit by this device. */
  lemma VisitHits(t0: D.Table, t: D.Table, device: DeviceId, seen: set<DeviceId>, answers: map<DeviceId, Read>, e: D.EndpointId)
    requires R.TableInv(t0) && R.TableInv(t) && EndpointsSwept(t0, t, seen, answers) && LinksKept(t0, t)
    requires device in answers && !answers[device].Failed? && e in t.core.refs + t.staging.upgrades
    ensures e in D.Targets(t, device, ReconcileCutoff(answers[device])) <==> Hit(t0, e, {device}, answers)
  {
    hide R.TableInv, D.Targets, D.Owned, Gone;
    TargetOrLinked(t, device, ReconcileCutoff(answers[device]), e);
    Known(t, e);
    OwnedIsGone(t, device, answers, e);
    if e in t.core.peer {
      LinkFacts(t, e);
      OwnedIsGone(t, device, answers, t.core.peer[e]);
    }
    if e in t0.core.peer {
      LinkFacts(t0, e);
    }
    Apart(t0, e);
    if e in t.core.refs {
      assert LinkOf(t.core.peer, e) == LinkOf(t0.core.peer, e);
    }
  }

  lemma Known(t: D.Table, e: D.EndpointId)
    requires R.TableInv(t) && e in t.core.refs + t.staging.upgrades
    ensures e in t.staging.info
  {
  }

  /** Endpoints that are not admitted have no link. */
  lemma Apart(t: D.Table, e: D.EndpointId)
    requires R.TableInv(t)
    ensures e in t.staging.upgrades ==> e !in t.core.refs
  {
  }

  lemma HitGrows(t0: D.Table, e: D.EndpointId, seen: set<DeviceId>, d: DeviceId, answers: map<DeviceId, Read>)
    ensures Hit(t0, e, seen + {d}, answers) <==> Hit(t0, e, seen, answers) || Hit(t0, e, {d}, answers)
  {
  }

  lemma EndpointsVisit(t0: D.Table, t: D.Table, l: D.TableLabel, seen: set<DeviceId>, answers: map<DeviceId, Read>)
    requires R.TableInv(t0) && R.TableInv(t) && D.Enabled(t, l) && l.DoCloseDevice? && EndpointsSwept(t0, t, seen, answers) && LinksKept(t0, t)
    requires l.device in answers && !answers[l.device].Failed? && l.cutoff == ReconcileCutoff(answers[l.device])
    ensures EndpointsSwept(t0, D.Step(t, l), seen + {l.device}, answers)
  {
    hide R.TableInv, D.Step, D.Targets, Hit, D.OwnedLeases;
    StagingAfterClose(t, l);
    forall e
      ensures Hit(t0, e, seen + {l.device}, answers) <==> Hit(t0, e, seen, answers) || Hit(t0, e, {l.device}, answers)
      ensures e in t.core.refs + t.staging.upgrades ==> (e in l.order <==> Hit(t0, e, {l.device}, answers))
    {
      HitGrows(t0, e, seen, l.device, answers);
      if e in t.core.refs + t.staging.upgrades {
        VisitHits(t0, t, l.device, seen, answers, e);
      }
    }
  }

  lemma LinksVisit(t0: D.Table, t: D.Table, l: D.TableLabel)
    requires R.TableInv(t) && D.Enabled(t, l) && l.DoCloseDevice? && LinksKept(t0, t)
    ensures LinksKept(t0, D.Step(t, l))
  {
    hide R.TableInv, D.Step, D.Targets, D.OwnedLeases;
    StagingAfterClose(t, l);
    forall e | e in D.Step(t, l).core.refs
      ensures LinkOf(D.Step(t, l).core.peer, e) == LinkOf(t0.core.peer, e)
    {
      SurvivorKeepsLink(t, l, e);
    }
  }

  lemma SurvivorKeepsLink(t: D.Table, l: D.TableLabel, e: D.EndpointId)
    requires R.TableInv(t) && D.Enabled(t, l) && l.DoCloseDevice? && e in t.core.refs && e !in l.order
    ensures LinkOf(D.Step(t, l).core.peer, e) == LinkOf(t.core.peer, e)
  {
    var t' := D.Step(t, l);
    R.TableStep(t, l);
    StagingAfterClose(t, l);
    assert e !in D.Targets(t, l.device, l.cutoff);
    TargetOrLinked(t, l.device, l.cutoff, e);
    if e in t.core.peer {
      LinkFacts(t, e);
      TargetOrLinked(t, l.device, l.cutoff, t.core.peer[e]);
      assert t.core.peer[e] !in D.Targets(t, l.device, l.cutoff);
    }
    SamePair(t, l, e);
    LinkOfPair(t, e);
    LinkOfPair(t', e);
  }

  lemma LinkOfPair(t: D.Table, e: D.EndpointId)
    requires R.TableInv(t)
    ensures LinkOf(t.core.peer, e) == PartnerOf(t.core.pairs, t.staging.info, e)
  {
  }

  /** If neither the endpoint nor its counterpart is closed, its partner stays the same. */
  lemma SamePair(t: D.Table, l: D.TableLabel, e: D.EndpointId)
    requires R.TableInv(t) && D.Enabled(t, l) && l.DoCloseDevice? && e !in l.order
    requires e in t.core.peer ==> t.core.peer[e] !in l.order
    ensures D.Step(t, l).staging.info == t.staging.info
    ensures PartnerOf(D.Step(t, l).core.pairs, t.staging.info, e) == PartnerOf(t.core.pairs, t.staging.info, e)
  {
    hide CoreInv, Placed, PairingNamed, R.TombsExact, D.Enumerates, D.Targets, D.OwnedLeases;
    StagingAfterClose(t, l);
    R.ReleaseAllRemoves(t.core, t.staging, l.order);
    LinkOfPair(t, e);
    PartnersOnly(t, e);
  }

  /** A full pair has no members but an endpoint and its partner. */
  lemma PartnersOnly(t: D.Table, e: D.EndpointId)
    ensures var q := PartnerOf(t.core.pairs, t.staging.info, e);
      q.Some? ==> D.Members(t.core.pairs[t.staging.info[e].rid]) == {e, q.value}
  {
  }

  /** Visiting one more device closes exactly what is stale of it and its linked counterparts. */
  lemma Visit(h0: H.HubState, t0: D.Table, h: H.HubState, t: D.Table, l: D.TableLabel, seen: set<DeviceId>, answers: map<DeviceId, Read>)
    requires I.HubInv(h) && R.TableInv(t0) && R.TableInv(t) && D.Enabled(t, l) && l.DoCloseDevice?
    requires SweptExactly(h0, t0, h, t, seen, answers)
    requires l.device in answers && !answers[l.device].Failed? && l.cutoff == ReconcileCutoff(answers[l.device])
    ensures SweptExactly(h0, t0, H.DisconnectBeforeStep(h, l.device, l.cutoff), D.Step(t, l), seen + {l.device}, answers)
  {
    hide I.HubInv, R.TableInv, D.Enabled, D.Step, H.DisconnectBeforeStep, PeersSwept, LeasesSwept, EndpointsSwept, LinksKept;
    var h' := H.DisconnectBeforeStep(h, l.device, l.cutoff);
    HubSocketsAfterClose(h, l.device, l.cutoff);
    PeersVisit(h0.peers, h.peers, h'.peers, seen, answers, l.device);
    PeersVisit(h0.pending, h.pending, h'.pending, seen, answers, l.device);
    LeasesVisit(t0, t, l, seen, answers);
    EndpointsVisit(t0, t, l, seen, answers);
    LinksVisit(t0, t, l);
  }

  // ---------- what a sweep means ----------

  /** After every local device was visited no socket older than a successful answer is left. */
  lemma SweptLeavesNoneOlder(h0: H.HubState, t0: D.Table, h: H.HubState, t: D.Table, answers: map<DeviceId, Read>, d: DeviceId)
    requires SweptExactly(h0, t0, h, t, LocalDevices(h0, t0), answers) && d in answers && !answers[d].Failed?
    ensures NoneOlder(h, t, d, ReconcileCutoff(answers[d]))
  {
    forall e | e in Endpoints(t, d)
      ensures !Older(t.staging.info[e].generation, ReconcileCutoff(answers[d]))
    {
      assert e in t0.core.refs + t0.staging.upgrades && !Hit(t0, e, LocalDevices(h0, t0), answers);
      assert t0.staging.info[e].device in LocalDevices(h0, t0);
    }
    forall x | x in LeasesOf(t, d)
      ensures !Older(t.staging.leases[x].generation, ReconcileCutoff(answers[d]))
    {
      assert x in t0.staging.leases && t0.staging.leases[x].device in LocalDevices(h0, t0);
    }
  }

  /** No socket is older than the successful answer for its device. */
  ghost predicate NoneStale(h: H.HubState, t: D.Table, answers: map<DeviceId, Read>) {
    forall d | d in answers && !answers[d].Failed? :: NoneOlder(h, t, d, ReconcileCutoff(answers[d]))
  }

  lemma SweptLeavesNoneStale(h0: H.HubState, t0: D.Table, h: H.HubState, t: D.Table, answers: map<DeviceId, Read>)
    requires SweptExactly(h0, t0, h, t, LocalDevices(h0, t0), answers)
    ensures NoneStale(h, t, answers)
  {
    hide NoneOlder, SweptExactly;
    forall d | d in answers && !answers[d].Failed?
      ensures NoneOlder(h, t, d, ReconcileCutoff(answers[d]))
    {
      SweptLeavesNoneOlder(h0, t0, h, t, answers, d);
    }
  }

  /** A device whose read failed, or that was not reached, loses no control socket and no lease. */
  lemma UnansweredKeepsControl(h0: H.HubState, t0: D.Table, h: H.HubState, t: D.Table, seen: set<DeviceId>, answers: map<DeviceId, Read>, d: DeviceId)
    requires SweptExactly(h0, t0, h, t, seen, answers) && (d !in seen || d !in answers || answers[d].Failed?)
    ensures (d in h.peers <==> d in h0.peers) && (d in h.pending <==> d in h0.pending) && LeasesOf(t, d) == LeasesOf(t0, d)
  {
  }
}
