/** What every registry step keeps besides the counters: mutual peer links and tombstones that
    outlast the replay window. Together with the accounting this is the invariant of every run. */
module RelayDataInvariants {
  import opened Options
  import opened RelayDataTable
  import opened RelayDataAccounting

  // ---------- links ----------

  function Partner(p: Pair, e: EndpointId): Option<EndpointId> {
    if !Full(p) then None
    else if p.initiator == Some(e) then p.responder
    else if p.responder == Some(e) then p.initiator
    else None
  }

  /** The counterpart an endpoint should be linked to: the other member of its full pair. */
  function PartnerOf(pairs: Pairs, info: map<EndpointId, Info>, e: EndpointId): Option<EndpointId> {
    if e in info && info[e].rid in pairs then Partner(pairs[info[e].rid], e) else None
  }

  function LinkOf(peer: map<EndpointId, EndpointId>, e: EndpointId): Option<EndpointId> {
    if e in peer then Some(peer[e]) else None
  }

  ghost predicate Linked(c: Core, info: map<EndpointId, Info>) {
    forall e: EndpointId :: LinkOf(c.peer, e) == PartnerOf(c.pairs, info, e)
  }

  /** The pair being paired consists of the two endpoints the mutex holder names. */
  predicate PairingNamed(c: Core) {
    c.pairing.Some? ==>
      && c.pairing.value.rid in c.pairs
      && Members(c.pairs[c.pairing.value.rid]) == {c.pairing.value.current, c.pairing.value.other}
  }

  /** Exactly the links of `gone` are cut when the pair of one reservation changes to a half pair
      or disappears, and `gone` covers its members. */
  lemma CutLinks(c: Core, c': Core, g: Staging, rid: ReservationId, gone: set<EndpointId>)
    requires Linked(c, g.info) && Placed(c, g)
    requires c'.pairs - {rid} == c.pairs - {rid} && (rid in c'.pairs ==> !Full(c'.pairs[rid]))
    requires c'.peer == c.peer - gone
    requires rid in c.pairs && Full(c.pairs[rid]) ==> Members(c.pairs[rid]) <= gone
    requires forall e | e in gone && e in g.info :: g.info[e].rid == rid || LinkOf(c.peer, e) == None
    ensures Linked(c', g.info)
  {
    forall e: EndpointId
      ensures LinkOf(c'.peer, e) == PartnerOf(c'.pairs, g.info, e)
    {
      assert LinkOf(c.peer, e) == PartnerOf(c.pairs, g.info, e);
      if e in g.info && g.info[e].rid != rid {
        assert g.info[e].rid in c.pairs <==> g.info[e].rid in c.pairs - {rid};
        assert g.info[e].rid in c'.pairs <==> g.info[e].rid in c'.pairs - {rid};
      }
    }
  }

  lemma PairUpLinked(c: Core, g: Staging, rid: ReservationId, role: Role, e: EndpointId, now: int)
    requires Linked(c, g.info) && Placed(c, g) && Admissible(g, e, rid, role)
    requires rid in c.pairs && Slot(c.pairs[rid], role).None? && Other(c.pairs[rid], role).Some?
    ensures Linked(PairUp(c, rid, role, e, now), g.info)
    ensures PairingNamed(PairUp(c, rid, role, e, now))
  {
    var c' := PairUp(c, rid, role, e, now);
    forall x: EndpointId
      ensures LinkOf(c'.peer, x) == PartnerOf(c'.pairs, g.info, x)
    {
      assert LinkOf(c.peer, x) == PartnerOf(c.pairs, g.info, x);
    }
  }

  /** Linked endpoints point at each other. */
  lemma LinksAreMutual(c: Core, g: Staging, e: EndpointId)
    requires Linked(c, g.info) && Placed(c, g) && e in c.peer
    ensures c.peer[e] in c.peer && c.peer[c.peer[e]] == e && c.peer[e] != e
    ensures c.peer[e] in g.info && e in g.info && g.info[c.peer[e]].rid == g.info[e].rid
  {
    assert LinkOf(c.peer, e) == PartnerOf(c.pairs, g.info, e);
    var f := c.peer[e];
    assert PlacedAt(c.pairs[g.info[e].rid], g.info[e].rid, c.refs, g);
    assert LinkOf(c.peer, f) == PartnerOf(c.pairs, g.info, f);
  }

  // ---------- the core as a whole ----------

  ghost predicate CoreOk(c: Core, g: Staging) {
    CoreInv(c, g.max) && Placed(c, g) && Linked(c, g.info) && PairingNamed(c)
  }

  lemma OpenPairOk(c: Core, g: Staging, rid: ReservationId, role: Role, e: EndpointId)
    requires CoreOk(c, g) && c.pairing.None? && rid !in c.pairs && c.pending < g.max && Admissible(g, e, rid, role)
    ensures CoreOk(OpenPair(c, rid, role, e), g)
  {
    OpenPairKeeps(c, g.max, rid, role, e);
    OpenPairPlaced(c, g, rid, role, e);
    assert OpenPair(c, rid, role, e).pairs - {rid} == c.pairs - {rid};
    CutLinks(c, OpenPair(c, rid, role, e), g, rid, {});
  }

  lemma ReplaceWaitingOk(c: Core, g: Staging, rid: ReservationId, role: Role, e: EndpointId)
    requires CoreOk(c, g) && c.pairing.None? && Admissible(g, e, rid, role)
    requires rid in c.pairs && Slot(c.pairs[rid], role).Some? && !c.pairs[rid].active
    ensures CoreOk(ReplaceWaiting(c, rid, role, e), g)
  {
    assert WellShaped(c.pairs[rid], false) && PlacedAt(c.pairs[rid], rid, c.refs, g);
    ReplaceWaitingKeeps(c, g.max, rid, role, e);
    ReplaceWaitingPlaced(c, g, rid, role, e);
    assert ReplaceWaiting(c, rid, role, e).pairs - {rid} == c.pairs - {rid};
    CutLinks(c, ReplaceWaiting(c, rid, role, e), g, rid, {Slot(c.pairs[rid], role).value});
  }

  lemma ReplaceActiveOk(c: Core, g: Staging, rid: ReservationId, role: Role, e: EndpointId)
    requires CoreOk(c, g) && c.pairing.None? && Admissible(g, e, rid, role)
    requires rid in c.pairs && c.pairs[rid].active
    ensures CoreOk(ReplaceActive(c, rid, role, e), g)
  {
    assert PlacedAt(c.pairs[rid], rid, c.refs, g);
    ReplaceActiveKeeps(c, g.max, rid, role, e);
    ReplaceActivePlaced(c, g, rid, role, e);
    assert ReplaceActive(c, rid, role, e).pairs - {rid} == c.pairs - {rid};
    CutLinks(c, ReplaceActive(c, rid, role, e), g, rid, Members(c.pairs[rid]));
  }

  lemma PairUpOk(c: Core, g: Staging, rid: ReservationId, role: Role, e: EndpointId, now: int)
    requires CoreOk(c, g) && c.pairing.None? && c.active < g.max && Admissible(g, e, rid, role)
    requires rid in c.pairs && Slot(c.pairs[rid], role).None? && Other(c.pairs[rid], role).Some?
    ensures CoreOk(PairUp(c, rid, role, e, now), g)
  {
    PairUpKeeps(c, g.max, rid, role, e, now);
    PairUpPlaced(c, g, rid, role, e, now);
    PairUpLinked(c, g, rid, role, e, now);
  }

  lemma CommitOk(c: Core, g: Staging)
    requires CoreOk(c, g) && c.pairing.Some?
    ensures CoreOk(CommitCore(c), g)
  {
    CommitKeeps(c, g.max);
    var c', rid := CommitCore(c), c.pairing.value.rid;
    assert PlacedAt(c.pairs[rid], rid, c.refs, g);
    forall e: EndpointId
      ensures LinkOf(c'.peer, e) == PartnerOf(c'.pairs, g.info, e)
    {
      assert LinkOf(c.peer, e) == PartnerOf(c.pairs, g.info, e);
    }
  }

  lemma AbortOk(c: Core, g: Staging)
    requires CoreOk(c, g) && c.pairing.Some?
    ensures CoreOk(AbortCore(c), g)
  {
    var rid := c.pairing.value.rid;
    AbortKeeps(c, g.max);
    AbortPlaced(c, g);
    assert PlacedAt(c.pairs[rid], rid, c.refs, g) && WellShaped(c.pairs[rid], true);
    assert AbortCore(c).pairs - {rid} == c.pairs - {rid};
    CutLinks(c, AbortCore(c), g, rid, Members(c.pairs[rid]));
  }

  lemma ReleasedLinks(c: Core, g: Staging, e: EndpointId)
    requires CoreOk(c, g) && c.pairing.None? && e in g.info
    ensures Linked(ReleaseCore(c, e, g.info[e].rid), g.info)
  {
    hide Counted, Linked;
    var rid := g.info[e].rid;
    var c' := ReleaseCore(c, e, rid);
    if rid in c.pairs && e in Members(c.pairs[rid]) {
      assert PlacedAt(c.pairs[rid], rid, c.refs, g) && WellShaped(c.pairs[rid], false);
      assert c'.pairs - {rid} == c.pairs - {rid} && rid !in c'.pairs;
      assert c'.peer == c.peer - Members(c.pairs[rid]);
      CutLinks(c, c', g, rid, Members(c.pairs[rid]));
    } else {
      LinksDependOn(c, c', g.info);
    }
  }

  lemma LinksDependOn(c: Core, c': Core, info: map<EndpointId, Info>)
    requires Linked(c, info) && c'.pairs == c.pairs && c'.peer == c.peer
    ensures Linked(c', info)
  {
  }

  lemma ReleaseOk(c: Core, g: Staging, e: EndpointId)
    requires CoreOk(c, g) && c.pairing.None? && e in g.info
    ensures CoreOk(ReleaseCore(c, e, g.info[e].rid), g)
  {
    ReleaseKeeps(c, g.max, e, g.info[e].rid);
    ReleasePlaced(c, g, e);
    ReleasedLinks(c, g, e);
  }

  lemma {:induction false} ReleaseAllOk(c: Core, g: Staging, order: seq<EndpointId>)
    requires CoreOk(c, g) && c.pairing.None? && forall e | e in order :: e in g.info
    ensures CoreOk(ReleaseAllCore(c, g.info, order), g)
    decreases |order|
  {
    if order != [] {
      ReleaseOk(c, g, order[0]);
      ReleaseAllOk(ReleaseCore(c, order[0], g.info[order[0]].rid), g, order[1..]);
    }
  }

  /** The core does not notice a smaller upgrade set, other leases or the closed flag. */
  lemma StagingShrinks(c: Core, g: Staging, g': Staging)
    requires CoreOk(c, g) && g'.max == g.max && g'.info == g.info && g'.pump == g.pump && g'.upgrades <= g.upgrades
    ensures CoreOk(c, g')
  {
    forall r | r in c.pairs
      ensures PlacedAt(c.pairs[r], r, c.refs, g')
    {
      assert PlacedAt(c.pairs[r], r, c.refs, g);
    }
  }

  lemma StageOk(c: Core, g: Staging, lease: LeaseId, e: EndpointId, info: Info)
    requires CoreOk(c, g) && e !in g.info && SlotsExact(g)
    ensures CoreOk(c, Stage(g, lease, e, info))
  {
    var g' := Stage(g, lease, e, info);
    forall r | r in c.pairs
      ensures PlacedAt(c.pairs[r], r, c.refs, g')
    {
      assert PlacedAt(c.pairs[r], r, c.refs, g);
    }
    forall x: EndpointId
      ensures LinkOf(c.peer, x) == PartnerOf(c.pairs, g'.info, x)
    {
      assert LinkOf(c.peer, x) == PartnerOf(c.pairs, g.info, x);
      if x == e && info.rid in c.pairs {
        assert PlacedAt(c.pairs[info.rid], info.rid, c.refs, g);
      }
    }
  }
}
