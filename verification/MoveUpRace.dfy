/** MoveUp against the clean-up of the cancelled worker of the same path. The worker reads the current path and
    deletes it in two locked calls; both may fall anywhere among the steps of MoveUp. It compares with the address it
    was dialled to, which need not be the path's next hop. */
module MoveUpRace {
  import opened Profiles
  import opened NodeSteps
  import KeyExchange

  /** The clean-up of a worker dialled to `target` reads at moment `read` and deletes at moment `drop`, if `mine` says
      that the read found a path through the target. Moments: 0 before MoveUp, 1 after its query, 2 after its connect,
      3 after its end, 4 never (the worker had left before). */
  datatype CleanUp = CleanUp(target: Ip, read: nat, drop: nat, mine: bool)

  predicate Ordered(c: CleanUp) {
    c.read <= c.drop <= 4 && (c.read == 4 <==> c.drop == 4)
  }

  function Look(moment: nat, s: NodeState, c: CleanUp, id: Uuid): CleanUp {
    if moment == c.read then c.(mine := StillMine(s, id, c.target)) else c
  }

  function Sweep(moment: nat, s: NodeState, c: CleanUp, id: Uuid): NodeState {
    if moment == c.drop && c.mine then DropPath(s, id) else s
  }

  /** The clean-up's share of the given moment and of all later ones, when MoveUp does nothing more. */
  function Finish(moment: nat, s: NodeState, c: CleanUp, id: Uuid): NodeState
    decreases 4 - moment
  {
    if moment > 3 then s
    else
      var c' := Look(moment, s, c, id);
      Finish(moment + 1, Sweep(moment, s, c', id), c', id)
  }

  /** MoveUp with the clean-up woven in; `live` are the cover workers that run. */
  function Race(s: NodeState, was: Path, confirmed: Option<bool>, d: Dialogue, freshId: Uuid, live: set<ConnId>,
                c: CleanUp)
    : (NodeState, MoveOutcome)
  {
    var c0 := Look(0, s, c, was.uuid);
    var s0 := Sweep(0, s, c0, was.uuid);
    if !was.next2.Peer? || confirmed.None? then (Finish(1, s0, c0, was.uuid), Stopped)
    else
      var queried := if confirmed.value then Prepare(s0, was.next2.ip, was.uuid, d) else None;
      RaceOn(if queried.Some? then queried.value else s0, was, queried.Some?, d, freshId, live, c0)
  }

  /** From moment 1 on: the connect, if the query came through, and what follows it. */
  function RaceOn(s: NodeState, was: Path, queried: bool, d: Dialogue, freshId: Uuid, live: set<ConnId>, c: CleanUp)
    : (NodeState, MoveOutcome)
    requires was.next2.Peer?
  {
    var c1 := Look(1, s, c, was.uuid);
    var s1 := Sweep(1, s, c1, was.uuid);
    var connected := if queried then FinishConnect(s1, was.next2.ip, was.uuid, d) else (s1, ConnectError);
    AfterConnect(connected.0, connected.1 == Connected, was.uuid, freshId, live, c1)
  }

  /** From moment 2 on: the last resort, unless the connect came through. */
  function AfterConnect(s: NodeState, connected: bool, id: Uuid, freshId: Uuid, live: set<ConnId>, c: CleanUp)
    : (NodeState, MoveOutcome)
  {
    var c2 := Look(2, s, c, id);
    var s2 := Sweep(2, s, c2, id);
    if connected then (Finish(3, s2, c2, id), Moved) else (Finish(3, FallBack(s2, id, freshId, live), c2, id), Proxied)
  }

  /** Without the clean-up this is the node's MoveUp. */
  lemma RaceAlone(s: NodeState, was: Path, confirmed: Option<bool>, d: Dialogue, freshId: Uuid, live: set<ConnId>,
                  c: CleanUp)
    requires c.read > 3 && !c.mine
    ensures Race(s, was, confirmed, d, freshId, live, c) == MoveUp(s, was, confirmed, d, freshId, live)
  {
  }

  /** The path being moved up is the held one and its two hops differ. */
  predicate Ready(s: NodeState, was: Path, freshId: Uuid) {
    && was.uuid in s.paths && s.paths[was.uuid] == was
    && was.next.Peer? && was.next2 != was.next && freshId != was.uuid
  }

  /** Where a connect will lead: the next hop of the half-open entry that is there when the request leaves, which is
      one cached before, perhaps for another peer, or one the query of the next-next hop brings. */
  function NewHop(s: NodeState, was: Path, d: Dialogue): Hop {
    if !was.next2.Peer? then Nowhere
    else
      var prepared := Prepare(s, was.next2.ip, was.uuid, d);
      if prepared.Some? && was.uuid in prepared.value.halfOpen then prepared.value.halfOpen[was.uuid].next else Nowhere
  }

  /** The query brings an offer of the tree that is taken. */
  predicate Offered(s: NodeState, ip: Ip, id: Uuid, offers: seq<Offer>, vouched: seq<bool>) {
    exists i: nat :: i < |offers| && offers[i].sealedId.id == id && Takes(s, ip, offers[i], Vouches(vouched, i))
  }

  lemma {:induction false} OfferedLeads(s: NodeState, ip: Ip, offers: seq<Offer>, vouched: seq<bool>, id: Uuid)
    ensures var after := RecordAll(s, ip, offers, vouched).halfOpen;
            if Offered(s, ip, id, offers, vouched) then id in after && after[id].next == Peer(ip)
            else (id in after <==> id in s.halfOpen) && (id in after ==> after[id] == s.halfOpen[id])
  {
    if offers != [] {
      var n := |offers| - 1;
      OfferedLeads(s, ip, offers[..n], vouched, id);
      assert Offered(s, ip, id, offers, vouched) <==>
          Offered(s, ip, id, offers[..n], vouched)
          || (offers[n].sealedId.id == id && Takes(s, ip, offers[n], Vouches(vouched, n))) by {
        assert forall i: nat :: i < n ==> offers[..n][i] == offers[i];
      }
    }
  }

  /** A connect leads one hop up if and only if it makes a query that brings an offer, or finds an entry that was
      recorded for the next-next hop. */
  predicate LeadsUp(s: NodeState, was: Path, d: Dialogue)
    requires was.next2.Peer?
  {
    var ip, id := was.next2.ip, was.uuid;
    || (!Cached(s, ip, id) && d.query.Some? && Offered(s, ip, id, d.query.value.offers, d.vouched))
    || ((Cached(s, ip, id) || d.query.Some?) && id in s.halfOpen && s.halfOpen[id].next == was.next2)
  }

  lemma LeadsUpIff(s: NodeState, was: Path, d: Dialogue)
    requires was.next2.Peer?
    ensures NewHop(s, was, d) == was.next2 <==> LeadsUp(s, was, d)
  {
    var ip, id := was.next2.ip, was.uuid;
    if !Cached(s, ip, id) && d.query.Some? {
      var learned, offers := Learn(s, ip, d.query.value.parentPublicKey), d.query.value.offers;
      OfferedLeads(learned, ip, offers, d.vouched, id);
      assert forall i: nat :: i < |offers| ==>
          Takes(learned, ip, offers[i], Vouches(d.vouched, i)) == Takes(s, ip, offers[i], Vouches(d.vouched, i));
    }
  }

  /** Dropping the held path does not change what the query of its next-next hop brings. */
  lemma {:induction false} RecordsAlike(s: NodeState, t: NodeState, id: Uuid, ip: Ip, offers: seq<Offer>,
                                        vouched: seq<bool>)
    requires t == DropPath(s, id) && (id in s.paths ==> s.paths[id].next2 == Peer(ip))
    ensures RecordAll(t, ip, offers, vouched) == DropPath(RecordAll(s, ip, offers, vouched), id)
  {
    if offers != [] {
      RecordsAlike(s, t, id, ip, offers[..|offers| - 1], vouched);
    }
  }

  lemma PreparedEntry(s: NodeState, was: Path, freshId: Uuid, t: NodeState, d: Dialogue)
    requires Ready(s, was, freshId) && was.next2.Peer?
    requires t == s || t == DropPath(s, was.uuid)
    ensures var prepared := Prepare(t, was.next2.ip, was.uuid, d);
            prepared.Some? ==>
              && prepared.value.paths == t.paths && prepared.value.publicKey == t.publicKey
              && (was.uuid in prepared.value.halfOpen ==>
                    prepared.value.halfOpen[was.uuid].next == NewHop(s, was, d))
  {
    var ip := was.next2.ip;
    if d.query.Some? {
      var learned := Learn(s, ip, d.query.value.parentPublicKey);
      RecordsAlike(learned, DropPath(learned, was.uuid), was.uuid, ip, d.query.value.offers, d.vouched);
    }
  }

  /** What is left of the clean-up acts on the final state as one compare-and-delete. */
  lemma {:induction false} FinishIs(moment: nat, s: NodeState, c: CleanUp, id: Uuid)
    requires Ordered(c)
    ensures Finish(moment, s, c, id)
         == if moment <= c.drop <= 3 && (if moment <= c.read then StillMine(s, id, c.target) else c.mine)
            then DropPath(s, id) else s
    decreases 4 - moment
  {
    if moment <= 3 {
      var c' := Look(moment, s, c, id);
      FinishIs(moment + 1, Sweep(moment, s, c', id), c', id);
    }
  }

  /** The worker was dialled to the old next hop and has not left yet, so that it takes the old path away. */
  predicate TakesOld(c: CleanUp, was: Path) {
    was.next == Peer(c.target) && c.drop <= 3
  }

  /** Up to and including the given moment the old path is there, unless the clean-up has taken it. */
  predicate OldOrGone(s: NodeState, c: CleanUp, was: Path, moment: nat) {
    && Ordered(c) && was.next.Peer?
    && (was.uuid in s.paths <==> !(TakesOld(c, was) && c.drop <= moment))
    && (was.uuid in s.paths ==> s.paths[was.uuid] == was)
    && (c.read <= moment < c.drop ==> (c.mine <==> was.next == Peer(c.target)))
  }

  /** As OldOrGone, before the clean-up has had its share of the moment. */
  predicate OldBefore(s: NodeState, c: CleanUp, was: Path, moment: nat) {
    && Ordered(c) && was.next.Peer?
    && (was.uuid in s.paths <==> !(TakesOld(c, was) && c.drop < moment))
    && (was.uuid in s.paths ==> s.paths[was.uuid] == was)
    && (c.read < moment <= c.drop ==> (c.mine <==> was.next == Peer(c.target)))
  }

  lemma LookAndSweep(s: NodeState, c: CleanUp, was: Path, moment: nat)
    requires OldBefore(s, c, was, moment) && moment <= 3
    ensures var c' := Look(moment, s, c, was.uuid);
            && c' == c.(mine := c'.mine) && OldOrGone(Sweep(moment, s, c', was.uuid), c', was, moment)
            && (Sweep(moment, s, c', was.uuid) == s || Sweep(moment, s, c', was.uuid) == DropPath(s, was.uuid))
  {
  }

  /** Nothing but the clean-up happens to the tree from t on: it ends up unheld exactly when the worker takes it. */
  lemma OldIsSwept(s: NodeState, t: NodeState, c: CleanUp, was: Path, moment: nat)
    requires OldOrGone(s, c, was, moment) && moment <= 3
    requires was.uuid in t.paths <==> was.uuid in s.paths
    requires was.uuid in t.paths ==> t.paths[was.uuid] == was
    ensures var after := Finish(moment + 1, t, c, was.uuid);
            && (was.uuid in after.paths <==> !TakesOld(c, was))
            && (was.uuid in after.paths ==> after.paths[was.uuid] == was)
            && (after == t || after == DropPath(t, was.uuid))
  {
    FinishIs(moment + 1, t, c, was.uuid);
  }

  /** What a clean-up does to the path that a connect has just opened towards `hop`: it drops it if it read the old path
      before the connect and deletes after it, or if it reads after the connect and was dialled to the new next hop. */
  predicate TakesNew(c: CleanUp, was: Path, hop: Hop) {
    c.drop <= 3 && if c.read <= 1 then was.next == Peer(c.target) && c.drop >= 2 else hop == Peer(c.target)
  }

  lemma CommittedAgainst(s: NodeState, t: NodeState, c: CleanUp, was: Path, hop: Hop)
    requires OldOrGone(s, c, was, 1)
    requires was.uuid in t.paths && t.paths[was.uuid].next == hop
    ensures var c2 := Look(2, t, c, was.uuid);
            Finish(3, Sweep(2, t, c2, was.uuid), c2, was.uuid)
            == (if TakesNew(c, was, hop) then DropPath(t, was.uuid) else t)
  {
    var c2 := Look(2, t, c, was.uuid);
    FinishIs(3, Sweep(2, t, c2, was.uuid), c2, was.uuid);
  }

  /** Exactly the covers of the tree with a live worker have left, if the last resort was taken, and none otherwise. */
  ghost predicate CoversDecided(covers: map<Ip, CoverNode>, tree: Uuid, live: set<ConnId>, after: map<Ip, CoverNode>,
                                outcome: MoveOutcome) {
    && (forall ip :: ip in after <==>
          ip in covers && !(outcome == Proxied && covers[ip].tree == tree && covers[ip].worker in live))
    && (forall ip :: ip in after ==> after[ip] == covers[ip])
  }

  ghost predicate Decided(was: Path, hop: Hop, freshId: Uuid, key: PublicKey, c: CleanUp, after: NodeState,
                          outcome: MoveOutcome) {
    && (outcome == Moved ==> (was.uuid in after.paths <==> !TakesNew(c, was, hop)))
    && (outcome == Moved && was.uuid in after.paths ==> after.paths[was.uuid].next == hop)
    && (outcome != Moved ==> (was.uuid in after.paths <==> !TakesOld(c, was)))
    && (outcome != Moved && was.uuid in after.paths ==> after.paths[was.uuid] == was)
    && (outcome == Proxied ==>
          freshId in after.paths && after.paths[freshId] == Path(freshId, Storage, Nowhere, key, 0, 0, 0, None))
  }

  lemma LastResortDecided(s: NodeState, was: Path, hop: Hop, freshId: Uuid, live: set<ConnId>, c: CleanUp)
    requires OldOrGone(s, c, was, 2) && freshId != was.uuid
    ensures Decided(was, hop, freshId, s.publicKey, c,
                    Finish(3, FallBack(s, was.uuid, freshId, live), c, was.uuid), Proxied)
  {
    OldIsSwept(s, FallBack(s, was.uuid, freshId, live), c, was, 2);
  }

  lemma UnconnectedDecided(s: NodeState, was: Path, hop: Hop, freshId: Uuid, live: set<ConnId>, c: CleanUp)
    requires OldOrGone(s, c, was, 1) && freshId != was.uuid
    ensures var c2 := Look(2, s, c, was.uuid);
            Decided(was, hop, freshId, s.publicKey, c2,
                    Finish(3, FallBack(Sweep(2, s, c2, was.uuid), was.uuid, freshId, live), c2, was.uuid), Proxied)
  {
    var c2 := Look(2, s, c, was.uuid);
    LookAndSweep(s, c, was, 2);
    LastResortDecided(Sweep(2, s, c2, was.uuid), was, hop, freshId, live, c2);
  }

  lemma ConnectDecided(s: NodeState, t: NodeState, connected: bool, was: Path, hop: Hop, freshId: Uuid,
                       live: set<ConnId>, c: CleanUp)
    requires OldOrGone(s, c, was, 1) && freshId != was.uuid
    requires if connected then was.uuid in t.paths && t.paths[was.uuid].next == hop else t == s
    ensures var (after, outcome) := AfterConnect(t, connected, was.uuid, freshId, live, c);
            Decided(was, hop, freshId, s.publicKey, c, after, outcome)
  {
    if connected {
      CommittedAgainst(s, t, c, was, hop);
    } else {
      UnconnectedDecided(s, was, hop, freshId, live, c);
    }
  }

  lemma SameCleanUp(was: Path, hop: Hop, freshId: Uuid, key: PublicKey, c: CleanUp, c': CleanUp, after: NodeState,
                    outcome: MoveOutcome)
    requires c' == c.(mine := c'.mine) && Decided(was, hop, freshId, key, c', after, outcome)
    ensures Decided(was, hop, freshId, key, c, after, outcome)
  {
  }

  lemma RaceOnDecided(s: NodeState, was: Path, hop: Hop, queried: bool, d: Dialogue, freshId: Uuid, live: set<ConnId>,
                      c: CleanUp)
    requires was.next2.Peer? && freshId != was.uuid && OldOrGone(s, c, was, 0)
    requires queried && was.uuid in s.halfOpen ==> s.halfOpen[was.uuid].next == hop
    ensures var (after, outcome) := RaceOn(s, was, queried, d, freshId, live, c);
            Decided(was, hop, freshId, s.publicKey, c, after, outcome)
  {
    var c1 := Look(1, s, c, was.uuid);
    var s1 := Sweep(1, s, c1, was.uuid);
    LookAndSweep(s, c, was, 1);
    var connected := if queried then FinishConnect(s1, was.next2.ip, was.uuid, d) else (s1, ConnectError);
    ConnectSetsPath(s1, was.next2.ip, was.uuid, d);
    ConnectDecided(s1, connected.0, connected.1 == Connected, was, hop, freshId, live, c1);
    var (after, outcome) := AfterConnect(connected.0, connected.1 == Connected, was.uuid, freshId, live, c1);
    SameCleanUp(was, hop, freshId, s.publicKey, c, c1, after, outcome);
  }

  lemma ConnectSetsPath(s: NodeState, ip: Ip, id: Uuid, d: Dialogue)
    ensures var (t, outcome) := FinishConnect(s, ip, id, d);
            if outcome == Connected then id in s.halfOpen && id in t.paths && t.paths[id].next == s.halfOpen[id].next
            else t == s
  {
  }

  lemma QueriedDecided(s: NodeState, s0: NodeState, was: Path, queried: Option<NodeState>, d: Dialogue, freshId: Uuid,
                       live: set<ConnId>, c: CleanUp, c0: CleanUp)
    requires Ready(s, was, freshId) && was.next2.Peer? && OldOrGone(s0, c0, was, 0) && c0 == c.(mine := c0.mine)
    requires s0 == s || s0 == DropPath(s, was.uuid)
    requires queried == None || queried == Prepare(s0, was.next2.ip, was.uuid, d)
    ensures var (after, outcome) :=
              RaceOn(if queried.Some? then queried.value else s0, was, queried.Some?, d, freshId, live, c0);
            Decided(was, NewHop(s, was, d), freshId, s.publicKey, c, after, outcome)
  {
    PreparedEntry(s, was, freshId, s0, d);
    var s1 := if queried.Some? then queried.value else s0;
    assert s1.paths == s0.paths && s1.publicKey == s.publicKey;
    RaceOnDecided(s1, was, NewHop(s, was, d), queried.Some?, d, freshId, live, c0);
    var (after, outcome) := RaceOn(s1, was, queried.Some?, d, freshId, live, c0);
    SameCleanUp(was, NewHop(s, was, d), freshId, s.publicKey, c, c0, after, outcome);
  }

  lemma StoppedDecided(s: NodeState, was: Path, hop: Hop, freshId: Uuid, key: PublicKey, c: CleanUp, c0: CleanUp)
    requires OldOrGone(s, c0, was, 0) && c0 == c.(mine := c0.mine)
    ensures Decided(was, hop, freshId, key, c, Finish(1, s, c0, was.uuid), Stopped)
  {
    OldIsSwept(s, s, c0, was, 0);
  }

  lemma {:induction false} FinishKeepsCovers(moment: nat, s: NodeState, c: CleanUp, id: Uuid)
    ensures Finish(moment, s, c, id).covers == s.covers
    decreases 4 - moment
  {
    if moment <= 3 {
      var c' := Look(moment, s, c, id);
      FinishKeepsCovers(moment + 1, Sweep(moment, s, c', id), c', id);
    }
  }

  lemma LastResortCovers(s: NodeState, connected: bool, id: Uuid, freshId: Uuid, live: set<ConnId>, c: CleanUp)
    ensures var (after, outcome) := AfterConnect(s, connected, id, freshId, live, c);
            CoversDecided(s.covers, id, live, after.covers, outcome)
  {
    var c2 := Look(2, s, c, id);
    var s2 := Sweep(2, s, c2, id);
    FinishKeepsCovers(3, if connected then s2 else FallBack(s2, id, freshId, live), c2, id);
  }

  lemma RaceOnCovers(s: NodeState, was: Path, queried: bool, d: Dialogue, freshId: Uuid, live: set<ConnId>, c: CleanUp)
    requires was.next2.Peer?
    ensures var (after, outcome) := RaceOn(s, was, queried, d, freshId, live, c);
            CoversDecided(s.covers, was.uuid, live, after.covers, outcome)
  {
    var c1 := Look(1, s, c, was.uuid);
    var s1 := Sweep(1, s, c1, was.uuid);
    var connected := if queried then FinishConnect(s1, was.next2.ip, was.uuid, d) else (s1, ConnectError);
    LastResortCovers(connected.0, connected.1 == Connected, was.uuid, freshId, live, c1);
  }

  lemma PreparingKeepsCovers(s: NodeState, ip: Ip, id: Uuid, d: Dialogue)
    ensures var prepared := Prepare(s, ip, id, d);
            prepared.Some? ==> prepared.value.covers == s.covers
  {
  }

  lemma RaceCovers(s: NodeState, was: Path, confirmed: Option<bool>, d: Dialogue, freshId: Uuid, live: set<ConnId>,
                   c: CleanUp)
    ensures var (after, outcome) := Race(s, was, confirmed, d, freshId, live, c);
            CoversDecided(s.covers, was.uuid, live, after.covers, outcome)
  {
    var c0 := Look(0, s, c, was.uuid);
    var s0 := Sweep(0, s, c0, was.uuid);
    if !was.next2.Peer? || confirmed.None? {
      FinishKeepsCovers(1, s0, c0, was.uuid);
    } else {
      var queried := if confirmed.value then Prepare(s0, was.next2.ip, was.uuid, d) else None;
      PreparingKeepsCovers(s0, was.next2.ip, was.uuid, d);
      RaceOnCovers(if queried.Some? then queried.value else s0, was, queried.Some?, d, freshId, live, c0);
    }
  }

  /** For every placement of the clean-up's read and delete, wherever the worker was dialled and whatever entry is
      cached: a move-up that succeeds leaves the path in place, leading to NewHop, if and only if the clean-up does not
      take the new path; every other outcome leaves the old path in place if and only if the worker has left before or
      was dialled elsewhere; and the last resort, and nothing else, adds a path of the node's own and takes away the
      covers of the tree whose worker lives. */
  lemma RaceDecided(s: NodeState, was: Path, confirmed: Option<bool>, d: Dialogue, freshId: Uuid, live: set<ConnId>,
                    c: CleanUp)
    requires Ready(s, was, freshId) && Ordered(c)
    ensures var (after, outcome) := Race(s, was, confirmed, d, freshId, live, c);
            && Decided(was, NewHop(s, was, d), freshId, s.publicKey, c, after, outcome)
            && CoversDecided(s.covers, was.uuid, live, after.covers, outcome)
  {
    var c0 := Look(0, s, c, was.uuid);
    var s0 := Sweep(0, s, c0, was.uuid);
    RaceCovers(s, was, confirmed, d, freshId, live, c);
    LookAndSweep(s, c, was, 0);
    if !was.next2.Peer? || confirmed.None? {
      StoppedDecided(s0, was, NewHop(s, was, d), freshId, s.publicKey, c, c0);
    } else {
      var queried := if confirmed.value then Prepare(s0, was.next2.ip, was.uuid, d) else None;
      QueriedDecided(s, s0, was, queried, d, freshId, live, c, c0);
    }
  }

  /** So a move-up that keeps its path brings it one hop up if and only if its query brought an offer or a cached entry
      had been recorded for the next-next hop. */
  lemma OneUpIff(s: NodeState, was: Path, confirmed: Option<bool>, d: Dialogue, freshId: Uuid, live: set<ConnId>,
                 c: CleanUp)
    requires Ready(s, was, freshId) && Ordered(c)
    ensures var (after, outcome) := Race(s, was, confirmed, d, freshId, live, c);
            outcome == Moved && was.uuid in after.paths ==>
              was.next2.Peer? && (after.paths[was.uuid].next == was.next2 <==> LeadsUp(s, was, d))
  {
    RaceDecided(s, was, confirmed, d, freshId, live, c);
    if was.next2.Peer? {
      LeadsUpIff(s, was, d);
    }
  }

  /** Read and delete in one locked call, by a worker dialled to the old next hop: the tree is held afterwards exactly
      when the move-up has succeeded, unless the clean-up comes after a connect whose entry names the old next hop. */
  lemma AtomicCleanUpIff(s: NodeState, was: Path, confirmed: Option<bool>, d: Dialogue, freshId: Uuid,
                         live: set<ConnId>, c: CleanUp)
    requires Ready(s, was, freshId) && c.read == c.drop <= 3 && was.next == Peer(c.target)
    ensures var (after, outcome) := Race(s, was, confirmed, d, freshId, live, c);
            was.uuid in after.paths <==> outcome == Moved && !(c.read >= 2 && NewHop(s, was, d) == was.next)
  {
    RaceDecided(s, was, confirmed, d, freshId, live, c);
  }

  // ---- Inputs that go wrong ----

  /** An entry of the tree and the next-next hop's key are cached, and the next-next hop accepts. */
  predicate Accepted(s: NodeState, was: Path, d: Dialogue) {
    was.next2.Peer? && Cached(s, was.next2.ip, was.uuid) && d.reply.Some? && d.reply.value.accepted
  }

  lemma AcceptedMoves(s: NodeState, was: Path, d: Dialogue, freshId: Uuid, live: set<ConnId>, c: CleanUp)
    requires Ready(s, was, freshId) && Ordered(c) && Accepted(s, was, d)
    ensures var (after, outcome) := Race(s, was, Some(true), d, freshId, live, c);
            outcome == Moved && NewHop(s, was, d) == s.halfOpen[was.uuid].next
  {
  }

  /** The clean-up reads before the connect and deletes after it: the move-up has succeeded and its path is gone. */
  lemma MovedAndLost(s: NodeState, was: Path, d: Dialogue, freshId: Uuid, live: set<ConnId>, c: CleanUp)
    requires Ready(s, was, freshId) && Ordered(c) && Accepted(s, was, d)
    requires was.next == Peer(c.target) && c.read <= 1 && 2 <= c.drop <= 3
    ensures var (after, outcome) := Race(s, was, Some(true), d, freshId, live, c);
            outcome == Moved && was.uuid !in after.paths
  {
    AcceptedMoves(s, was, d, freshId, live, c);
    RaceDecided(s, was, Some(true), d, freshId, live, c);
  }

  /** The cached entry was recorded for another peer, and the worker has left before: the move-up has succeeded and its
      path leads to that peer. */
  lemma MovedElsewhere(s: NodeState, was: Path, d: Dialogue, freshId: Uuid, live: set<ConnId>, c: CleanUp)
    requires Ready(s, was, freshId) && Ordered(c) && Accepted(s, was, d) && c.drop == 4
    requires s.halfOpen[was.uuid].next != was.next2
    ensures var (after, outcome) := Race(s, was, Some(true), d, freshId, live, c);
            && outcome == Moved && was.uuid in after.paths
            && after.paths[was.uuid].next == s.halfOpen[was.uuid].next != was.next2
  {
    AcceptedMoves(s, was, d, freshId, live, c);
    RaceDecided(s, was, Some(true), d, freshId, live, c);
  }

  /** One such input each: a node under "b", whose next-next hop is "a". */
  lemma BothHappen() returns (was: Path, d: Dialogue, lost: NodeState, elsewhere: NodeState)
    ensures Ready(lost, was, 2) && Accepted(lost, was, d) && Ready(elsewhere, was, 2) && Accepted(elsewhere, was, d)
    ensures var (after, outcome) := Race(lost, was, Some(true), d, 2, {}, CleanUp("b", 1, 2, false));
            outcome == Moved && 1 !in after.paths
    ensures var (after, outcome) := Race(elsewhere, was, Some(true), d, 2, {}, CleanUp("b", 4, 4, false));
            outcome == Moved && 1 in after.paths && after.paths[1].next == Peer("c")
  {
    was := Path(1, Peer("b"), Peer("a"), 0, 0, 0, 0, Some(Connection("b", 1)));
    var exchange := KeyExchange.GenerateReturn(KeyExchange.NewKeyExchange(3, 5, 1), 1);
    d := Dialogue(None, [], Some(ConnectReply(true, exchange)), 1, 2);
    var s := FreshNode(Config(1, 1, 1), 0).(paths := map[1 := was], peerKeys := map["a" := 1]);
    lost := s.(halfOpen := map[1 := Path(1, Peer("a"), Storage, 0, 0, 0, 0, None)]);
    elsewhere := s.(halfOpen := map[1 := Path(1, Peer("c"), Storage, 0, 0, 0, 0, None)]);
    MovedAndLost(lost, was, d, 2, {}, CleanUp("b", 1, 2, false));
    MovedElsewhere(elsewhere, was, d, 2, {}, CleanUp("b", 4, 4, false));
  }
}
