/** Runs the code can make from a few nodes that have just started, built step by step. Each ends in a state that one
    might think impossible. A node of these runs queries a peer that holds one tree, takes its offer because the peer's
    next hop is storage or lists the peer among its covers, and connects with the key and the entry cached. */
module Scenes {
  import opened Profiles
  import opened NodeSteps
  import opened Overlay
  import opened Permanence
  import opened Acyclicity
  import opened Climbing
  import opened Links
  import opened Composites

  lemma StepReaches(d: Discipline, net: Net, l: Label)
    requires Reachable(d, net) && Allowed(d, net, l)
    ensures Reachable(d, Step(net, l))
  {
    var start :| Initial(start) && CanReach(d, start, net);
    ReachStep(d, start, net, l);
  }

  lemma StartIsReachable(d: Discipline, start: Net)
    requires Initial(start)
    ensures Reachable(d, start)
  {
    StaysPut(d, start);
  }

  /** The numbers drawn for the exchange on each connection. */
  type Draw = ConnId -> Exchange

  // ---- One query and one connect ----

  ghost predicate NeverHeld(net: Net, n: Ip, id: Uuid) {
    forall p :: (n, p) in net.held ==> p.uuid != id
  }

  /** What q's next hop says when it is asked about q. */
  predicate VouchedFor(net: Net, q: Ip, id: Uuid)
    requires Holds(net, q, id)
  {
    match PathAt(net, q, id).next
    case Storage => true
    case Nowhere => false
    case Peer(r) => r in net.nodes && q in net.nodes[r].covers
  }

  /** Node q holds this tree and no other. */
  predicate HoldsOnly(net: Net, q: Ip, id: Uuid) {
    q in net.nodes && net.nodes[q].paths.Keys == {id} && net.nodes[q].paths[id].uuid == id
  }

  /** Node n would take q's offer of tree id, afresh or because q is its next-next hop, has p's key cached or queries q
      itself, and p would accept n as a cover on an unused connection. */
  ghost predicate CanConnect(d: Discipline, net: Net, n: Ip, q: Ip, p: Ip, id: Uuid, conn: ConnId) {
    && n in net.nodes && n != p && n != q && !d.linkCare
    && HoldsOnly(net, q, id) && VouchedFor(net, q, id)
    && (Holds(net, n, id) ==>
          PathAt(net, n, id).next2 == Peer(q) && PathAt(net, n, id).uuid == id && (n, PathAt(net, n, id)) in net.held)
    && (d.freshJoins ==> NeverHeld(net, n, id) || Holds(net, n, id))
    && p in net.nodes && Accepts(net.nodes[p], n, id) && (p == q || p in net.nodes[n].peerKeys)
    && Unused(net, conn)
  }

  function OfferTo(net: Net, q: Ip, n: Ip, id: Uuid): Offer
    requires Holds(net, q, id) && n in net.nodes
  {
    OfferOf(PathAt(net, q, id), net.nodes[n].publicKey)
  }

  /** Node n after taking q's offer. */
  function Taken(net: Net, n: Ip, q: Ip, id: Uuid): NodeState
    requires Holds(net, q, id) && n in net.nodes
  {
    var s := Learn(net.nodes[n], q, net.nodes[q].publicKey);
    s.(halfOpen := s.halfOpen[id := Entry(q, OfferTo(net, q, n, id))])
  }

  lemma OneOfferTaken(s: NodeState, q: Ip, o: Offer)
    requires Takes(s, q, o, true)
    ensures RecordAll(s, q, [o], [true]) == s.(halfOpen := s.halfOpen[o.sealedId.id := Entry(q, o)])
  {
    assert [o][..0] == [] && Vouches([true], 0);
    assert RecordAll(s, q, [], [true]) == s;
  }

  lemma ListsOne(net: Net, n: Ip, q: Ip, id: Uuid)
    requires n in net.nodes && HoldsOnly(net, q, id)
    ensures Lists([OfferTo(net, q, n, id)], net.nodes[q].paths, net.nodes[n].publicKey)
  {
    assert ListsInOrder([OfferTo(net, q, n, id)], [id], net.nodes[q].paths, net.nodes[n].publicKey);
  }

  /** A whole query of q by n: its only offer becomes the half-open entry. */
  lemma QueriesOnly(d: Discipline, net: Net, n: Ip, q: Ip, id: Uuid) returns (after: Net)
    requires Reachable(d, net) && n in net.nodes && n != q && HoldsOnly(net, q, id)
    requires Holds(net, n, id) ==>
               && PathAt(net, n, id).next2 == Peer(q) && PathAt(net, n, id).uuid == id
               && (n, PathAt(net, n, id)) in net.held
    requires d.freshJoins ==> NeverHeld(net, n, id) || Holds(net, n, id)
    ensures Reachable(d, after) && net.offers <= after.offers && Told(q, n, OfferTo(net, q, n, id)) in after.offers
    ensures after == net.(nodes := net.nodes[n := Taken(net, n, q, id)], offers := after.offers)
  {
    var offer := OfferTo(net, q, n, id);
    ListsOne(net, n, q, id);
    var start :| Initial(start) && CanReach(d, start, net);
    after := Queries(d, start, net, n, q, [offer], [true]);
    assert offer in [offer];
    OneOfferTaken(Learn(net.nodes[n], q, net.nodes[q].publicKey), q, offer);
  }

  /** What n holds after taking q's offer and connecting to p: a path through q on a connection dialled to p. */
  predicate ConnectedTo(before: NodeState, above: Path, q: Ip, p: Ip, id: Uuid, conn: ConnId, s: NodeState) {
    && id in s.paths && s.paths == before.paths[id := s.paths[id]]
    && s.paths[id].uuid == id && s.paths[id].next == Peer(q) && s.paths[id].next2 == above.next
    && s.paths[id].cancel == Some(Connection(p, conn))
    && s.covers == before.covers && s.config == before.config && s.publicKey == before.publicKey
  }

  /** How the network differs once n has connected to p. */
  ghost predicate Grown(net: Net, n: Ip, p: Ip, id: Uuid, conn: ConnId, after: Net) {
    && n in after.nodes && id in after.nodes[n].paths
    && after.nodes.Keys == net.nodes.Keys
    && (forall m :: m in net.nodes && m != n && m != p ==> after.nodes[m] == net.nodes[m])
    && after.asks.Keys == net.asks.Keys + {conn} && after.answers == net.answers
    && after.senders == net.senders + {conn}
    && after.links.Keys == net.links.Keys + {conn} && (forall c :: c in net.links ==> after.links[c] == net.links[c])
    && after.links[conn].child == n && after.links[conn].parent == p && after.links[conn].tree == id
    && after.held == net.held + {(n, after.nodes[n].paths[id])} && net.offers <= after.offers
  }

  ghost predicate Admitted(net: Net, p: Ip, n: Ip, after: Net) {
    && p in net.nodes && p in after.nodes
    && after.nodes[p] == net.nodes[p].(covers := after.nodes[p].covers)
    && after.nodes[p].covers.Keys == net.nodes[p].covers.Keys + {n}
  }

  lemma Commits(d: Discipline, net: Net, conn: ConnId, n: Ip, p: Ip, id: Uuid) returns (after: Net, t: NodeState)
    requires Reachable(d, net) && Answered(net, conn) && net.answers[conn].accepted && !d.linkCare
    requires var ask := net.asks[conn]; ask.child == n && ask.parent == p && ask.wanted == Some(id)
    requires id in net.nodes[n].halfOpen
    ensures Reachable(d, after) && t == CommitPath(net.nodes[n], id, ChildKey(net, conn), Connection(p, conn))
    ensures after == net.(nodes := net.nodes[n := t], answers := net.answers - {conn}, senders := net.senders + {conn},
                          held := net.held + {(n, t.paths[id])}, rank := after.rank)
  {
    StepReaches(d, net, Commit(conn));
    after := CommitStep(net, conn);
    t := CommitPath(net.nodes[n], id, ChildKey(net, conn), Connection(p, conn));
  }

  lemma ServedAccepts(net: Net, n: Ip, p: Ip, id: Uuid, x: Exchange, served: Net)
    requires p in net.nodes && n in net.nodes && n != p && Accepts(net.nodes[p], n, id) && Unused(net, x.conn)
    requires IsServed(net, n, p, id, x, served)
    ensures served.answers[x.conn].accepted && served.nodes[n] == net.nodes[n]
    ensures served.nodes == net.nodes[p := served.nodes[p]] && Admitted(net, p, n, served)
  {
  }

  lemma GrownSo(net: Net, served: Net, after: Net, n: Ip, p: Ip, id: Uuid, x: Exchange, t: NodeState)
    requires p in net.nodes && n in net.nodes && n != p && IsServed(net, n, p, id, x, served) && Unused(net, x.conn)
    requires served.nodes == net.nodes[p := served.nodes[p]] && id in t.paths
    requires x.conn in served.links && served.links == net.links[x.conn := served.links[x.conn]]
    requires var l := served.links[x.conn]; l.child == n && l.parent == p && l.tree == id
    requires after == served.(nodes := served.nodes[n := t], answers := net.answers, senders := net.senders + {x.conn},
                              held := net.held + {(n, t.paths[id])}, rank := after.rank)
    ensures Grown(net, n, p, id, x.conn, after)
  {
  }

  lemma ConnectsOn(d: Discipline, draw: Draw, net: Net, n: Ip, p: Ip, id: Uuid, conn: ConnId) returns (after: Net)
    requires Reachable(d, net) && n in net.nodes && p in net.nodes && n != p && !d.linkCare && Unused(net, conn)
    requires Cached(net.nodes[n], p, id) && Accepts(net.nodes[p], n, id) && net.nodes[n].halfOpen[id].uuid == id
    ensures Reachable(d, after) && Grown(net, n, p, id, conn, after) && Admitted(net, p, n, after)
    ensures exists k :: after.nodes[n] == CommitPath(net.nodes[n], id, k, Connection(p, conn))
    ensures after.offers == net.offers
  {
    var x := draw(conn).(conn := conn);
    var start :| Initial(start) && CanReach(d, start, net);
    var served := Serves(d, start, net, n, p, id, x);
    ServedAccepts(net, n, p, id, x, served);
    var t;
    after, t := Commits(d, served, conn, n, p, id);
    GrownSo(net, served, after, n, p, id, x, t);
  }

  lemma StillAccepts(net: Net, after: Net, n: Ip, p: Ip, id: Uuid, s: NodeState)
    requires n != p && p in net.nodes && Accepts(net.nodes[p], n, id) && after.nodes == net.nodes[n := s]
    ensures p in after.nodes && after.nodes[p] == net.nodes[p]
  {
  }

  lemma GrownFrom(net: Net, queried: Net, after: Net, n: Ip, p: Ip, id: Uuid, conn: ConnId, s: NodeState)
    requires n in net.nodes && p in net.nodes && n != p && queried.nodes == net.nodes[n := s]
    requires queried == net.(nodes := queried.nodes, offers := queried.offers) && net.offers <= queried.offers
    requires Grown(queried, n, p, id, conn, after) && Admitted(queried, p, n, after)
    ensures Grown(net, n, p, id, conn, after) && Admitted(net, p, n, after)
  {
  }

  /** A query of q, then a connect to p. */
  lemma Hangs(d: Discipline, draw: Draw, net: Net, n: Ip, q: Ip, p: Ip, id: Uuid, conn: ConnId) returns (after: Net)
    requires Reachable(d, net) && CanConnect(d, net, n, q, p, id, conn)
    ensures Reachable(d, after) && Grown(net, n, p, id, conn, after) && Admitted(net, p, n, after)
    ensures ConnectedTo(net.nodes[n], PathAt(net, q, id), q, p, id, conn, after.nodes[n])
    ensures Told(q, n, OfferTo(net, q, n, id)) in after.offers
  {
    var queried := QueriesOnly(d, net, n, q, id);
    StillAccepts(net, queried, n, p, id, Taken(net, n, q, id));
    after := ConnectsOn(d, draw, queried, n, p, id, conn);
    GrownFrom(net, queried, after, n, p, id, conn, Taken(net, n, q, id));
  }

  // ---- Who is where ----

  /** Node n has room for two covers, these are its covers, and all it holds is a path of tree id with these hops. */
  ghost predicate Member(net: Net, n: Ip, id: Uuid, next: Hop, next2: Hop, covers: set<Ip>) {
    && HoldsOnly(net, n, id) && PathAt(net, n, id).next == next && PathAt(net, n, id).next2 == next2
    && (n, PathAt(net, n, id)) in net.held
    && net.nodes[n].covers.Keys == covers && net.nodes[n].config.maxCovers > 1
  }

  ghost predicate Newcomer(net: Net, n: Ip, id: Uuid) {
    && n in net.nodes && net.nodes[n].paths == map[] && net.nodes[n].covers == map[]
    && net.nodes[n].config.maxCovers > 1
    && NeverHeld(net, n, id)
  }

  lemma OthersStay(net: Net, n: Ip, p: Ip, id: Uuid, conn: ConnId, after: Net, m: Ip, next: Hop, next2: Hop,
                   covers: set<Ip>)
    requires Grown(net, n, p, id, conn, after) && m != n && m != p
    ensures Member(net, m, id, next, next2, covers) ==> Member(after, m, id, next, next2, covers)
    ensures Newcomer(net, m, id) ==> Newcomer(after, m, id)
  {
  }

  lemma ParentAdmits(net: Net, n: Ip, p: Ip, id: Uuid, conn: ConnId, after: Net, next: Hop, next2: Hop, covers: set<Ip>)
    requires Grown(net, n, p, id, conn, after) && Admitted(net, p, n, after) && Member(net, p, id, next, next2, covers)
    ensures Member(after, p, id, next, next2, covers + {n})
  {
  }

  lemma ChildHangs(net: Net, n: Ip, q: Ip, p: Ip, id: Uuid, conn: ConnId, after: Net, next: Hop, covers: set<Ip>)
    requires Grown(net, n, p, id, conn, after) && Holds(net, q, id) && PathAt(net, q, id).next == next
    requires n in net.nodes && (Newcomer(net, n, id) || HoldsOnly(net, n, id))
    requires net.nodes[n].covers.Keys == covers && net.nodes[n].config.maxCovers > 1
    requires ConnectedTo(net.nodes[n], PathAt(net, q, id), q, p, id, conn, after.nodes[n])
    ensures Member(after, n, id, Peer(q), next, covers)
  {
  }

  /** A network that has just started, with room for two covers at each of these nodes. */
  ghost predicate Started(net: Net, some: set<Ip>) {
    Initial(net) && forall n :: n in some ==> n in net.nodes && net.nodes[n].config.maxCovers > 1
  }

  /** Node a founds a tree. */
  lemma Founds(d: Discipline, start: Net, some: set<Ip>, a: Ip, id: Uuid) returns (net: Net)
    requires Started(start, some) && a in some
    ensures Reachable(d, net) && Member(net, a, id, Storage, Nowhere, {})
    ensures forall n :: n in some && n != a ==> Newcomer(net, n, id)
    ensures net.asks == map[] && net.answers == map[] && net.links == map[] && net.senders == {}
  {
    StartIsReachable(d, start);
    StepReaches(d, start, Found(a, id));
    net := Step(start, Found(a, id));
    assert net.nodes[a] == BecomeProxy(start.nodes[a], id);
  }

  /** Newcomer n joins under q; everybody else stays as they are. */
  lemma Joins(d: Discipline, draw: Draw, net: Net, n: Ip, q: Ip, id: Uuid, conn: ConnId, next: Hop, next2: Hop,
              covers: set<Ip>)
    returns (after: Net)
    requires Reachable(d, net) && !d.linkCare && n != q && Unused(net, conn) && Newcomer(net, n, id)
    requires Member(net, q, id, next, next2, covers) && VouchedFor(net, q, id) && n !in covers && |covers| <= 1
    ensures Reachable(d, after) && Grown(net, n, q, id, conn, after)
    ensures Member(after, q, id, next, next2, covers + {n}) && Member(after, n, id, Peer(q), next, {})
    ensures PathAt(after, n, id).cancel == Some(Connection(q, conn))
    ensures Told(q, n, OfferTo(net, q, n, id)) in after.offers
  {
    assert |net.nodes[q].covers.Keys| == |net.nodes[q].covers|;
    after := Hangs(d, draw, net, n, q, q, id, conn);
    ParentAdmits(net, n, q, id, conn, after, next, next2, covers);
    ChildHangs(net, n, q, q, id, conn, after, next, {});
  }

  /** Member n connects to its next-next hop q. */
  lemma Climbs(d: Discipline, draw: Draw, net: Net, n: Ip, q: Ip, id: Uuid, conn: ConnId, next: Hop, next2: Hop,
               covers: set<Ip>,
               below: Hop, own: set<Ip>)
    returns (after: Net)
    requires Reachable(d, net) && !d.linkCare && n != q && Unused(net, conn) && Member(net, n, id, below, Peer(q), own)
    requires Member(net, q, id, next, next2, covers) && VouchedFor(net, q, id) && n !in covers && |covers| <= 1
    ensures Reachable(d, after) && Grown(net, n, q, id, conn, after)
    ensures Member(after, q, id, next, next2, covers + {n}) && Member(after, n, id, Peer(q), next, own)
  {
    assert |net.nodes[q].covers.Keys| == |net.nodes[q].covers|;
    after := Hangs(d, draw, net, n, q, q, id, conn);
    ParentAdmits(net, n, q, id, conn, after, next, next2, covers);
    ChildHangs(net, n, q, q, id, conn, after, next, own);
  }

  // ---- Lines of members ----

  /** All connections so far, each admitted and with both workers live. */
  ghost predicate Books(net: Net, conns: set<ConnId>) {
    net.asks.Keys == conns && net.answers == map[] && net.links.Keys == conns && net.senders == conns
  }

  predicate IsLink(net: Net, conn: ConnId, child: Ip, parent: Ip, tree: Uuid) {
    conn in net.links && net.links[conn] == Link(child, parent, tree, net.links[conn].key)
  }

  /** b has joined under the root a; the others have not joined. */
  ghost predicate Two(net: Net, a: Ip, b: Ip, id: Uuid, others: set<Ip>) {
    && Member(net, a, id, Storage, Nowhere, {b}) && Member(net, b, id, Peer(a), Storage, {})
    && (forall n :: n in others ==> Newcomer(net, n, id)) && a !in others && b !in others && a != b
    && Books(net, {1}) && IsLink(net, 1, b, a, id)
  }

  /** Then c has joined under b. */
  ghost predicate Three(net: Net, a: Ip, b: Ip, c: Ip, id: Uuid, others: set<Ip>) {
    && Member(net, a, id, Storage, Nowhere, {b}) && Member(net, b, id, Peer(a), Storage, {c})
    && Member(net, c, id, Peer(b), Peer(a), {})
    && (forall n :: n in others ==> Newcomer(net, n, id)) && a !in others && b !in others && c !in others
    && a != b && a != c && b != c && Books(net, {1, 2}) && IsLink(net, 1, b, a, id)
  }

  /** Then e has joined under c. */
  ghost predicate Four(net: Net, a: Ip, b: Ip, c: Ip, e: Ip, id: Uuid) {
    && Member(net, a, id, Storage, Nowhere, {b}) && Member(net, b, id, Peer(a), Storage, {c})
    && Member(net, c, id, Peer(b), Peer(a), {e}) && Member(net, e, id, Peer(c), Peer(b), {})
    && a != b && a != c && a != e && b != c && b != e && c != e
    && Books(net, {1, 2, 3}) && IsLink(net, 3, e, c, id) && PathAt(net, e, id).cancel == Some(Connection(c, 3))
  }

  lemma NewcomersStay(net: Net, n: Ip, p: Ip, id: Uuid, conn: ConnId, after: Net, others: set<Ip>)
    requires Grown(net, n, p, id, conn, after) && n !in others && p !in others
    requires forall m :: m in others ==> Newcomer(net, m, id)
    ensures forall m :: m in others ==> Newcomer(after, m, id)
  {
    forall m | m in others ensures Newcomer(after, m, id) {
      OthersStay(net, n, p, id, conn, after, m, Storage, Nowhere, {});
    }
  }

  lemma BooksGrow(net: Net, n: Ip, p: Ip, id: Uuid, conn: ConnId, after: Net, conns: set<ConnId>)
    requires Grown(net, n, p, id, conn, after) && Books(net, conns)
    ensures Books(after, conns + {conn}) && IsLink(after, conn, n, p, id)
    ensures forall c :: c in net.links ==> after.links[c] == net.links[c]
  {
  }

  lemma NowTwo(net: Net, after: Net, a: Ip, b: Ip, id: Uuid, others: set<Ip>)
    requires Grown(net, b, a, id, 1, after) && Books(net, {}) && a !in others && b !in others && a != b
    requires forall n :: n in others ==> Newcomer(net, n, id)
    requires Member(after, a, id, Storage, Nowhere, {b}) && Member(after, b, id, Peer(a), Storage, {})
    ensures Two(after, a, b, id, others)
  {
    NewcomersStay(net, b, a, id, 1, after, others);
    BooksGrow(net, b, a, id, 1, after, {});
  }

  lemma SecondJoins(d: Discipline, draw: Draw, net: Net, a: Ip, b: Ip, id: Uuid, others: set<Ip>) returns (after: Net)
    requires Reachable(d, net) && !d.linkCare && Member(net, a, id, Storage, Nowhere, {}) && Books(net, {})
    requires (forall n :: n in others + {b} ==> Newcomer(net, n, id)) && a !in others && b !in others && a != b
    ensures Reachable(d, after) && Grown(net, b, a, id, 1, after) && Two(after, a, b, id, others)
  {
    assert b in others + {b} && {} + {b} == {b};
    after := Joins(d, draw, net, b, a, id, 1, Storage, Nowhere, {});
    NowTwo(net, after, a, b, id, others);
  }

  lemma NowThree(net: Net, after: Net, a: Ip, b: Ip, c: Ip, id: Uuid, others: set<Ip>)
    requires Grown(net, c, b, id, 2, after) && Two(net, a, b, id, others + {c}) && c !in others
    requires Member(after, b, id, Peer(a), Storage, {c}) && Member(after, c, id, Peer(b), Peer(a), {})
    ensures Three(after, a, b, c, id, others)
  {
    NewcomersStay(net, c, b, id, 2, after, others);
    BooksGrow(net, c, b, id, 2, after, {1});
    OthersStay(net, c, b, id, 2, after, a, Storage, Nowhere, {b});
  }

  lemma ThirdJoins(d: Discipline, draw: Draw, net: Net, a: Ip, b: Ip, c: Ip, id: Uuid, others: set<Ip>)
    returns (after: Net)
    requires Reachable(d, net) && !d.linkCare && Two(net, a, b, id, others + {c}) && c !in others
    ensures Reachable(d, after) && Three(after, a, b, c, id, others)
  {
    assert c in others + {c} && {} + {c} == {c};
    assert b in net.nodes[a].covers.Keys;
    after := Joins(d, draw, net, c, b, id, 2, Peer(a), Storage, {});
    NowThree(net, after, a, b, c, id, others);
  }

  lemma NowFour(net: Net, after: Net, a: Ip, b: Ip, c: Ip, e: Ip, id: Uuid)
    requires Grown(net, e, c, id, 3, after) && Three(net, a, b, c, id, {e})
    requires Member(after, c, id, Peer(b), Peer(a), {e}) && Member(after, e, id, Peer(c), Peer(b), {})
    requires PathAt(after, e, id).cancel == Some(Connection(c, 3))
    ensures Four(after, a, b, c, e, id)
  {
    BooksGrow(net, e, c, id, 3, after, {1, 2});
    OthersStay(net, e, c, id, 3, after, a, Storage, Nowhere, {b});
    OthersStay(net, e, c, id, 3, after, b, Peer(a), Storage, {c});
  }

  lemma FourthJoins(d: Discipline, draw: Draw, net: Net, a: Ip, b: Ip, c: Ip, e: Ip, id: Uuid) returns (after: Net)
    requires Reachable(d, net) && !d.linkCare && Three(net, a, b, c, id, {e})
    ensures Reachable(d, after) && Four(after, a, b, c, e, id)
  {
    assert {} + {e} == {e} && c in net.nodes[b].covers.Keys;
    after := Joins(d, draw, net, e, c, id, 3, Peer(b), Peer(a), {});
    NowFour(net, after, a, b, c, e, id);
  }

  lemma ThreeInLine(d: Discipline, draw: Draw, start: Net, a: Ip, b: Ip, c: Ip, id: Uuid, others: set<Ip>)
    returns (net: Net)
    requires Started(start, others + {a, b, c}) && a != b && a != c && b != c && !d.linkCare
    requires a !in others && b !in others && c !in others
    ensures Reachable(d, net) && Three(net, a, b, c, id, others)
  {
    net := Founds(d, start, others + {a, b, c}, a, id);
    net := SecondJoins(d, draw, net, a, b, id, others + {c});
    net := ThirdJoins(d, draw, net, a, b, c, id, others);
  }

  // ---- A path dialled elsewhere ----

  /** c queries b, which holds no path yet. */
  lemma Learned(d: Discipline, net: Net, c: Ip, b: Ip, a: Ip, id: Uuid) returns (after: Net)
    requires Reachable(d, net) && a != b && b != c && a != c
    requires Member(net, a, id, Storage, Nowhere, {}) && Newcomer(net, b, id) && Newcomer(net, c, id)
    ensures Reachable(d, after) && c in after.nodes && b in after.nodes[c].peerKeys
    ensures Member(after, a, id, Storage, Nowhere, {}) && Newcomer(after, b, id) && Newcomer(after, c, id)
    ensures after == net.(nodes := after.nodes, offers := after.offers)
  {
    assert ListsInOrder([], [], net.nodes[b].paths, net.nodes[c].publicKey);
    assert Lists([], net.nodes[b].paths, net.nodes[c].publicKey);
    var s := Learn(net.nodes[c], b, net.nodes[b].publicKey);
    assert RecordAll(s, b, [], []) == s;
    var start :| Initial(start) && CanReach(d, start, net);
    after := Queries(d, start, net, c, b, [], []);
  }

  /** Before b joins, c queries b, which has nothing to offer but its key. Later c queries a, and is then told to
      connect to b: b's key and an entry of the tree are cached, so no further query is made. The path leads through
      a, which does not know c, on a connection to b. */
  lemma MisdialledIsReached(d: Discipline, draw: Draw, start: Net, a: Ip, b: Ip, c: Ip, id: Uuid) returns (net: Net)
    requires Started(start, {a, b, c}) && a != b && b != c && a != c && !d.linkCare
    ensures Reachable(d, net) && Holds(net, c, id) && PathAt(net, c, id).next == Peer(a)
    ensures PathAt(net, c, id).cancel == Some(Connection(b, 2)) && 2 in net.senders && !PathLinked(net, c, id)
    ensures a in net.nodes && b in net.nodes && c !in net.nodes[a].covers && c in net.nodes[b].covers
  {
    var founded := Founds(d, start, {a, b, c}, a, id);
    var learned := Learned(d, founded, c, b, a, id);
    assert forall n :: n in {c} + {b} ==> Newcomer(learned, n, id);
    var joined := SecondJoins(d, draw, learned, a, b, id, {c});
    assert joined.nodes[c] == learned.nodes[c];
    net := ConnectsElsewhere(d, draw, joined, a, b, c, id);
  }

  lemma ConnectsElsewhere(d: Discipline, draw: Draw, joined: Net, a: Ip, b: Ip, c: Ip, id: Uuid) returns (net: Net)
    requires Reachable(d, joined) && !d.linkCare && Two(joined, a, b, id, {c}) && b in joined.nodes[c].peerKeys
    ensures Reachable(d, net) && Holds(net, c, id) && PathAt(net, c, id).next == Peer(a)
    ensures PathAt(net, c, id).cancel == Some(Connection(b, 2)) && 2 in net.senders && !PathLinked(net, c, id)
    ensures a in net.nodes && b in net.nodes && c !in net.nodes[a].covers && c in net.nodes[b].covers
  {
    net := Hangs(d, draw, joined, c, a, b, id, 2);
    assert net.nodes[a] == joined.nodes[a] && c in net.nodes[b].covers.Keys;
    assert c !in joined.nodes[a].covers.Keys;
  }

  // ---- Late fixes ----

  /** In the line x, a, b, c, node b has moved up from a to x, and c has been told so. */
  ghost predicate FixDue(net: Net, x: Ip, a: Ip, b: Ip, c: Ip, id: Uuid, was: Path, offer: Offer) {
    && x != a && x != b && x != c && a != b && a != c && b != c
    && Member(net, x, id, Storage, Nowhere, {a, b}) && Member(net, a, id, Peer(x), Storage, {b})
    && Member(net, c, id, Peer(b), Peer(a), {}) && was == PathAt(net, c, id) && was.cancel == Some(Connection(b, 3))
    && Told(b, c, offer) in net.offers && offer.sealedId == SealedId(net.nodes[c].publicKey, id)
    && offer.nextHop == Peer(x)
    && Books(net, {1, 2, 3, 4}) && IsLink(net, 3, c, b, id)
  }

  /** In the line x, a, b, c, node b has moved up from a to x. */
  ghost predicate MovedAbove(net: Net, x: Ip, a: Ip, b: Ip, c: Ip, id: Uuid) {
    && x != a && x != b && x != c && a != b && a != c && b != c
    && Member(net, x, id, Storage, Nowhere, {a, b}) && Member(net, a, id, Peer(x), Storage, {b})
    && Member(net, b, id, Peer(x), Storage, {c}) && Member(net, c, id, Peer(b), Peer(a), {})
    && Books(net, {1, 2, 3, 4}) && IsLink(net, 3, c, b, id) && PathAt(net, c, id).cancel == Some(Connection(b, 3))
  }

  lemma NowMoved(net: Net, after: Net, x: Ip, a: Ip, b: Ip, c: Ip, id: Uuid)
    requires Grown(net, b, x, id, 4, after) && Four(net, x, a, b, c, id)
    requires Member(after, x, id, Storage, Nowhere, {a, b}) && Member(after, b, id, Peer(x), Storage, {c})
    ensures MovedAbove(after, x, a, b, c, id)
  {
    BooksGrow(net, b, x, id, 4, after, {1, 2, 3});
    OthersStay(net, b, x, id, 4, after, a, Peer(x), Storage, {b});
    OthersStay(net, b, x, id, 4, after, c, Peer(b), Peer(a), {});
    assert after.nodes[c] == net.nodes[c] && {1, 2, 3} + {4} == {1, 2, 3, 4};
  }

  lemma MovesAbove(d: Discipline, draw: Draw, net: Net, x: Ip, a: Ip, b: Ip, c: Ip, id: Uuid) returns (after: Net)
    requires Reachable(d, net) && !d.linkCare && Four(net, x, a, b, c, id)
    ensures Reachable(d, after) && MovedAbove(after, x, a, b, c, id)
  {
    assert {a} + {b} == {a, b};
    after := Climbs(d, draw, net, b, x, id, 4, Storage, Nowhere, {a}, Peer(a), {c});
    NowMoved(net, after, x, a, b, c, id);
  }

  lemma FixBecomesDue(d: Discipline, draw: Draw, start: Net, x: Ip, a: Ip, b: Ip, c: Ip, id: Uuid)
    returns (net: Net, was: Path, offer: Offer)
    requires Started(start, {x, a, b, c}) && x != a && x != b && x != c && a != b && a != c && b != c && !d.linkCare
    ensures Reachable(d, net) && FixDue(net, x, a, b, c, id, was, offer) && b in net.nodes
    ensures Judge(net.nodes[c], id, map[b := QueryReply(net.nodes[b].publicKey, [offer])]) == Fix(offer)
  {
    assert {c} + {x, a, b} == {x, a, b, c};
    net := ThreeInLine(d, draw, start, x, a, b, id, {c});
    net := FourthJoins(d, draw, net, x, a, b, c, id);
    var moved := MovesAbove(d, draw, net, x, a, b, c, id);
    was, offer := PathAt(moved, c, id), OfferTo(moved, b, c, id);
    StepReaches(d, moved, AnswerQuery(b, c));
    net := Step(moved, AnswerQuery(b, c));
    HearsOf(moved, x, a, b, c, id);
    FixIsJudged(net, x, a, b, c, id, was, offer, net.nodes[b].publicKey);
  }

  /** The health pass of c, asking b, answers with this FIX. */
  lemma FixIsJudged(net: Net, x: Ip, a: Ip, b: Ip, c: Ip, id: Uuid, was: Path, offer: Offer, key: PublicKey)
    requires FixDue(net, x, a, b, c, id, was, offer)
    ensures Judge(net.nodes[c], id, map[b := QueryReply(key, [offer])]) == Fix(offer)
  {
    assert FindOffer([offer], net.nodes[c].publicKey, id) == Some(offer);
  }

  lemma HearsOf(moved: Net, x: Ip, a: Ip, b: Ip, c: Ip, id: Uuid)
    requires MovedAbove(moved, x, a, b, c, id)
    ensures FixDue(Step(moved, AnswerQuery(b, c)), x, a, b, c, id, PathAt(moved, c, id), OfferTo(moved, b, c, id))
  {
  }

  /** FIX corrects c's next-next hop and writes the path back after its worker has left. */
  lemma DeserterIsReached(d: Discipline, draw: Draw, start: Net, x: Ip, a: Ip, b: Ip, c: Ip, id: Uuid)
    returns (net: Net)
    requires Started(start, {x, a, b, c}) && x != a && x != b && x != c && a != b && a != c && b != c && !d.linkCare
    ensures Reachable(d, net) && Holds(net, c, id) && PathAt(net, c, id).next == Peer(b)
    ensures PathAt(net, c, id).cancel == Some(Connection(b, 3)) && 3 !in net.senders && !PathLinked(net, c, id)
  {
    var due, was, offer := FixBecomesDue(d, draw, start, x, a, b, c, id);
    net := Deserts(d, due, x, a, b, c, id, was, offer);
  }

  lemma Deserts(d: Discipline, due: Net, x: Ip, a: Ip, b: Ip, c: Ip, id: Uuid, was: Path, offer: Offer)
    returns (net: Net)
    requires Reachable(d, due) && !d.linkCare && FixDue(due, x, a, b, c, id, was, offer)
    ensures Reachable(d, net) && Holds(net, c, id) && PathAt(net, c, id) == FixedPath(was, offer) && 3 !in net.senders
    ensures !PathLinked(net, c, id)
  {
    StepReaches(d, due, SenderGone(3));
    var left := Step(due, SenderGone(3));
    assert left.nodes == due.nodes[c := DropPath(due.nodes[c], id)] && left.held == due.held
           && left.offers == due.offers;
    StepReaches(d, left, WriteFix(c, was, offer));
    net := Step(left, WriteFix(c, was, offer));
    assert PathAt(net, c, id) == FixedPath(was, offer);
  }

  /** A path whose next-next hop is the present next hop names a peer that joined later. */
  lemma OldPathSinks(d: Discipline, net: Net, a: Ip, b: Ip, c: Ip, id: Uuid, was: Path, offer: Offer)
    requires Reachable(d, net) && d.freshJoins && HangsUnder(net, c, id) && PathAt(net, c, id).next == Peer(a)
    requires (c, was) in net.held && was.uuid == id && was.next == Peer(b) && was.next2 == Peer(a)
    ensures Sinks(net, WriteFix(c, was, offer), c, id)
  {
    ReachableIsRanked(d, net);
    assert PathFalls(net.rank, c, was);
  }

  /** While FIX waits to correct c's next-next hop, c connects to a, one hop up; FIX then sets it back under b. */
  lemma LateFixSetsBack(d: Discipline, draw: Draw, start: Net, x: Ip, a: Ip, b: Ip, c: Ip, id: Uuid)
    returns (net: Net, l: Label)
    requires Started(start, {x, a, b, c}) && x != a && x != b && x != c && a != b && a != c && b != c && !d.linkCare
    ensures Reachable(d, net) && HangsUnder(net, c, id) && PathAt(net, c, id).next == Peer(a)
    ensures l.WriteFix? && Allowed(d, net, l) && Reachable(d, Step(net, l))
    ensures Holds(Step(net, l), c, id) && PathAt(Step(net, l), c, id).next == Peer(b)
    ensures d.freshJoins ==> Sinks(net, l, c, id)
  {
    var due, was, offer := FixBecomesDue(d, draw, start, x, a, b, c, id);
    net := Climbs(d, draw, due, c, a, id, 5, Peer(x), Storage, {b}, Peer(b), {});
    l := WriteFix(c, was, offer);
    StepReaches(d, net, l);
    assert PathAt(Step(net, l), c, id) == FixedPath(was, offer);
    if d.freshJoins {
      OldPathSinks(d, net, a, b, c, id, was, offer);
    }
  }

  // ---- A cycle ----

  /** A node that lost a tree while a cover c of it, with room of its own, still holds the tree through it can be led
      into a cycle of length two. */
  lemma LostParentClosesCycle(draw: Draw, net: Net, b: Ip, c: Ip, id: Uuid, conn: ConnId) returns (after: Net)
    requires Reachable(LAWLESS, net) && CanConnect(LAWLESS, net, b, c, c, id, conn)
             && PathAt(net, c, id).next == Peer(b)
    ensures Reachable(LAWLESS, after) && Leads(after.nodes, id, b, b, 2)
  {
    after := Hangs(LAWLESS, draw, net, b, c, c, id, conn);
    assert PathAt(after, c, id).next == Peer(b) && PathAt(after, b, id).next == Peer(c);
    assert Leads(after.nodes, id, b, b, 0) && Leads(after.nodes, id, c, b, 1);
  }

  lemma LosesItsPath(net: Net, a: Ip, b: Ip, c: Ip, id: Uuid) returns (lost: Net)
    requires Reachable(LAWLESS, net) && Three(net, a, b, c, id, {})
    ensures Reachable(LAWLESS, lost) && CanConnect(LAWLESS, lost, b, c, c, id, 3) && PathAt(lost, c, id).next == Peer(b)
  {
    StepReaches(LAWLESS, net, SenderGone(1));
    lost := Step(net, SenderGone(1));
    assert lost.nodes == net.nodes[b := DropPath(net.nodes[b], id)];
    assert lost.nodes[c] == net.nodes[c] && |net.nodes[c].covers.Keys| == |net.nodes[c].covers|;
  }

  /** From any three nodes that have just started: b loses its path after both joins and joins again under c. */
  lemma RejoinReachesCycle(draw: Draw, start: Net, a: Ip, b: Ip, c: Ip, id: Uuid) returns (net: Net)
    requires Started(start, {a, b, c}) && a != b && b != c && a != c
    ensures Reachable(LAWLESS, net) && Leads(net.nodes, id, b, b, 2)
  {
    assert {} + {a, b, c} == {a, b, c};
    net := ThreeInLine(LAWLESS, draw, start, a, b, c, id, {});
    net := LosesItsPath(net, a, b, c, id);
    net := LostParentClosesCycle(draw, net, b, c, id, 3);
  }
}
