/** The longer operations of a node are runs of the network: a query, a connect, MoveUp in all its branches and a
    health pass, each cut into the labels of module Overlay, leave the node as its own step function says. */
module Composites {
  import opened Profiles
  import opened KeyExchange
  import opened NodeSteps
  import opened Overlay
  import opened Permanence
  import opened Links
  import NodeObject

  // ---- Longer runs ----

  lemma StaysPut(d: Discipline, net: Net)
    ensures CanReach(d, net, net)
  {
    var run: seq<Label> := [];
    assert Run(d, [net], run) && [net][0] == net && [net][|run|] == net;
  }

  lemma ReachStep(d: Discipline, from: Net, net: Net, l: Label)
    requires CanReach(d, from, net) && Allowed(d, net, l)
    ensures CanReach(d, from, Step(net, l))
  {
    var nets, run :| Run(d, nets, run) && nets[0] == from && nets[|run|] == net;
    var nets', run' := nets + [Step(net, l)], run + [l];
    forall i: nat ensures StepAt(d, nets', run', i) {
      assert StepAt(d, nets, run, i);
    }
    assert Run(d, nets', run') && nets'[0] == from && nets'[|run'|] == Step(net, l);
  }

  lemma ReachOn(d: Discipline, from: Net, net: Net, after: Net)
    requires CanReach(d, from, net) && CanReach(d, net, after)
    ensures CanReach(d, from, after)
  {
    var nets, run :| Run(d, nets, run) && nets[0] == from && nets[|run|] == net;
    var nets', run' :| Run(d, nets', run') && nets'[0] == net && nets'[|run'|] == after;
    var both, all := nets + nets'[1..], run + run';
    forall i: nat ensures StepAt(d, both, all, i) {
      assert StepAt(d, nets, run, i);
      if i >= |run| {
        assert StepAt(d, nets', run', i - |run|);
      }
    }
    assert Run(d, both, all) && both[0] == from && both[|all|] == after;
  }

  lemma StillReachable(d: Discipline, from: Net, net: Net)
    requires Reachable(d, from) && CanReach(d, from, net)
    ensures Reachable(d, net)
  {
    var start :| Initial(start) && CanReach(d, start, from);
    ReachOn(d, start, from, net);
  }

  // ---- Queries ----

  /** Every offer may be taken in a run of discipline d. */
  ghost predicate MayRecord(d: Discipline, net: Net, n: Ip, q: Ip, offers: seq<Offer>) {
    d.freshJoins ==> forall o :: o in offers ==> FreshJoin(net, RecordOffer(n, q, o, true))
  }

  lemma FreshStaysFresh(net: Net, after: Net, n: Ip, q: Ip, o: Offer, vouched: bool)
    requires after.held == net.held && FreshJoin(net, RecordOffer(n, q, o, true))
    ensures FreshJoin(after, RecordOffer(n, q, o, vouched))
  {
  }

  predicate AllTold(told: set<Told>, n: Ip, q: Ip, offers: seq<Offer>) {
    forall o :: o in offers ==> Told(q, n, o) in told
  }

  lemma {:induction false} Records(d: Discipline, from: Net, net: Net, n: Ip, q: Ip, offers: seq<Offer>,
                                   vouched: seq<bool>)
    returns (after: Net)
    requires CanReach(d, from, net) && n in net.nodes && q in net.nodes[n].peerKeys && MayRecord(d, net, n, q, offers)
    requires AllTold(net.offers, n, q, offers)
    ensures CanReach(d, from, after)
    ensures after == net.(nodes := net.nodes[n := RecordAll(net.nodes[n], q, offers, vouched)])
  {
    if offers == [] {
      after := net;
      assert net.nodes[n := net.nodes[n]] == net.nodes;
    } else {
      var k := |offers| - 1;
      var before := Records(d, from, net, n, q, offers[..k], vouched);
      after := RecordsOne(d, from, before, n, q, offers[k], Vouches(vouched, k), net);
    }
  }

  lemma RecordsOne(d: Discipline, from: Net, net: Net, n: Ip, q: Ip, o: Offer, vouched: bool, start: Net)
    returns (after: Net)
    requires CanReach(d, from, net) && n in net.nodes && q in net.nodes[n].peerKeys && Told(q, n, o) in net.offers
    requires start.held == net.held && (d.freshJoins ==> FreshJoin(start, RecordOffer(n, q, o, true)))
    ensures CanReach(d, from, after) && after == net.(nodes := net.nodes[n := Record(net.nodes[n], q, o, vouched)])
  {
    if d.freshJoins {
      FreshStaysFresh(start, net, n, q, o, vouched);
    }
    ReachStep(d, from, net, RecordOffer(n, q, o, vouched));
    after := Step(net, RecordOffer(n, q, o, vouched));
  }

  lemma RecordingKeepsKeys(s: NodeState, q: Ip, offers: seq<Offer>, vouched: seq<bool>)
    ensures RecordAll(s, q, offers, vouched).peerKeys == s.peerKeys
  {
  }

  /** What node n knows after a query of q that brought these offers and verdicts. */
  function Queried(net: Net, n: Ip, q: Ip, offers: seq<Offer>, vouched: seq<bool>): NodeState
    requires n in net.nodes && q in net.nodes
  {
    LearnFrom(net.nodes[n], q, QueryReply(net.nodes[q].publicKey, offers), vouched)
  }

  /** The query is answered, and the answer's key is cached. */
  lemma Learns(d: Discipline, from: Net, net: Net, n: Ip, q: Ip) returns (after: Net)
    requires CanReach(d, from, net) && n in net.nodes && q in net.nodes && n != q
    ensures CanReach(d, from, after) && after.offers == Step(net, AnswerQuery(q, n)).offers
    ensures after == net.(nodes := net.nodes[n := Learn(net.nodes[n], q, net.nodes[q].publicKey)],
                          offers := after.offers)
  {
    ReachStep(d, from, net, AnswerQuery(q, n));
    var answered := Step(net, AnswerQuery(q, n));
    ReachStep(d, from, answered, LearnKey(n, q));
    after := Step(answered, LearnKey(n, q));
  }

  lemma MayStillRecord(d: Discipline, net: Net, after: Net, n: Ip, q: Ip, offers: seq<Offer>)
    requires after.held == net.held && MayRecord(d, net, n, q, offers)
    ensures MayRecord(d, after, n, q, offers)
  {
    forall o | d.freshJoins && o in offers ensures FreshJoin(after, RecordOffer(n, q, o, true)) {
      FreshStaysFresh(net, after, n, q, o, true);
    }
  }

  lemma TwicePut(nodes: map<Ip, NodeState>, n: Ip, s: NodeState, t: NodeState)
    ensures nodes[n := s][n := t] == nodes[n := t]
  {
  }

  /** A whole QueryPath, its reply being what q holds at this moment. */
  lemma Queries(d: Discipline, from: Net, net: Net, n: Ip, q: Ip, offers: seq<Offer>, vouched: seq<bool>)
    returns (after: Net)
    requires CanReach(d, from, net) && n in net.nodes && q in net.nodes && n != q && MayRecord(d, net, n, q, offers)
    requires Lists(offers, net.nodes[q].paths, net.nodes[n].publicKey)
    ensures CanReach(d, from, after) && net.offers <= after.offers && AllTold(after.offers, n, q, offers)
    ensures after == net.(nodes := net.nodes[n := Queried(net, n, q, offers, vouched)], offers := after.offers)
  {
    var learned := Learns(d, from, net, n, q);
    AnswerTells(net, n, q, offers, learned.offers);
    MayStillRecord(d, net, learned, n, q, offers);
    after := Records(d, from, learned, n, q, offers, vouched);
    TwicePut(net.nodes, n, learned.nodes[n], after.nodes[n]);
  }

  lemma AnswerTells(net: Net, n: Ip, q: Ip, offers: seq<Offer>, told: set<Told>)
    requires n in net.nodes && q in net.nodes && n != q && told == Step(net, AnswerQuery(q, n)).offers
    requires Lists(offers, net.nodes[q].paths, net.nodes[n].publicKey)
    ensures net.offers <= told && AllTold(told, n, q, offers)
  {
    var order :| ListsInOrder(offers, order, net.nodes[q].paths, net.nodes[n].publicKey);
    forall o | o in offers ensures Told(q, n, o) in told {
      var i :| 0 <= i < |offers| && offers[i] == o;
      assert order[i] in net.nodes[q].paths;
    }
  }

  // ---- Connects ----

  /** The secrets and numbers of one exchange; the child asks on connection conn. */
  datatype Exchange = Exchange(g: nat, m: nat, childSecret: Secret, parentSecret: Secret, conn: ConnId)

  predicate Unused(net: Net, conn: ConnId) {
    conn !in net.asks && conn !in net.answers && conn !in net.links
  }

  /** What the parent's handler makes of the request. */
  function Served(net: Net, n: Ip, p: Ip, id: Uuid, x: Exchange): (NodeState, Option<ConnectReply>)
    requires p in net.nodes
  {
    var exchange := NewKeyExchange(x.g, x.m, x.childSecret);
    HandleConnectPath(net.nodes[p], n, SealedId(net.nodes[p].publicKey, id), exchange, x.parentSecret, x.conn)
  }

  /** The dialogue of a connect whose reply is the parent's. */
  function Talk(net: Net, n: Ip, p: Ip, id: Uuid, x: Exchange, query: Option<QueryReply>, vouched: seq<bool>): Dialogue
    requires p in net.nodes
  {
    Dialogue(query, vouched, Served(net, n, p, id, x).1, x.childSecret, x.conn)
  }

  ghost predicate MayCommit(d: Discipline, s: NodeState, p: Ip, id: Uuid) {
    d.linkCare && id in s.halfOpen ==> s.halfOpen[id].next == Peer(p)
  }

  lemma Requests(d: Discipline, from: Net, net: Net, n: Ip, p: Ip, id: Uuid, x: Exchange) returns (after: Net)
    requires CanReach(d, from, net) && n in net.nodes && p in net.nodes && n != p && p in net.nodes[n].peerKeys
    requires Unused(net, x.conn)
    ensures CanReach(d, from, after) && Enabled(after, Admit(x.conn, x.parentSecret, true))
    ensures after == net.(asks := net.asks[x.conn := Ask(n, p, Some(id), NewKeyExchange(x.g, x.m, x.childSecret),
                                                          x.childSecret)])
  {
    var l := Request(n, p, Some(id), x.conn, x.g, x.m, x.childSecret);
    ReachStep(d, from, net, l);
    after := Step(net, l);
  }

  /** The parent's answer is that of its handler. */
  predicate AnsweredAs(net: Net, conn: ConnId, reply: Option<ConnectReply>) {
    conn in net.answers && reply == Some(ConnectReply(net.answers[conn].accepted, net.answers[conn].exchange))
  }

  /** Nothing but the ends of one connect differs. */
  predicate OnlyConnects(net: Net, after: Net) {
    after == net.(nodes := after.nodes, asks := after.asks, answers := after.answers, links := after.links,
                  workers := after.workers, senders := after.senders, held := after.held, rank := after.rank)
  }

  /** The network once the request has been served. */
  ghost predicate IsServed(net: Net, n: Ip, p: Ip, id: Uuid, x: Exchange, after: Net)
    requires p in net.nodes
  {
    && after.asks == net.asks[x.conn := Ask(n, p, Some(id), NewKeyExchange(x.g, x.m, x.childSecret), x.childSecret)]
    && after.nodes == net.nodes[p := Served(net, n, p, id, x).0]
    && AnsweredAs(after, x.conn, Served(net, n, p, id, x).1)
    && after.answers - {x.conn} == net.answers && OnlyConnects(net, after)
    && after.held == net.held && after.rank == net.rank && after.senders == net.senders
  }

  lemma AdmitServes(net: Net, asked: Net, n: Ip, p: Ip, id: Uuid, x: Exchange)
    requires n in net.nodes && p in net.nodes && n != p && Unused(net, x.conn)
    requires asked == net.(asks := net.asks[x.conn := Ask(n, p, Some(id), NewKeyExchange(x.g, x.m, x.childSecret),
                                                          x.childSecret)])
    ensures IsServed(net, n, p, id, x, AdmitStep(asked, x.conn, x.parentSecret, true))
  {
    var after := AdmitStep(asked, x.conn, x.parentSecret, true);
    AdmitIsHandleConnectPath(asked, x.conn, x.parentSecret);
    assert after.answers - {x.conn} == net.answers;
  }

  lemma Serves(d: Discipline, from: Net, net: Net, n: Ip, p: Ip, id: Uuid, x: Exchange) returns (after: Net)
    requires CanReach(d, from, net) && n in net.nodes && p in net.nodes && n != p && p in net.nodes[n].peerKeys
    requires Unused(net, x.conn)
    ensures CanReach(d, from, after) && Answered(after, x.conn) && IsServed(net, n, p, id, x, after)
    ensures Accepts(net.nodes[p], n, id) ==>
              after.links == net.links[x.conn := Link(n, p, id, GetSymKey(after.asks[x.conn].exchange, x.parentSecret))]
  {
    var asked := Requests(d, from, net, n, p, id, x);
    ReachStep(d, from, asked, Admit(x.conn, x.parentSecret, true));
    after := AdmitStep(asked, x.conn, x.parentSecret, true);
    AdmitServes(net, asked, n, p, id, x);
  }

  /** The request, the parent's service and the commit of what it answers: the rest of ConnectPath at the child. */
  lemma Connects(d: Discipline, from: Net, net: Net, n: Ip, p: Ip, id: Uuid, x: Exchange) returns (after: Net)
    requires CanReach(d, from, net) && n in net.nodes && p in net.nodes && n != p && p in net.nodes[n].peerKeys
    requires Unused(net, x.conn) && MayCommit(d, net.nodes[n], p, id)
    ensures CanReach(d, from, after) && OnlyConnects(net, after)
    ensures after.nodes == net.nodes[p := Served(net, n, p, id, x).0]
                                    [n := FinishConnect(net.nodes[n], p, id, Talk(net, n, p, id, x, None, [])).0]
  {
    var served := Serves(d, from, net, n, p, id, x);
    assert served.nodes[n] == net.nodes[n];
    CommitIsConnectPath(served, x.conn, Talk(net, n, p, id, x, None, []));
    ReachStep(d, from, served, Commit(x.conn));
    after := CommitStep(served, x.conn);
    CommitIsOnlyConnect(served, x.conn);
  }

  lemma CommitIsOnlyConnect(net: Net, conn: ConnId)
    requires Answered(net, conn) && net.asks[conn].wanted.Some?
    ensures OnlyConnects(net, CommitStep(net, conn))
  {
  }

  // ---- MoveUp's last resort ----

  lemma {:induction false} CoversLeave(from: Net, net: Net, n: Ip, ips: set<Ip>) returns (after: Net)
    requires Reachable(LAWLESS, from) && CanReach(LAWLESS, from, net) && n in net.nodes
    requires forall ip :: ip in ips ==> ip in net.nodes[n].covers && net.nodes[n].covers[ip].worker in net.workers
    ensures CanReach(LAWLESS, from, after) && after.founder == net.founder
    ensures var s := net.nodes[n]; after.nodes == net.nodes[n := s.(covers := s.covers - ips)]
    decreases ips
  {
    if ip :| ip in ips {
      var s := net.nodes[n];
      var w := s.covers[ip].worker;
      StillReachable(LAWLESS, from, net);
      ReachableAgrees(LAWLESS, net);
      assert CoverAdmitted(net, n, ip) && WorkerOwns(net, w);
      ReachStep(LAWLESS, from, net, WorkerGone(w));
      var next := Step(net, WorkerGone(w));
      assert next.nodes[n] == CoverExit(s, ip) && next.workers == net.workers - {w};
      forall other | other in ips - {ip} ensures next.nodes[n].covers[other].worker in next.workers {
        assert CoverAdmitted(net, n, other);
      }
      after := CoversLeave(from, next, n, ips - {ip});
      assert s.covers - {ip} - (ips - {ip}) == s.covers - ips;
    } else {
      after := net;
      assert net.nodes[n].covers - ips == net.nodes[n].covers && net.nodes[n := net.nodes[n]] == net.nodes;
    }
  }

  lemma CancelledAre(s: NodeState, id: Uuid, live: set<ConnId>, ips: set<Ip>)
    requires ips == set ip | ip in s.covers && s.covers[ip].tree == id && s.covers[ip].worker in live
    ensures s.(covers := s.covers - ips) == CancelCovers(s, id, live)
  {
  }

  lemma FallsBack(from: Net, net: Net, n: Ip, id: Uuid, freshId: Uuid) returns (after: Net)
    requires Reachable(LAWLESS, from) && CanReach(LAWLESS, from, net) && n in net.nodes && freshId !in net.founder
    ensures CanReach(LAWLESS, from, after)
    ensures after.nodes == net.nodes[n := FallBack(net.nodes[n], id, freshId, net.workers.Keys)]
  {
    var s, live := net.nodes[n], net.workers.Keys;
    var ips := set ip | ip in s.covers && s.covers[ip].tree == id && s.covers[ip].worker in live;
    var left := CoversLeave(from, net, n, ips);
    CancelledAre(s, id, live, ips);
    after := FoundsAt(from, left, n, freshId);
    assert after.nodes == net.nodes[n := BecomeProxy(left.nodes[n], freshId)];
  }

  lemma FoundsAt(from: Net, net: Net, n: Ip, freshId: Uuid) returns (after: Net)
    requires CanReach(LAWLESS, from, net) && n in net.nodes && freshId !in net.founder
    ensures CanReach(LAWLESS, from, after) && after.nodes == net.nodes[n := BecomeProxy(net.nodes[n], freshId)]
  {
    ReachStep(LAWLESS, from, net, Found(n, freshId));
    after := Step(net, Found(n, freshId));
  }

  // ---- MoveUp ----

  /** What becomes of a connect: its query finds nobody, its request does not arrive, it is served but no answer comes
      back (whether or not the parent could send one), or the answer comes back. */
  datatype Fate = QueryFails | RequestLost | ReplyLost(sent: bool) | Replied

  /** Node n has to query q, or q holds what the query brings. */
  ghost predicate Prepares(net: Net, n: Ip, q: Ip, id: Uuid, offers: seq<Offer>, fate: Fate)
    requires n in net.nodes && q in net.nodes
  {
    if fate.QueryFails? then !Cached(net.nodes[n], q, id)
    else Cached(net.nodes[n], q, id) || Lists(offers, net.nodes[q].paths, net.nodes[n].publicKey)
  }

  /** What n hears in such a connect to q. */
  function Heard(net: Net, n: Ip, q: Ip, id: Uuid, offers: seq<Offer>, vouched: seq<bool>, x: Exchange,
                 fate: Fate): Dialogue
    requires q in net.nodes
  {
    Dialogue(if fate.QueryFails? then None else Some(QueryReply(net.nodes[q].publicKey, offers)), vouched,
             if fate.Replied? then Served(net, n, q, id, x).1 else None, x.childSecret, x.conn)
  }

  /** The nodes once q has served the request, if it has arrived. */
  function ServedNodes(net: Net, n: Ip, q: Ip, id: Uuid, x: Exchange, fate: Fate): map<Ip, NodeState>
    requires q in net.nodes
  {
    if fate.ReplyLost? || fate.Replied? then net.nodes[q := Served(net, n, q, id, x).0] else net.nodes
  }

  lemma ServesInVain(from: Net, net: Net, n: Ip, p: Ip, id: Uuid, x: Exchange, sent: bool) returns (after: Net)
    requires CanReach(LAWLESS, from, net) && n in net.nodes && p in net.nodes && n != p
    requires p in net.nodes[n].peerKeys && Unused(net, x.conn)
    ensures CanReach(LAWLESS, from, after) && after.founder == net.founder
    ensures after.nodes == net.nodes[p := Served(net, n, p, id, x).0]
  {
    var asked := Requests(LAWLESS, from, net, n, p, id, x);
    ReachStep(LAWLESS, from, asked, Admit(x.conn, x.parentSecret, sent));
    after := AdmitStep(asked, x.conn, x.parentSecret, sent);
    AdmitIsHandleConnectPath(asked, x.conn, x.parentSecret);
    assert after.nodes == AdmitStep(asked, x.conn, x.parentSecret, true).nodes;
  }

  lemma PreparesFor(from: Net, net: Net, n: Ip, q: Ip, id: Uuid, offers: seq<Offer>, vouched: seq<bool>)
    returns (after: Net)
    requires CanReach(LAWLESS, from, net) && n in net.nodes && q in net.nodes && n != q
    requires Cached(net.nodes[n], q, id) || Lists(offers, net.nodes[q].paths, net.nodes[n].publicKey)
    ensures CanReach(LAWLESS, from, after)
    ensures n in after.nodes && q in after.nodes[n].peerKeys
    ensures after == net.(nodes := net.nodes[n := after.nodes[n]], offers := after.offers)
    ensures var d := Dialogue(Some(QueryReply(net.nodes[q].publicKey, offers)), vouched, None, 0, 0);
            Prepare(net.nodes[n], q, id, d) == Some(after.nodes[n])
  {
    after := net;
    if !Cached(net.nodes[n], q, id) {
      after := Queries(LAWLESS, from, net, n, q, offers, vouched);
      RecordingKeepsKeys(Learn(net.nodes[n], q, net.nodes[q].publicKey), q, offers, vouched);
    }
  }

  /** The whole of ConnectPath: a query unless it is cached, then the connect, with whatever becomes of either. */
  lemma ConnectPathIsRun(net: Net, n: Ip, q: Ip, id: Uuid, offers: seq<Offer>, vouched: seq<bool>, x: Exchange,
                         fate: Fate)
    returns (after: Net)
    requires n in net.nodes && q in net.nodes && n != q && Unused(net, x.conn) && Prepares(net, n, q, id, offers, fate)
    ensures CanReach(LAWLESS, net, after) && after.founder == net.founder
    ensures var d := Heard(net, n, q, id, offers, vouched, x, fate);
            after.nodes == ServedNodes(net, n, q, id, x, fate)[n := ConnectPath(net.nodes[n], q, id, d).0]
  {
    StaysPut(LAWLESS, net);
    after := net;
    if fate.QueryFails? {
      assert net.nodes[n := net.nodes[n]] == net.nodes;
    } else {
      var prepared := PreparesFor(net, net, n, q, id, offers, vouched);
      assert prepared.nodes[q] == net.nodes[q];
      match fate {
        case RequestLost => after := prepared;
        case ReplyLost(sent) =>
          after := ServesInVain(net, prepared, n, q, id, x, sent);
          Overwritten(net.nodes, n, prepared.nodes[n], q, Served(net, n, q, id, x).0, prepared.nodes[n]);
        case Replied =>
          after := Connects(LAWLESS, net, prepared, n, q, id, x);
          Overwritten(net.nodes, n, prepared.nodes[n], q, Served(net, n, q, id, x).0, after.nodes[n]);
      }
    }
  }

  lemma Overwritten(nodes: map<Ip, NodeState>, n: Ip, s: NodeState, p: Ip, t: NodeState, u: NodeState)
    requires n != p
    ensures nodes[n := s][p := t][n := u] == nodes[p := t][n := u]
  {
  }

  lemma ConfirmedMoveUp(net: Net, n: Ip, was: Path, q: Ip, offers: seq<Offer>, vouched: seq<bool>, x: Exchange,
                        fate: Fate, freshId: Uuid)
    returns (mid: Net, after: Net)
    requires Reachable(LAWLESS, net) && n in net.nodes && Unused(net, x.conn) && freshId !in net.founder
    requires was.next2 == Peer(q) && q in net.nodes && q != n && Prepares(net, n, q, was.uuid, offers, fate)
    ensures CanReach(LAWLESS, net, mid) && CanReach(LAWLESS, mid, after)
    ensures var d := Heard(net, n, q, was.uuid, offers, vouched, x, fate);
            var t := NodeSteps.MoveUp(net.nodes[n], was, Some(true), d, freshId, mid.workers.Keys).0;
            after.nodes == ServedNodes(net, n, q, was.uuid, x, fate)[n := t]
  {
    var d := Heard(net, n, q, was.uuid, offers, vouched, x, fate);
    mid := ConnectPathIsRun(net, n, q, was.uuid, offers, vouched, x, fate);
    after := mid;
    StaysPut(LAWLESS, mid);
    var (s, outcome) := ConnectPath(net.nodes[n], q, was.uuid, d);
    if outcome != Connected {
      StillReachable(LAWLESS, net, mid);
      after := FallsBack(mid, mid, n, was.uuid, freshId);
      TwicePut(ServedNodes(net, n, q, was.uuid, x, fate), n, s, after.nodes[n]);
    }
  }

  /** MoveUp, whatever its next-next hop says and whatever becomes of the connect, is a run of the network: n ends as
      NodeSteps.MoveUp says, with `live` the cover workers that run when it comes to the last resort (in `mid`), the
      next-next hop as its handler says if a request reached it, and nobody else is touched. */
  lemma MoveUpIsRun(net: Net, n: Ip, was: Path, confirmed: Option<bool>, offers: seq<Offer>, vouched: seq<bool>,
                    x: Exchange, fate: Fate, freshId: Uuid)
    returns (mid: Net, after: Net)
    requires Reachable(LAWLESS, net) && n in net.nodes && Unused(net, x.conn) && freshId !in net.founder
    requires was.next2.Peer? ==>
               && was.next2.ip in net.nodes && was.next2.ip != n
               && Prepares(net, n, was.next2.ip, was.uuid, offers, fate)
    ensures CanReach(LAWLESS, net, mid) && CanReach(LAWLESS, mid, after)
    ensures !was.next2.Peer? ==> after == net
    ensures was.next2.Peer? ==>
              var q, live := was.next2.ip, mid.workers.Keys;
              var d := Heard(net, n, q, was.uuid, offers, vouched, x, fate);
              var asked := if confirmed == Some(true) then ServedNodes(net, n, q, was.uuid, x, fate) else net.nodes;
              after.nodes == asked[n := NodeSteps.MoveUp(net.nodes[n], was, confirmed, d, freshId, live).0]
  {
    mid, after := net, net;
    StaysPut(LAWLESS, net);
    if was.next2.Peer? && confirmed == Some(true) {
      mid, after := ConfirmedMoveUp(net, n, was, was.next2.ip, offers, vouched, x, fate, freshId);
    } else if was.next2.Peer? && confirmed == Some(false) {
      after := FallsBack(net, net, n, was.uuid, freshId);
    } else {
      assert net.nodes[n := net.nodes[n]] == net.nodes;
    }
  }

  // ---- A health pass ----

  /** Each answer is made of what its sender once told n. */
  ghost predicate ToldAnswers(net: Net, n: Ip, answers: map<Ip, QueryReply>) {
    forall ip :: ip in answers ==> AllTold(net.offers, n, ip, answers[ip].offers)
  }

  /** The pass has dealt with the ids in `done`; `healed` is what it comes to in the end. */
  ghost predicate PassedSoFar(start: Net, net: Net, n: Ip, healed: map<Uuid, Path>, done: set<Uuid>) {
    && CanReach(LAWLESS, start, net) && n in start.nodes
    && net.nodes == start.nodes[n := NodeObject.HealedSoFar(start.nodes[n], healed, done)]
    && net.offers == start.offers && net.links == start.links && start.held <= net.held
    && forall id :: id in start.nodes[n].paths && id !in done ==> SameWorkers(start, net, start.nodes[n].paths[id])
  }

  predicate SameWorkers(start: Net, net: Net, p: Path) {
    p.cancel.Some? ==> (p.cancel.value.id in net.senders <==> p.cancel.value.id in start.senders)
  }

  /** One more id is dealt with when node n comes from its state so far to the state with that id done. */
  lemma PassesOn(start: Net, net: Net, after: Net, n: Ip, healed: map<Uuid, Path>, done: set<Uuid>, id: Uuid,
                 t: NodeState)
    requires PassedSoFar(start, net, n, healed, done) && CanReach(LAWLESS, start, after)
    requires after.nodes == net.nodes[n := t] && t == NodeObject.HealedSoFar(start.nodes[n], healed, done + {id})
    requires after.offers == net.offers && after.links == net.links && net.held <= after.held
    requires forall k :: k in start.nodes[n].paths && k !in done + {id} ==>
               SameWorkers(start, after, start.nodes[n].paths[k])
    ensures PassedSoFar(start, after, n, healed, done + {id})
  {
    TwicePut(start.nodes, n, net.nodes[n], t);
  }

  lemma WorkerLeaves(start: Net, net: Net, n: Ip, id: Uuid, done: set<Uuid>) returns (after: Net)
    requires Agreeing(start) && n in start.nodes && id in start.nodes[n].paths && start.nodes[n].paths[id].cancel.Some?
    requires CanReach(LAWLESS, start, net) && net.links == start.links && n in net.nodes
    requires start.nodes[n].paths[id].cancel.value.id in net.senders
    requires forall k :: k in start.nodes[n].paths && k !in done ==> SameWorkers(start, net, start.nodes[n].paths[k])
    ensures CanReach(LAWLESS, start, after)
    ensures after.nodes == net.nodes[n := SenderExit(net.nodes[n], id, start.nodes[n].paths[id].cancel.value.ip)]
    ensures after.offers == net.offers && after.links == net.links && after.held == net.held
    ensures forall k :: k in start.nodes[n].paths && k !in done + {id} ==>
              SameWorkers(start, after, start.nodes[n].paths[k])
  {
    var s := start.nodes[n];
    var c := s.paths[id].cancel.value.id;
    assert NodeSound(start, n) && KeyHeld(start, n, s.paths[id]);
    ReachStep(LAWLESS, start, net, SenderGone(c));
    after := Step(net, SenderGone(c));
    forall k | k in s.paths && k !in done + {id} ensures SameWorkers(start, after, s.paths[k]) {
      assert SameWorkers(start, net, s.paths[k]) && KeyHeld(start, n, s.paths[k]);
    }
  }

  lemma CleansOne(start: Net, net: Net, n: Ip, healed: map<Uuid, Path>, done: set<Uuid>, id: Uuid) returns (after: Net)
    requires Agreeing(start) && PassedSoFar(start, net, n, healed, done)
    requires id in start.nodes[n].paths && id !in done
    requires var p := start.nodes[n].paths[id];
             && p.uuid == id && p.cancel.Some?
             && (id in healed <==> !Attended(start.senders, p)) && (id in healed ==> healed[id] == p)
    ensures PassedSoFar(start, after, n, healed, done + {id})
  {
    var s, p := start.nodes[n], start.nodes[n].paths[id];
    assert SameWorkers(start, net, p);
    NodeObject.CleanOneMore(s, healed, start.senders, done, p);
    var t := NodeObject.HealedSoFar(s, healed, done + {id});
    if p.cancel.value.id in net.senders {
      after := WorkerLeaves(start, net, n, id, done);
    } else {
      after := net;
      assert net.nodes[n := net.nodes[n]] == net.nodes;
    }
    PassesOn(start, net, after, n, healed, done, id, t);
  }

  lemma FixesOne(start: Net, net: Net, n: Ip, healed: map<Uuid, Path>, done: set<Uuid>, id: Uuid, o: Offer)
    returns (after: Net)
    requires PassedSoFar(start, net, n, healed, done) && id in start.nodes[n].paths && id !in done
    requires var p := start.nodes[n].paths[id];
             && p.uuid == id && id in healed && healed[id] == FixedPath(p, o) && (n, p) in start.held && p.next.Peer?
             && Told(p.next.ip, n, o) in start.offers && o.sealedId.id == id
             && (p.next2 != o.nextHop || p.proxyPublic != o.proxyPublic)
    ensures PassedSoFar(start, after, n, healed, done + {id})
  {
    var p := start.nodes[n].paths[id];
    NodeObject.FixOneMore(start.nodes[n], healed, done, p, o);
    ReachStep(LAWLESS, start, net, WriteFix(n, p, o));
    after := Step(net, WriteFix(n, p, o));
    PassesOn(start, net, after, n, healed, done, id, Repair(net.nodes[n], p, o));
  }

  /** A FIX that the network allows is one that the node's health pass calls for while it holds the path that it is
      given, when the next hop answers with this offer. */
  lemma FixIsCalledFor(d: Discipline, net: Net, n: Ip, was: Path, offer: Offer, key: PublicKey)
    requires Reachable(d, net) && Enabled(net, WriteFix(n, was, offer))
    ensures var s := net.nodes[n].(paths := net.nodes[n].paths[was.uuid := was]);
            Judge(s, was.uuid, map[was.next.ip := QueryReply(key, [offer])]) == Fix(offer)
  {
    ReachableIsSound(d, net);
    assert ToldSound(net, Told(was.next.ip, n, offer));
    assert FindOffer([offer], net.nodes[n].publicKey, was.uuid) == Some(offer);
  }

  /** What the verdict on a path says about what becomes of it, and that the network can do it. */
  lemma Judged(net: Net, n: Ip, answers: map<Ip, QueryReply>, id: Uuid)
    requires Agreeing(net) && n in net.nodes && id in net.nodes[n].paths && ToldAnswers(net, n, answers)
    ensures var s, p, v := net.nodes[n], net.nodes[n].paths[id], Judge(net.nodes[n], id, answers);
            var healed := HealthPass(s, answers, net.senders).paths;
            && p.uuid == id && (n, p) in net.held
            && (v == Clean ==>
                  p.cancel.Some? && (id in healed <==> !Attended(net.senders, p)) && (id in healed ==> healed[id] == p))
            && (v.Fix? ==>
                  && id in healed && healed[id] == FixedPath(p, v.offer) && p.next.Peer?
                  && Told(p.next.ip, n, v.offer) in net.offers && v.offer.sealedId.id == id
                  && (p.next2 != v.offer.nextHop || p.proxyPublic != v.offer.proxyPublic))
  {
    var s, p := net.nodes[n], net.nodes[n].paths[id];
    assert NodeSound(net, n) && HeldSound(net, n, p);
    if p.next.Peer? && p.next.ip in answers {
      FindOfferFirst(answers[p.next.ip].offers, s.publicKey, id);
    }
  }

  lemma {:induction false} Passes(start: Net, n: Ip, answers: map<Ip, QueryReply>, done: set<Uuid>) returns (after: Net)
    requires Agreeing(start) && n in start.nodes && ToldAnswers(start, n, answers)
    requires done <= start.nodes[n].paths.Keys
    ensures PassedSoFar(start, after, n, HealthPass(start.nodes[n], answers, start.senders).paths, done)
    decreases done
  {
    var s, healed := start.nodes[n], HealthPass(start.nodes[n], answers, start.senders).paths;
    if id :| id in done {
      var before := Passes(start, n, answers, done - {id});
      after := PassesOne(start, before, n, answers, done - {id}, id);
      assert done - {id} + {id} == done;
    } else {
      after := start;
      StaysPut(LAWLESS, start);
      NothingDone(s, healed, done);
      assert start.nodes[n := s] == start.nodes;
    }
  }

  lemma NothingDone(s: NodeState, healed: map<Uuid, Path>, done: set<Uuid>)
    requires done == {}
    ensures NodeObject.HealedSoFar(s, healed, done) == s
  {
    assert NodeObject.HealedSoFar(s, healed, done).paths == s.paths;
  }

  lemma PassesOne(start: Net, net: Net, n: Ip, answers: map<Ip, QueryReply>, done: set<Uuid>, id: Uuid)
    returns (after: Net)
    requires Agreeing(start) && n in start.nodes && ToldAnswers(start, n, answers)
    requires id in start.nodes[n].paths && id !in done
    requires PassedSoFar(start, net, n, HealthPass(start.nodes[n], answers, start.senders).paths, done)
    ensures PassedSoFar(start, after, n, HealthPass(start.nodes[n], answers, start.senders).paths, done + {id})
  {
    var s, healed := start.nodes[n], HealthPass(start.nodes[n], answers, start.senders).paths;
    Judged(start, n, answers, id);
    match Judge(s, id, answers)
    case Clean => after := CleansOne(start, net, n, healed, done, id);
    case Fix(o) => after := FixesOne(start, net, n, healed, done, id, o);
    case Valid =>
      after := net;
      ValidChangesNothing(s, answers, start.senders, done, id);
  }

  lemma ValidChangesNothing(s: NodeState, answers: map<Ip, QueryReply>, live: set<ConnId>, done: set<Uuid>, id: Uuid)
    requires id in s.paths && Judge(s, id, answers) == Valid
    ensures var healed := HealthPass(s, answers, live).paths;
            NodeObject.HealedSoFar(s, healed, done + {id}) == NodeObject.HealedSoFar(s, healed, done)
  {
    var healed := HealthPass(s, answers, live).paths;
    assert id in healed && healed[id] == s.paths[id];
    assert NodeObject.HealedSoFar(s, healed, done + {id}).paths == NodeObject.HealedSoFar(s, healed, done).paths;
  }

  /** A health pass, whenever what it heard was told, is a run of the network: node n ends as its own HealthPass says,
      with `live` the sending workers that run, and nobody else is touched. */
  lemma HealthPassIsRun(net: Net, n: Ip, answers: map<Ip, QueryReply>) returns (after: Net)
    requires Reachable(LAWLESS, net) && n in net.nodes && ToldAnswers(net, n, answers)
    ensures CanReach(LAWLESS, net, after)
    ensures after.nodes == net.nodes[n := HealthPass(net.nodes[n], answers, net.senders)]
  {
    ReachableAgrees(LAWLESS, net);
    after := Passes(net, n, answers, net.nodes[n].paths.Keys);
    NodeObject.HealedAll(net.nodes[n], answers, net.senders, net.nodes[n].paths.Keys);
  }
}
