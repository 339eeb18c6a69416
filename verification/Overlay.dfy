/** The network of nodes as one labelled transition system. Replies stay in flight until they are used, at any later
    time, and answers to queries may be used again and again, so every local step works on remembered, possibly
    stale values. */
module Overlay {
  import opened Profiles
  import opened KeyExchange
  import opened NodeSteps

  /** One offer of a QueryPathResp that `from` sent to `to`. */
  datatype Told = Told(from: Ip, to: Ip, offer: Offer)

  /** A connect request (`wanted` names the tree) or a create-proxy request (`wanted` is None), with the secret
      the requester keeps to itself. */
  datatype Ask = Ask(child: Ip, parent: Ip, wanted: Option<Uuid>, exchange: DHKeyExchange, secret: Secret)

  datatype Answer = Answer(accepted: bool, exchange: DHKeyExchange, proxyPublic: PublicKey, tree: Uuid)

  /** A link a parent admitted, with the key the parent computed. */
  datatype Link = Link(child: Ip, parent: Ip, tree: Uuid, key: Secret)

  /** `links` are the admitted connections; `workers` are those of them whose application-message worker lives at the
      parent, with the forwarding profile it captured, and `senders` those whose sending worker lives at the child.
      `held` remembers every path value a node ever stored, `founder` who created each tree, and `rank` the order
      in which nodes first held a path of a tree. */
  datatype Net = Net(
    nodes: map<Ip, NodeState>,
    offers: set<Told>,
    asks: map<ConnId, Ask>,
    answers: map<ConnId, Answer>,
    links: map<ConnId, Link>,
    workers: map<ConnId, Path>,
    senders: set<ConnId>,
    held: set<(Ip, Path)>,
    founder: map<Uuid, Ip>,
    rank: Ranks)

  /** Who joined which tree, numbered in the order of joining. */
  type Ranks = map<(Uuid, Ip), nat>

  datatype Label =
    | Found(n: Ip, id: Uuid)
    | AnswerQuery(p: Ip, n: Ip)
    | LearnKey(n: Ip, p: Ip)
    | RecordOffer(n: Ip, ip: Ip, offer: Offer, vouched: bool)
    | Request(n: Ip, p: Ip, wanted: Option<Uuid>, conn: ConnId, g: nat, m: nat, secret: Secret)
    | Admit(conn: ConnId, secret: Secret, delivered: bool)
    | AdmitProxy(conn: ConnId, secret: Secret, id: Uuid, delivered: bool)
    | Commit(conn: ConnId)
    | CommitProxy(conn: ConnId)
    | SenderGone(conn: ConnId)
    | WorkerGone(conn: ConnId)
    | WriteFix(n: Ip, was: Path, offer: Offer)
    | Mark(n: Ip, jobId: JobId, job: Job)

  // ---- Join ranks ----

  predicate Joined(rank: Ranks, id: Uuid, n: Ip) {
    (id, n) in rank
  }

  /** A node that holds a path of a tree for the first time gets the next free rank. */
  function Enrol(rank: Ranks, id: Uuid, n: Ip): Ranks {
    if Joined(rank, id, n) then rank else rank[(id, n) := |rank|]
  }

  // ---- Steps ----

  predicate Enabled(net: Net, l: Label) {
    match l
    case Found(n, id) => n in net.nodes && id !in net.founder
    case AnswerQuery(p, n) => p in net.nodes && n in net.nodes && p != n
    case LearnKey(n, p) => n in net.nodes && p in net.nodes && p != n
    case RecordOffer(n, ip, offer, _) =>
      Told(ip, n, offer) in net.offers && n in net.nodes && ip in net.nodes[n].peerKeys
    case Request(n, p, wanted, conn, _, _, _) =>
      && n in net.nodes && p in net.nodes && n != p && conn !in net.asks
      && (wanted.Some? ==> p in net.nodes[n].peerKeys)
    case Admit(conn, _, _) => Pending(net, conn) && net.asks[conn].wanted.Some?
    case AdmitProxy(conn, _, id, _) => Pending(net, conn) && net.asks[conn].wanted.None? && id !in net.founder
    case Commit(conn) => Answered(net, conn) && net.asks[conn].wanted.Some?
    case CommitProxy(conn) => Answered(net, conn) && net.asks[conn].wanted.None? && net.answers[conn].accepted
    case SenderGone(conn) => conn in net.senders && conn in net.links && net.links[conn].child in net.nodes
    case WorkerGone(conn) => conn in net.workers && conn in net.links && net.links[conn].parent in net.nodes
    case WriteFix(n, was, offer) =>
      && n in net.nodes && (n, was) in net.held && was.next.Peer?
      && Told(was.next.ip, n, offer) in net.offers && offer.sealedId.id == was.uuid
      && (was.next2 != offer.nextHop || was.proxyPublic != offer.proxyPublic)
    case Mark(n, _, _) => n in net.nodes
  }

  predicate Pending(net: Net, conn: ConnId) {
    && conn in net.asks && conn !in net.answers && conn !in net.links
    && net.asks[conn].child in net.nodes && net.asks[conn].parent in net.nodes
  }

  predicate Answered(net: Net, conn: ConnId) {
    conn in net.asks && conn in net.answers && net.asks[conn].child in net.nodes
  }

  function Put(net: Net, n: Ip, s: NodeState): Net {
    net.(nodes := net.nodes[n := s])
  }

  /** Node n now holds path p: recorded, and ranked if it never held that tree. */
  function Hold(net: Net, n: Ip, p: Path): Net {
    net.(held := net.held + {(n, p)}, rank := Enrol(net.rank, p.uuid, n))
  }

  function NewTree(net: Net, n: Ip, id: Uuid, s: NodeState): Net
    requires id in s.paths
  {
    Hold(Put(net, n, s), n, s.paths[id]).(founder := net.founder[id := n])
  }

  function Linked(net: Net, conn: ConnId, link: Link, forward: Path, answer: Answer, delivered: bool): Net {
    net.(links := net.links[conn := link],
         answers := if delivered then net.answers[conn := answer] else net.answers,
         workers := if delivered then net.workers[conn := forward] else net.workers)
  }

  function Step(net: Net, l: Label): Net
    requires Enabled(net, l)
  {
    match l
    case Found(n, id) => NewTree(net, n, id, BecomeProxy(net.nodes[n], id))
    case AnswerQuery(p, n) =>
      var s, key := net.nodes[p], net.nodes[n].publicKey;
      net.(offers := net.offers + set id | id in s.paths :: Told(p, n, OfferOf(s.paths[id], key)))
    case LearnKey(n, p) => Put(net, n, Learn(net.nodes[n], p, net.nodes[p].publicKey))
    case RecordOffer(n, ip, offer, vouched) => Put(net, n, Record(net.nodes[n], ip, offer, vouched))
    case Request(n, p, wanted, conn, g, m, secret) =>
      net.(asks := net.asks[conn := Ask(n, p, wanted, NewKeyExchange(g, m, secret), secret)])
    case Admit(conn, secret, delivered) => AdmitStep(net, conn, secret, delivered)
    case AdmitProxy(conn, secret, id, delivered) => AdmitProxyStep(net, conn, secret, id, delivered)
    case Commit(conn) => CommitStep(net, conn)
    case CommitProxy(conn) => CommitProxyStep(net, conn)
    case SenderGone(conn) =>
      var link := net.links[conn];
      Put(net, link.child, SenderExit(net.nodes[link.child], link.tree, link.parent)).(senders := net.senders - {conn})
    case WorkerGone(conn) =>
      var link := net.links[conn];
      Put(net, link.parent, CoverExit(net.nodes[link.parent], link.child)).(workers := net.workers - {conn})
    case WriteFix(n, was, offer) => Hold(Put(net, n, Repair(net.nodes[n], was, offer)), n, FixedPath(was, offer))
    case Mark(n, jobId, job) => MarkStep(net, n, jobId, job)
  }

  /** A publish job of node n ends and is counted on its path, if that is still held. */
  function MarkStep(net: Net, n: Ip, jobId: JobId, job: Job): Net
    requires n in net.nodes
  {
    var t := MarkJob(net.nodes[n], jobId, job);
    if job.onPath in t.paths then Hold(Put(net, n, t), n, t.paths[job.onPath]) else Put(net, n, t)
  }

  /** The parent serves a connect request. When its reply is lost no worker starts, and the cover entry stays. */
  function AdmitStep(net: Net, conn: ConnId, secret: Secret, delivered: bool): Net
    requires Pending(net, conn) && net.asks[conn].wanted.Some?
  {
    var ask := net.asks[conn];
    var s, id := net.nodes[ask.parent], ask.wanted.value;
    if Accepts(s, ask.child, id) then
      var key := GetSymKey(ask.exchange, secret);
      Linked(Put(net, ask.parent, AdmitCover(s, ask.child, id, key, conn)), conn,
             Link(ask.child, ask.parent, id, key), s.paths[id],
             Answer(true, GenerateReturn(ask.exchange, secret), 0, id), delivered)
    else Refused(net, conn, id)
  }

  function Refused(net: Net, conn: ConnId, id: Uuid): Net {
    net.(answers := net.answers[conn := Answer(false, REFUSED_EXCHANGE, 0, id)])
  }

  /** The parent serves a create-proxy request under the fresh tree id. */
  function AdmitProxyStep(net: Net, conn: ConnId, secret: Secret, id: Uuid, delivered: bool): Net
    requires Pending(net, conn)
  {
    var ask := net.asks[conn];
    var s := net.nodes[ask.parent];
    if AcceptsProxy(s, ask.child) then
      var key := GetSymKey(ask.exchange, secret);
      var founded := FoundTree(s, id, key);
      Linked(NewTree(net, ask.parent, id, AdmitCover(founded, ask.child, id, key, conn)), conn,
             Link(ask.child, ask.parent, id, key), founded.paths[id],
             Answer(true, GenerateReturn(ask.exchange, secret), s.publicKey, id), delivered)
    else Refused(net, conn, id)
  }

  /** An accepting answer is used once; its connection's sending worker starts when the path is opened. */
  function Used(net: Net, conn: ConnId): Net {
    net.(answers := net.answers - {conn})
  }

  function Opened(net: Net, conn: ConnId, n: Ip, s: NodeState, p: Path): Net {
    Hold(Put(Used(net, conn), n, s), n, p).(senders := net.senders + {conn})
  }

  function CommitStep(net: Net, conn: ConnId): Net
    requires Answered(net, conn) && net.asks[conn].wanted.Some?
  {
    var ask, answer := net.asks[conn], net.answers[conn];
    var s, id := net.nodes[ask.child], ask.wanted.value;
    if !answer.accepted then net
    else if id !in s.halfOpen then Used(net, conn)
    else
      var t := CommitPath(s, id, GetSymKey(answer.exchange, ask.secret), Connection(ask.parent, conn));
      Opened(net, conn, ask.child, t, t.paths[id])
  }

  function CommitProxyStep(net: Net, conn: ConnId): Net
    requires Answered(net, conn)
  {
    var ask, answer := net.asks[conn], net.answers[conn];
    var t := CommitProxyPath(net.nodes[ask.child], ask.parent, answer.tree, answer.proxyPublic,
                             GetSymKey(answer.exchange, ask.secret), conn);
    Opened(net, conn, ask.child, t, t.paths[answer.tree])
  }

  /** The parts of the network that serving a create-proxy request changes. */
  lemma AdmitProxyEffect(net: Net, conn: ConnId, secret: Secret, id: Uuid, delivered: bool)
    requires Pending(net, conn)
    ensures var ask, after := net.asks[conn], AdmitProxyStep(net, conn, secret, id, delivered);
            var s, key := net.nodes[ask.parent], GetSymKey(ask.exchange, secret);
            && after.offers == net.offers && after.asks == net.asks && after.senders == net.senders
            && if AcceptsProxy(s, ask.child) then
                 && after.nodes == net.nodes[ask.parent := AdmitCover(FoundTree(s, id, key), ask.child, id, key, conn)]
                 && after.rank == Enrol(net.rank, id, ask.parent)
                 && after.held == net.held + {(ask.parent, SelfProxyPath(id, s.publicKey, key))}
                 && after.founder == net.founder[id := ask.parent]
                 && after.links == net.links[conn := Link(ask.child, ask.parent, id, key)]
               else after == Refused(net, conn, id)
  {
    var ask := net.asks[conn];
    var s, key := net.nodes[ask.parent], GetSymKey(ask.exchange, secret);
    if AcceptsProxy(s, ask.child) {
      assert FoundTree(s, id, key).paths[id] == SelfProxyPath(id, s.publicKey, key);
    }
  }

  /** The parts of the network that opening a path changes. */
  lemma CommitEffect(net: Net, conn: ConnId)
    requires Answered(net, conn) && net.asks[conn].wanted.Some? && net.answers[conn].accepted
    requires net.asks[conn].wanted.value in net.nodes[net.asks[conn].child].halfOpen
    ensures var ask, after := net.asks[conn], CommitStep(net, conn);
            var s, id := net.nodes[ask.child], ask.wanted.value;
            var p := OpenedPath(s.halfOpen[id], GetSymKey(net.answers[conn].exchange, ask.secret),
                                Connection(ask.parent, conn));
            && after.nodes == net.nodes[ask.child := CommitPath(s, id, p.symKey, Connection(ask.parent, conn))]
            && after.held == net.held + {(ask.child, p)} && after.rank == Enrol(net.rank, p.uuid, ask.child)
            && after.offers == net.offers && after.founder == net.founder
  {
    var ask := net.asks[conn];
    var key := GetSymKey(net.answers[conn].exchange, ask.secret);
    var t := CommitPath(net.nodes[ask.child], ask.wanted.value, key, Connection(ask.parent, conn));
    assert CommitStep(net, conn) == Opened(net, conn, ask.child, t, t.paths[ask.wanted.value]);
  }

  /** The parts of the network that counting a job changes. */
  lemma MarkEffect(net: Net, n: Ip, jobId: JobId, job: Job)
    requires n in net.nodes
    ensures var t, after := MarkJob(net.nodes[n], jobId, job), MarkStep(net, n, jobId, job);
            && after.nodes == net.nodes[n := t]
            && after == net.(nodes := after.nodes, held := after.held, rank := after.rank)
            && t == net.nodes[n].(jobs := t.jobs, paths := t.paths)
            && if job.onPath !in t.paths then after.held == net.held && after.rank == net.rank
               else
                 && after.held == net.held + {(n, t.paths[job.onPath])}
                 && after.rank == Enrol(net.rank, t.paths[job.onPath].uuid, n)
  {
    var s, t, after := net.nodes[n], MarkJob(net.nodes[n], jobId, job), MarkStep(net, n, jobId, job);
    assert t == s.(jobs := t.jobs, paths := t.paths);
    if job.onPath in t.paths {
      assert after == Hold(Put(net, n, t), n, t.paths[job.onPath]);
    } else {
      assert after == Put(net, n, t);
    }
  }

  /** State t has no path through a peer but those of s, each with the worker and the connection it had. */
  ghost predicate NoNewPeers(s: NodeState, t: NodeState) {
    forall id :: id in t.paths && t.paths[id].next.Peer? ==>
      && id in s.paths && t.paths[id].next == s.paths[id].next && t.paths[id].cancel == s.paths[id].cancel
      && (id in s.conns ==> id in t.conns && t.conns[id] == s.conns[id])
  }

  /** All steps but commits and fixes change one node at most, and there they open no path and turn none to another
      peer. */
  lemma QuietStep(net: Net, l: Label) returns (m: Ip, s: NodeState)
    requires Enabled(net, l) && !l.Commit? && !l.CommitProxy? && !l.WriteFix?
    ensures m in net.nodes && Step(net, l).nodes == net.nodes[m := s] && NoNewPeers(net.nodes[m], s)
    ensures l.SenderGone? || Step(net, l).senders == net.senders
  {
    match l
    case Found(n, id) => m, s := n, BecomeProxy(net.nodes[n], id);
    case AnswerQuery(p, _) => m, s := p, net.nodes[p];
    case LearnKey(n, p) => m, s := n, Learn(net.nodes[n], p, net.nodes[p].publicKey);
    case RecordOffer(n, ip, offer, vouched) => m, s := n, Record(net.nodes[n], ip, offer, vouched);
    case Request(n, _, _, _, _, _, _) => m, s := n, net.nodes[n];
    case Admit(conn, secret, delivered) => m, s := QuietAdmit(net, conn, secret, delivered);
    case AdmitProxy(conn, secret, id, delivered) => m, s := QuietAdmitProxy(net, conn, secret, id, delivered);
    case SenderGone(conn) =>
      m := net.links[conn].child;
      s := SenderExit(net.nodes[m], net.links[conn].tree, net.links[conn].parent);
    case WorkerGone(conn) =>
      m := net.links[conn].parent;
      s := CoverExit(net.nodes[m], net.links[conn].child);
    case Mark(n, jobId, job) =>
      MarkEffect(net, n, jobId, job);
      m, s := n, MarkJob(net.nodes[n], jobId, job);
  }

  lemma QuietAdmit(net: Net, conn: ConnId, secret: Secret, delivered: bool) returns (m: Ip, s: NodeState)
    requires Pending(net, conn) && net.asks[conn].wanted.Some?
    ensures var after := AdmitStep(net, conn, secret, delivered);
            && m in net.nodes && after.nodes == net.nodes[m := s] && NoNewPeers(net.nodes[m], s)
            && after.senders == net.senders
  {
    var ask := net.asks[conn];
    m, s := ask.parent, net.nodes[ask.parent];
    if Accepts(s, ask.child, ask.wanted.value) {
      s := AdmitCover(s, ask.child, ask.wanted.value, GetSymKey(ask.exchange, secret), conn);
    }
  }

  lemma QuietAdmitProxy(net: Net, conn: ConnId, secret: Secret, id: Uuid, delivered: bool) returns (m: Ip, s: NodeState)
    requires Pending(net, conn)
    ensures var after := AdmitProxyStep(net, conn, secret, id, delivered);
            && m in net.nodes && after.nodes == net.nodes[m := s] && NoNewPeers(net.nodes[m], s)
            && after.senders == net.senders
  {
    var ask, key := net.asks[conn], GetSymKey(net.asks[conn].exchange, secret);
    AdmitProxyEffect(net, conn, secret, id, delivered);
    m, s := ask.parent, net.nodes[ask.parent];
    if AcceptsProxy(s, ask.child) {
      s := AdmitCover(FoundTree(s, id, key), ask.child, id, key, conn);
    }
  }

  // ---- The steps are those of the node's handlers ----

  lemma AdmitIsHandleConnectPath(net: Net, conn: ConnId, secret: Secret)
    requires Pending(net, conn) && net.asks[conn].wanted.Some?
    ensures var ask := net.asks[conn];
            var s, after := net.nodes[ask.parent], AdmitStep(net, conn, secret, true);
            var (t, reply) := HandleConnectPath(s, ask.child, SealedId(s.publicKey, ask.wanted.value), ask.exchange,
                                                secret, conn);
            && after.nodes == net.nodes[ask.parent := t] && conn in after.answers
            && reply == Some(ConnectReply(after.answers[conn].accepted, after.answers[conn].exchange))
  {
    var ask := net.asks[conn];
    var s := net.nodes[ask.parent];
    if !Accepts(s, ask.child, ask.wanted.value) {
      assert net.nodes[ask.parent := s] == net.nodes;
    }
  }

  lemma AdmitProxyIsHandleCreateProxy(net: Net, conn: ConnId, secret: Secret, id: Uuid)
    requires Pending(net, conn)
    ensures var ask := net.asks[conn];
            var s, requester := net.nodes[ask.parent], net.nodes[ask.child].publicKey;
            var after := AdmitProxyStep(net, conn, secret, id, true);
            var (t, reply) := HandleCreateProxy(s, ask.child, requester, ask.exchange, secret, id, conn);
            && after.nodes == net.nodes[ask.parent := t] && conn in after.answers
            && reply.accepted == after.answers[conn].accepted && reply.exchange == after.answers[conn].exchange
            && (reply.accepted ==> reply.proxyPublic == after.answers[conn].proxyPublic
                                   && reply.sealedId == SealedId(requester, after.answers[conn].tree))
  {
    var ask := net.asks[conn];
    var s, after := net.nodes[ask.parent], AdmitProxyStep(net, conn, secret, id, true);
    if AcceptsProxy(s, ask.child) {
      var key := GetSymKey(ask.exchange, secret);
      var t := AdmitCover(FoundTree(s, id, key), ask.child, id, key, conn);
      assert after.nodes == net.nodes[ask.parent := t];
      assert after.answers == net.answers[conn := Answer(true, GenerateReturn(ask.exchange, secret), s.publicKey, id)];
    } else {
      assert after == Refused(net, conn, id);
      assert net.nodes[ask.parent := s] == net.nodes;
    }
  }

  lemma CommitIsConnectPath(net: Net, conn: ConnId, d: Dialogue)
    requires Answered(net, conn) && net.asks[conn].wanted.Some?
    requires d.reply == Some(ConnectReply(net.answers[conn].accepted, net.answers[conn].exchange))
    requires d.secret == net.asks[conn].secret && d.conn == conn
    ensures var ask := net.asks[conn];
            CommitStep(net, conn).nodes
            == net.nodes[ask.child := FinishConnect(net.nodes[ask.child], ask.parent, ask.wanted.value, d).0]
  {
    var ask := net.asks[conn];
    var s := net.nodes[ask.child];
    if net.answers[conn].accepted && ask.wanted.value in s.halfOpen {
      CommitEffect(net, conn);
    } else {
      assert CommitStep(net, conn).nodes == net.nodes && net.nodes[ask.child := s] == net.nodes;
    }
  }

  lemma CommitProxyIsCreateProxy(net: Net, conn: ConnId)
    requires Answered(net, conn) && net.answers[conn].accepted
    ensures var ask, answer := net.asks[conn], net.answers[conn];
            var s := net.nodes[ask.child];
            var reply := ProxyReply(true, answer.exchange, answer.proxyPublic, SealedId(s.publicKey, answer.tree));
            CommitProxyStep(net, conn).nodes
            == net.nodes[ask.child := CreateProxy(s, ask.parent, Some(reply), ask.secret, conn).0]
  {
  }

  // ---- Runs ----

  /** What a run may be asked to respect beyond the code itself. */
  datatype Discipline = Discipline(freshJoins: bool, linkCare: bool)

  const LAWLESS := Discipline(false, false)

  /** A node takes an offer of a tree only if it never held that tree, or if the offer comes from the next-next
      hop of a path it held, which is what a move-up does. */
  ghost predicate FreshJoin(net: Net, l: Label) {
    l.RecordOffer? ==>
      || (forall p :: (l.n, p) in net.held ==> p.uuid != l.offer.sealedId.id)
      || (exists p :: (l.n, p) in net.held && p.uuid == l.offer.sealedId.id && p.next2 == Peer(l.ip))
  }

  /** A reply is used for the peer its half-open entry names, and FIX writes back a path of the current connection,
      whose sending worker still lives. Exactly the steps that keep links in order, see module Links. */
  predicate LinkCare(net: Net, l: Label)
    requires Enabled(net, l)
  {
    match l
    case Commit(conn) =>
      var ask := net.asks[conn];
      var halfOpen := net.nodes[ask.child].halfOpen;
      net.answers[conn].accepted && ask.wanted.value in halfOpen ==> halfOpen[ask.wanted.value].next == Peer(ask.parent)
    case WriteFix(n, was, _) =>
      was.uuid in net.nodes[n].conns && IsLinked(net.senders, was, net.nodes[n].conns[was.uuid])
    case _ => true
  }

  /** Path p is the one of connection conn: dialled to its next hop, served by the connection's live worker. */
  predicate IsLinked(senders: set<ConnId>, p: Path, conn: Connection) {
    p.cancel == Some(conn) && p.next == Peer(conn.ip) && conn.id in senders
  }

  ghost predicate Allowed(d: Discipline, net: Net, l: Label) {
    Enabled(net, l) && (d.freshJoins ==> FreshJoin(net, l)) && (d.linkCare ==> LinkCare(net, l))
  }

  ghost predicate Moves(d: Discipline, net: Net, l: Label, after: Net) {
    Allowed(d, net, l) && after == Step(net, l)
  }

  /** Step i of a run leads from network i to network i + 1. */
  ghost predicate StepAt(d: Discipline, nets: seq<Net>, run: seq<Label>, i: nat) {
    i < |run| < |nets| ==> Moves(d, nets[i], run[i], nets[i + 1])
  }

  /** The steps of a run with the networks before, between and after them. */
  ghost predicate Run(d: Discipline, nets: seq<Net>, run: seq<Label>) {
    |nets| == |run| + 1 && forall i: nat :: StepAt(d, nets, run, i)
  }

  /** Every node has just started; nothing has been sent. */
  ghost predicate Initial(net: Net) {
    && (forall n :: n in net.nodes ==> net.nodes[n] == FreshNode(net.nodes[n].config, net.nodes[n].publicKey))
    && net == Net(net.nodes, {}, map[], map[], map[], map[], {}, {}, map[], map[])
  }

  /** Some run leads from one network to the other. */
  ghost predicate CanReach(d: Discipline, from: Net, to: Net) {
    exists nets, run :: Run(d, nets, run) && nets[0] == from && nets[|run|] == to
  }

  ghost predicate Reachable(d: Discipline, net: Net) {
    exists start :: Initial(start) && CanReach(d, start, net)
  }
}
