/** Facts of every run, with no assumption beyond the code: entries are stored under their own ids, and a node
    that proxies a tree does so for ever. */
module Permanence {
  import opened Profiles
  import opened NodeSteps
  import opened Overlay
  import KeyExchange

  // ---- The invariant, one object at a time ----

  /** Every stored path is remembered, is stored under its own id and belongs to a founded tree; a half-open
      entry is stored under its own id, names another node as next hop, and is never for a tree of one's own. */
  ghost predicate NodeSound(net: Net, n: Ip) {
    n in net.nodes ==>
      var s := net.nodes[n];
      && (forall id :: id in s.paths ==> s.paths[id].uuid == id && (n, s.paths[id]) in net.held)
      && (forall id :: id in s.halfOpen ==>
            && s.halfOpen[id].uuid == id && id in net.founder && net.founder[id] != n
            && s.halfOpen[id].next.Peer? && s.halfOpen[id].next.ip != n)
  }

  /** A path that node n may hold: to storage, without a worker, exactly for a tree it founded, and otherwise through
      another node, with a worker to cancel. */
  ghost predicate Fits(net: Net, n: Ip, p: Path) {
    && n in net.nodes && p.uuid in net.founder && p.next != Nowhere && p.next != Peer(n)
    && (p.next == Storage <==> net.founder[p.uuid] == n)
    && (p.next == Storage <==> p.cancel == None)
    && (p.next == Storage ==> p.next2 == Nowhere && p.proxyPublic == net.nodes[n].publicKey)
  }

  ghost predicate HeldSound(net: Net, n: Ip, p: Path) {
    (n, p) in net.held ==> Fits(net, n, p)
  }

  ghost predicate FounderSound(net: Net, id: Uuid) {
    id in net.founder ==>
      var n := net.founder[id];
      n in net.nodes && id in net.nodes[n].paths
  }

  ghost predicate ToldSound(net: Net, t: Told) {
    t in net.offers ==>
      && t.from in net.nodes && t.to in net.nodes && t.from != t.to
      && t.offer.sealedId.to == net.nodes[t.to].publicKey && t.offer.sealedId.id in net.founder
      && (exists p :: (t.from, p) in net.held && OfferOf(p, t.offer.sealedId.to) == t.offer)
  }

  ghost predicate AskSound(net: Net, c: ConnId) {
    && (c in net.asks ==>
          net.asks[c].child in net.nodes && net.asks[c].parent in net.nodes && net.asks[c].child != net.asks[c].parent)
    && (c in net.answers ==> c in net.asks)
    && (c in net.answers && net.answers[c].accepted && net.asks[c].wanted.None? ==>
          net.answers[c].tree in net.founder && net.founder[net.answers[c].tree] == net.asks[c].parent)
  }

  ghost predicate Sound(net: Net) {
    && (forall n :: NodeSound(net, n))
    && (forall n, p :: HeldSound(net, n, p))
    && (forall id :: FounderSound(net, id))
    && (forall t :: ToldSound(net, t))
    && (forall c :: AskSound(net, c))
  }

  // ---- Every step keeps it ----

  /** Node n stores one path that fits, for a known tree or one it founds. */
  lemma StoringKeepsSound(net: Net, n: Ip, s: NodeState, p: Path, after: Net)
    requires Sound(net) && n in net.nodes && s.publicKey == net.nodes[n].publicKey
    requires s.halfOpen == net.nodes[n].halfOpen || s.halfOpen == net.nodes[n].halfOpen - {p.uuid}
    requires s.paths == net.nodes[n].paths[p.uuid := p]
    requires after.nodes == net.nodes[n := s] && after.held == net.held + {(n, p)}
    requires after.founder == if p.uuid in net.founder then net.founder else net.founder[p.uuid := n]
    requires after.offers == net.offers && after.asks == net.asks && after.answers == net.answers
    requires Fits(after, n, p)
    ensures Sound(after)
  {
    forall m ensures NodeSound(after, m) {
      assert NodeSound(net, m);
    }
    forall m, q ensures HeldSound(after, m, q) {
      assert HeldSound(net, m, q);
    }
    forall k ensures FounderSound(after, k) {
      assert FounderSound(net, k);
    }
    forall t ensures ToldSound(after, t) {
      assert ToldSound(net, t);
    }
    forall c ensures AskSound(after, c) {
      assert AskSound(net, c);
    }
  }

  lemma FoundKeepsSound(net: Net, n: Ip, id: Uuid, s: NodeState)
    requires Sound(net) && n in net.nodes && id !in net.founder
    requires id in s.paths && s.publicKey == net.nodes[n].publicKey && s.halfOpen == net.nodes[n].halfOpen
    requires s.paths == net.nodes[n].paths[id := s.paths[id]]
    requires s.paths[id].uuid == id && s.paths[id].next == Storage && s.paths[id].next2 == Nowhere
    requires s.paths[id].proxyPublic == s.publicKey && s.paths[id].cancel == None
    ensures Sound(NewTree(net, n, id, s))
  {
    StoringKeepsSound(net, n, s, s.paths[id], NewTree(net, n, id, s));
  }

  /** A step in which node n stores one path that fits, for a known tree. */
  lemma HoldKeepsSound(net: Net, n: Ip, s: NodeState, p: Path)
    requires Sound(net) && n in net.nodes && s.publicKey == net.nodes[n].publicKey
    requires s.halfOpen == net.nodes[n].halfOpen || s.halfOpen == net.nodes[n].halfOpen - {p.uuid}
    requires s.paths == net.nodes[n].paths[p.uuid := p]
    requires Fits(net, n, p)
    ensures Sound(Hold(Put(net, n, s), n, p))
  {
    StoringKeepsSound(net, n, s, p, Hold(Put(net, n, s), n, p));
  }

  /** A step that only removes paths through peers, or changes half-open entries and covers. */
  lemma PutKeepsSound(net: Net, n: Ip, s: NodeState)
    requires Sound(net) && n in net.nodes && s.publicKey == net.nodes[n].publicKey
    requires forall id :: id in s.paths ==> id in net.nodes[n].paths && s.paths[id] == net.nodes[n].paths[id]
    requires forall id :: id in net.nodes[n].paths && id !in s.paths ==> net.nodes[n].paths[id].next != Storage
    requires NodeSound(Put(net, n, s), n)
    ensures Sound(Put(net, n, s))
  {
    var after := Put(net, n, s);
    forall m ensures NodeSound(after, m) {
      assert NodeSound(net, m);
    }
    forall m, q ensures HeldSound(after, m, q) {
      assert HeldSound(net, m, q);
    }
    forall k ensures FounderSound(after, k) {
      assert FounderSound(net, k);
      if k in net.founder && net.founder[k] == n {
        assert NodeSound(net, n);
        assert HeldSound(net, n, net.nodes[n].paths[k]);
      }
    }
    forall t ensures ToldSound(after, t) {
      assert ToldSound(net, t);
    }
    forall c ensures AskSound(after, c) {
      assert AskSound(net, c);
    }
  }

  lemma TellingKeepsSound(net: Net, p: Ip, n: Ip)
    requires Sound(net) && Enabled(net, AnswerQuery(p, n))
    ensures Sound(Step(net, AnswerQuery(p, n)))
  {
    var after := Step(net, AnswerQuery(p, n));
    forall m ensures NodeSound(after, m) {
      assert NodeSound(net, m);
    }
    forall m, q ensures HeldSound(after, m, q) {
      assert HeldSound(net, m, q);
    }
    forall k ensures FounderSound(after, k) {
      assert FounderSound(net, k);
    }
    forall t ensures ToldSound(after, t) {
      assert ToldSound(net, t);
      if t in after.offers && t !in net.offers {
        var id :| id in net.nodes[p].paths && t == Told(p, n, OfferOf(net.nodes[p].paths[id], net.nodes[n].publicKey));
        assert NodeSound(net, p);
        assert HeldSound(net, p, net.nodes[p].paths[id]);
      }
    }
    forall c ensures AskSound(after, c) {
      assert AskSound(net, c);
    }
  }

  /** Changes to asks, answers, links, workers and senders alone. */
  lemma TalkKeepsSound(net: Net, after: Net)
    requires Sound(net)
    requires after == net.(asks := after.asks, answers := after.answers, links := after.links,
                           workers := after.workers, senders := after.senders)
    requires forall c :: AskSound(after, c)
    ensures Sound(after)
  {
    forall m ensures NodeSound(after, m) {
      assert NodeSound(net, m);
    }
    forall m, q ensures HeldSound(after, m, q) {
      assert HeldSound(net, m, q);
    }
    forall k ensures FounderSound(after, k) {
      assert FounderSound(net, k);
    }
    forall t ensures ToldSound(after, t) {
      assert ToldSound(net, t);
    }
  }

  lemma SoundStep(net: Net, l: Label)
    requires Sound(net) && Enabled(net, l)
    ensures Sound(Step(net, l))
  {
    match l
    case Found(n, id) => FoundKeepsSound(net, n, id, BecomeProxy(net.nodes[n], id));
    case AnswerQuery(p, n) => TellingKeepsSound(net, p, n);
    case LearnKey(n, p) =>
      assert NodeSound(net, n);
      PutKeepsSound(net, n, Learn(net.nodes[n], p, net.nodes[p].publicKey));
    case RecordOffer(n, ip, offer, vouched) =>
      assert NodeSound(net, n) && ToldSound(net, Told(ip, n, offer));
      RecordIsSound(net, n, ip, offer, vouched);
      PutKeepsSound(net, n, Record(net.nodes[n], ip, offer, vouched));
    case Request(_, _, _, _, _, _, _) =>
      var after := Step(net, l);
      forall c ensures AskSound(after, c) {
        assert AskSound(net, c);
      }
      TalkKeepsSound(net, after);
    case Admit(conn, secret, delivered) => AdmitKeepsSound(net, conn, secret, delivered);
    case AdmitProxy(conn, secret, id, delivered) => AdmitProxyKeepsSound(net, conn, secret, id, delivered);
    case Commit(conn) => CommitKeepsSound(net, conn);
    case CommitProxy(conn) => CommitProxyKeepsSound(net, conn);
    case SenderGone(conn) => SenderGoneKeepsSound(net, conn);
    case WorkerGone(conn) => WorkerGoneKeepsSound(net, conn);
    case WriteFix(n, was, offer) =>
      assert HeldSound(net, n, was);
      HoldKeepsSound(net, n, Repair(net.nodes[n], was, offer), FixedPath(was, offer));
    case Mark(n, jobId, job) => MarkKeepsSound(net, n, jobId, job);
  }

  lemma UsedKeepsSound(net: Net, conn: ConnId)
    requires Sound(net)
    ensures Sound(Used(net, conn))
  {
    forall c ensures AskSound(Used(net, conn), c) {
      assert AskSound(net, c);
    }
    TalkKeepsSound(net, Used(net, conn));
  }

  lemma OpenedKeepsSound(net: Net, conn: ConnId, n: Ip, s: NodeState, p: Path)
    requires Sound(net) && n in net.nodes && s.publicKey == net.nodes[n].publicKey
    requires s.halfOpen == net.nodes[n].halfOpen || s.halfOpen == net.nodes[n].halfOpen - {p.uuid}
    requires s.paths == net.nodes[n].paths[p.uuid := p]
    requires Fits(net, n, p)
    ensures Sound(Opened(net, conn, n, s, p))
  {
    var used := Used(net, conn);
    UsedKeepsSound(net, conn);
    HoldKeepsSound(used, n, s, p);
    var held, after := Hold(Put(used, n, s), n, p), Opened(net, conn, n, s, p);
    forall c ensures AskSound(after, c) {
      assert AskSound(held, c);
    }
    TalkKeepsSound(held, after);
  }

  lemma CommitKeepsSound(net: Net, conn: ConnId)
    requires Sound(net) && Enabled(net, Commit(conn))
    ensures Sound(CommitStep(net, conn))
  {
    var ask := net.asks[conn];
    assert AskSound(net, conn) && NodeSound(net, ask.child);
    var s, id, answer := net.nodes[ask.child], ask.wanted.value, net.answers[conn];
    UsedKeepsSound(net, conn);
    if answer.accepted && id in s.halfOpen {
      var t := CommitPath(s, id, KeyExchange.GetSymKey(answer.exchange, ask.secret), Connection(ask.parent, conn));
      OpenedKeepsSound(net, conn, ask.child, t, t.paths[id]);
    }
  }

  lemma CommitProxyKeepsSound(net: Net, conn: ConnId)
    requires Sound(net) && Enabled(net, CommitProxy(conn))
    ensures Sound(CommitProxyStep(net, conn))
  {
    var ask, answer := net.asks[conn], net.answers[conn];
    assert AskSound(net, conn);
    var t := CommitProxyPath(net.nodes[ask.child], ask.parent, answer.tree, answer.proxyPublic,
                             KeyExchange.GetSymKey(answer.exchange, ask.secret), conn);
    OpenedKeepsSound(net, conn, ask.child, t, t.paths[answer.tree]);
  }

  lemma SenderGoneKeepsSound(net: Net, conn: ConnId)
    requires Sound(net) && Enabled(net, SenderGone(conn))
    ensures Sound(Step(net, SenderGone(conn)))
  {
    var link := net.links[conn];
    var s := SenderExit(net.nodes[link.child], link.tree, link.parent);
    assert NodeSound(net, link.child);
    PutKeepsSound(net, link.child, s);
    var after := Put(net, link.child, s);
    var done := after.(senders := net.senders - {conn});
    forall c ensures AskSound(done, c) {
      assert AskSound(after, c);
    }
    TalkKeepsSound(after, done);
  }

  lemma WorkerGoneKeepsSound(net: Net, conn: ConnId)
    requires Sound(net) && Enabled(net, WorkerGone(conn))
    ensures Sound(Step(net, WorkerGone(conn)))
  {
    var link := net.links[conn];
    var s := CoverExit(net.nodes[link.parent], link.child);
    assert NodeSound(net, link.parent);
    PutKeepsSound(net, link.parent, s);
    var after := Put(net, link.parent, s);
    var done := after.(workers := net.workers - {conn});
    forall c ensures AskSound(done, c) {
      assert AskSound(after, c);
    }
    TalkKeepsSound(after, done);
  }

  lemma MarkKeepsSound(net: Net, n: Ip, jobId: JobId, job: Job)
    requires Sound(net) && n in net.nodes
    ensures Sound(MarkStep(net, n, jobId, job))
  {
    var t := MarkJob(net.nodes[n], jobId, job);
    assert NodeSound(net, n);
    if job.onPath in t.paths {
      assert HeldSound(net, n, net.nodes[n].paths[job.onPath]);
      HoldKeepsSound(net, n, t, t.paths[job.onPath]);
    } else {
      PutKeepsSound(net, n, t);
    }
  }

  lemma RecordIsSound(net: Net, n: Ip, ip: Ip, offer: Offer, vouched: bool)
    requires Sound(net) && Enabled(net, RecordOffer(n, ip, offer, vouched))
    ensures NodeSound(Put(net, n, Record(net.nodes[n], ip, offer, vouched)), n)
  {
    var id := offer.sealedId.id;
    assert NodeSound(net, n) && ToldSound(net, Told(ip, n, offer)) && FounderSound(net, id);
    var s := net.nodes[n];
    var t, after := Record(s, ip, offer, vouched), Put(net, n, Record(s, ip, offer, vouched));
    assert after.nodes[n] == t && after.held == net.held && after.founder == net.founder;
    if Takes(s, ip, offer, vouched) {
      if id in s.paths {
        assert HeldSound(net, n, s.paths[id]);
      }
      assert net.founder[id] != n;
      assert t.paths == s.paths && t.halfOpen == s.halfOpen[id := Entry(ip, offer)];
    }
  }

  lemma LinkedKeepsSound(net: Net, conn: ConnId, link: Link, forward: Path, answer: Answer, delivered: bool)
    requires Sound(net) && conn in net.asks
    requires net.asks[conn].wanted.None? ==>
               answer.tree in net.founder && net.founder[answer.tree] == net.asks[conn].parent
    ensures Sound(Linked(net, conn, link, forward, answer, delivered))
  {
    var after := Linked(net, conn, link, forward, answer, delivered);
    forall c ensures AskSound(after, c) {
      assert AskSound(net, c);
    }
    TalkKeepsSound(net, after);
  }

  lemma AdmitKeepsSound(net: Net, conn: ConnId, secret: Secret, delivered: bool)
    requires Sound(net) && Enabled(net, Admit(conn, secret, delivered))
    ensures Sound(Step(net, Admit(conn, secret, delivered)))
  {
    var ask := net.asks[conn];
    var s, id := net.nodes[ask.parent], ask.wanted.value;
    if Accepts(s, ask.child, id) {
      var key := KeyExchange.GetSymKey(ask.exchange, secret);
      var t := AdmitCover(s, ask.child, id, key, conn);
      assert NodeSound(net, ask.parent);
      PutKeepsSound(net, ask.parent, t);
      LinkedKeepsSound(Put(net, ask.parent, t), conn, Link(ask.child, ask.parent, id, key), s.paths[id],
                       Answer(true, KeyExchange.GenerateReturn(ask.exchange, secret), 0, id), delivered);
    } else {
      RefusedKeepsSound(net, conn, id);
    }
  }

  lemma RefusedKeepsSound(net: Net, conn: ConnId, id: Uuid)
    requires Sound(net) && conn in net.asks
    ensures Sound(Refused(net, conn, id))
  {
    var after := Refused(net, conn, id);
    forall c ensures AskSound(after, c) {
      assert AskSound(net, c);
    }
    TalkKeepsSound(net, after);
  }

  lemma AdmitProxyKeepsSound(net: Net, conn: ConnId, secret: Secret, id: Uuid, delivered: bool)
    requires Sound(net) && Enabled(net, AdmitProxy(conn, secret, id, delivered))
    ensures Sound(Step(net, AdmitProxy(conn, secret, id, delivered)))
  {
    var ask := net.asks[conn];
    var s := net.nodes[ask.parent];
    if AcceptsProxy(s, ask.child) {
      var key := KeyExchange.GetSymKey(ask.exchange, secret);
      var t := AdmitCover(FoundTree(s, id, key), ask.child, id, key, conn);
      FoundKeepsSound(net, ask.parent, id, t);
      LinkedKeepsSound(NewTree(net, ask.parent, id, t), conn, Link(ask.child, ask.parent, id, key), t.paths[id],
                       Answer(true, KeyExchange.GenerateReturn(ask.exchange, secret), s.publicKey, id), delivered);
    } else {
      RefusedKeepsSound(net, conn, id);
    }
  }

  // ---- Theorems over runs ----

  lemma MoveKeepsSound(d: Discipline, net: Net, l: Label, after: Net)
    requires Sound(net) && Moves(d, net, l, after)
    ensures Sound(after)
  {
    SoundStep(net, l);
  }

  lemma {:induction false} SoundThroughRun(d: Discipline, nets: seq<Net>, run: seq<Label>, i: nat)
    requires Run(d, nets, run) && i <= |run| && Sound(nets[0])
    ensures Sound(nets[i])
  {
    if i > 0 {
      SoundThroughRun(d, nets, run, i - 1);
      assert StepAt(d, nets, run, i - 1);
      MoveKeepsSound(d, nets[i - 1], run[i - 1], nets[i]);
    }
  }

  lemma InitialIsSound(net: Net)
    requires Initial(net)
    ensures Sound(net)
  {
    forall n ensures NodeSound(net, n) {
    }
    forall c ensures AskSound(net, c) {
    }
  }

  lemma ReachableIsSound(d: Discipline, net: Net)
    requires Reachable(d, net)
    ensures Sound(net)
  {
    var start :| Initial(start) && CanReach(d, start, net);
    var nets, run :| Run(d, nets, run) && nets[0] == start && nets[|run|] == net;
    InitialIsSound(nets[0]);
    SoundThroughRun(d, nets, run, |run|);
  }

  /** In every reachable network each path and half-open entry is stored under its own tree id, and every path but
      those to storage has a worker to cancel; this is what the health pass of class Node relies on. */
  lemma StoredUnderOwnId(d: Discipline, net: Net, n: Ip, id: Uuid)
    requires Reachable(d, net) && n in net.nodes
    ensures id in net.nodes[n].paths ==>
              var p := net.nodes[n].paths[id]; p.uuid == id && (p.next == Storage <==> p.cancel == None)
    ensures id in net.nodes[n].halfOpen ==> net.nodes[n].halfOpen[id].uuid == id
  {
    ReachableIsSound(d, net);
    assert NodeSound(net, n);
    if id in net.nodes[n].paths {
      assert HeldSound(net, n, net.nodes[n].paths[id]);
    }
  }

  // ---- What one step can do to a held path ----

  predicate Holds(net: Net, n: Ip, id: Uuid) {
    n in net.nodes && id in net.nodes[n].paths
  }

  function PathAt(net: Net, n: Ip, id: Uuid): Path
    requires Holds(net, n, id)
  {
    net.nodes[n].paths[id]
  }

  /** Node n, holding a path of tree id, commits a half-open entry of that tree over it. */
  predicate Reopens(net: Net, l: Label, n: Ip, id: Uuid) {
    && l.Commit? && Answered(net, l.conn)
    && net.asks[l.conn].child == n && net.asks[l.conn].wanted == Some(id) && net.answers[l.conn].accepted
    && Holds(net, n, id) && id in net.nodes[n].halfOpen
  }

  predicate Reproxies(net: Net, l: Label, n: Ip, id: Uuid) {
    l.CommitProxy? && Answered(net, l.conn) && net.asks[l.conn].child == n && net.answers[l.conn].tree == id
  }

  predicate Fixes(l: Label, n: Ip, id: Uuid) {
    l.WriteFix? && l.n == n && l.was.uuid == id
  }

  predicate Counts(l: Label, n: Ip, id: Uuid) {
    l.Mark? && l.n == n && l.job.onPath == id
  }

  function ChildKey(net: Net, conn: ConnId): Secret
    requires Answered(net, conn)
  {
    KeyExchange.GetSymKey(net.answers[conn].exchange, net.asks[conn].secret)
  }

  /** What label l can leave in place of the path that n holds for tree id. */
  predicate Becomes(net: Net, l: Label, n: Ip, id: Uuid, after: Path)
    requires Holds(net, n, id)
  {
    if Reopens(net, l, n, id) then
      var e, dialled := net.nodes[n].halfOpen[id], Connection(net.asks[l.conn].parent, l.conn);
      after == Path(e.uuid, e.next, e.next2, e.proxyPublic, ChildKey(net, l.conn), 0, 0, Some(dialled))
    else if Reproxies(net, l, n, id) then
      var parent := net.asks[l.conn].parent;
      after == Path(id, Peer(parent), Storage, net.answers[l.conn].proxyPublic, ChildKey(net, l.conn), 0, 0,
                    Some(Connection(parent, l.conn)))
    else if Fixes(l, n, id) then after == l.was.(next2 := l.offer.nextHop, proxyPublic := l.offer.proxyPublic)
    else if Counts(l, n, id) then
      var p := PathAt(net, n, id);
      after == if l.job.status == SUCCESS then p.(successCount := p.successCount + 1)
               else p.(failureCount := p.failureCount + 1)
    else after == PathAt(net, n, id)
  }

  /** The exit of a worker of this tree that was dialled to the path's next hop. */
  predicate Drops(net: Net, l: Label, n: Ip, id: Uuid)
    requires Holds(net, n, id)
  {
    && l.SenderGone? && l.conn in net.links
    && net.links[l.conn].child == n && net.links[l.conn].tree == id
    && PathAt(net, n, id).next == Peer(net.links[l.conn].parent)
  }

  /** A path is dropped by such an exit and by nothing else, changed by a commit, a fix or a job that is counted on
      it, and by nothing else. */
  predicate Fated(net: Net, l: Label, n: Ip, id: Uuid, after: Net)
    requires Holds(net, n, id)
  {
    if Drops(net, l, n, id) then !Holds(after, n, id)
    else Holds(after, n, id) && Becomes(net, l, n, id, PathAt(after, n, id))
  }

  /** A step that puts the new state s of node m in place. */
  lemma PutFate(net: Net, l: Label, m: Ip, s: NodeState, after: Net, n: Ip, id: Uuid)
    requires Holds(net, n, id) && after.nodes == net.nodes[m := s]
    requires m == n && id in s.paths ==> Becomes(net, l, n, id, s.paths[id])
    requires m == n ==> (id !in s.paths <==> Drops(net, l, n, id))
    requires m != n ==>
               && !Drops(net, l, n, id) && !Reopens(net, l, n, id) && !Reproxies(net, l, n, id)
               && !Fixes(l, n, id) && !Counts(l, n, id)
    ensures Fated(net, l, n, id, after)
  {
  }

  lemma CommitFate(net: Net, conn: ConnId, n: Ip, id: Uuid)
    requires Sound(net) && Enabled(net, Commit(conn)) && Holds(net, n, id)
    ensures Fated(net, Commit(conn), n, id, CommitStep(net, conn))
  {
    var ask, answer := net.asks[conn], net.answers[conn];
    var s, k := net.nodes[ask.child], ask.wanted.value;
    if answer.accepted && k in s.halfOpen {
      var t := CommitPath(s, k, ChildKey(net, conn), Connection(ask.parent, conn));
      PutFate(net, Commit(conn), ask.child, t, CommitStep(net, conn), n, id);
    }
  }

  lemma CommitProxyFate(net: Net, conn: ConnId, n: Ip, id: Uuid)
    requires Enabled(net, CommitProxy(conn)) && Holds(net, n, id)
    ensures Fated(net, CommitProxy(conn), n, id, CommitProxyStep(net, conn))
  {
  }

  lemma AdmitFate(net: Net, conn: ConnId, secret: Secret, delivered: bool, n: Ip, id: Uuid)
    requires Enabled(net, Admit(conn, secret, delivered)) && Holds(net, n, id)
    ensures Fated(net, Admit(conn, secret, delivered), n, id, AdmitStep(net, conn, secret, delivered))
  {
    var ask, after := net.asks[conn], AdmitStep(net, conn, secret, delivered);
    var s, wanted := net.nodes[ask.parent], ask.wanted.value;
    if Accepts(s, ask.child, wanted) {
      var t := AdmitCover(s, ask.child, wanted, KeyExchange.GetSymKey(ask.exchange, secret), conn);
      PutFate(net, Admit(conn, secret, delivered), ask.parent, t, after, n, id);
    }
  }

  lemma SenderFate(net: Net, conn: ConnId, n: Ip, id: Uuid)
    requires Enabled(net, SenderGone(conn)) && Holds(net, n, id)
    ensures Fated(net, SenderGone(conn), n, id, Step(net, SenderGone(conn)))
  {
    var link, l := net.links[conn], SenderGone(conn);
    PutFate(net, l, link.child, SenderExit(net.nodes[link.child], link.tree, link.parent), Step(net, l), n, id);
  }

  lemma MarkFate(net: Net, m: Ip, jobId: JobId, job: Job, n: Ip, id: Uuid, after: Net)
    requires m in net.nodes && Holds(net, n, id) && after.nodes == net.nodes[m := MarkJob(net.nodes[m], jobId, job)]
    ensures Fated(net, Mark(m, jobId, job), n, id, after)
  {
    var t := MarkJob(net.nodes[m], jobId, job);
    assert t.paths.Keys == net.nodes[m].paths.Keys;
  }

  lemma OwnFate(net: Net, l: Label, n: Ip, id: Uuid)
    requires Enabled(net, l) && Holds(net, n, id) && id in net.founder
    requires l.Found? || l.WorkerGone? || l.WriteFix?
    ensures Fated(net, l, n, id, Step(net, l))
  {
    match l
    case Found(m, k) => PutFate(net, l, m, BecomeProxy(net.nodes[m], k), Step(net, l), n, id);
    case WorkerGone(conn) =>
      var link := net.links[conn];
      PutFate(net, l, link.parent, CoverExit(net.nodes[link.parent], link.child), Step(net, l), n, id);
    case WriteFix(m, was, offer) => PutFate(net, l, m, Repair(net.nodes[m], was, offer), Step(net, l), n, id);
  }

  lemma AdmitProxyFate(net: Net, conn: ConnId, secret: Secret, k: Uuid, delivered: bool, n: Ip, id: Uuid)
    requires Enabled(net, AdmitProxy(conn, secret, k, delivered)) && Holds(net, n, id) && k != id
    ensures Fated(net, AdmitProxy(conn, secret, k, delivered), n, id, AdmitProxyStep(net, conn, secret, k, delivered))
  {
    AdmitProxyEffect(net, conn, secret, k, delivered);
  }

  lemma MarkStepFate(net: Net, m: Ip, jobId: JobId, job: Job, n: Ip, id: Uuid)
    requires m in net.nodes && Holds(net, n, id)
    ensures Fated(net, Mark(m, jobId, job), n, id, MarkStep(net, m, jobId, job))
  {
    var after := MarkStep(net, m, jobId, job);
    MarkEffect(net, m, jobId, job);
    MarkFate(net, m, jobId, job, n, id, after);
  }

  lemma TalkFate(net: Net, l: Label, n: Ip, id: Uuid)
    requires Enabled(net, l) && Holds(net, n, id)
    requires l.AnswerQuery? || l.LearnKey? || l.RecordOffer? || l.Request?
    ensures Fated(net, l, n, id, Step(net, l))
  {
    if l.RecordOffer? {
      PutFate(net, l, l.n, Record(net.nodes[l.n], l.ip, l.offer, l.vouched), Step(net, l), n, id);
    } else if l.LearnKey? {
      PutFate(net, l, l.n, Learn(net.nodes[l.n], l.p, net.nodes[l.p].publicKey), Step(net, l), n, id);
    } else {
      assert Step(net, l).nodes == net.nodes;
    }
  }

  lemma PathFate(net: Net, l: Label, n: Ip, id: Uuid)
    requires Sound(net) && Enabled(net, l) && Holds(net, n, id)
    ensures Fated(net, l, n, id, Step(net, l))
  {
    assert NodeSound(net, n) && HeldSound(net, n, PathAt(net, n, id));
    match l
    case Admit(conn, secret, delivered) => AdmitFate(net, conn, secret, delivered, n, id);
    case AdmitProxy(conn, secret, k, delivered) => AdmitProxyFate(net, conn, secret, k, delivered, n, id);
    case Commit(conn) => CommitFate(net, conn, n, id);
    case CommitProxy(conn) => CommitProxyFate(net, conn, n, id);
    case SenderGone(conn) => SenderFate(net, conn, n, id);
    case Mark(m, jobId, job) => MarkStepFate(net, m, jobId, job, n, id);
    case Found(_, _) => OwnFate(net, l, n, id);
    case WorkerGone(_) => OwnFate(net, l, n, id);
    case WriteFix(_, _, _) => OwnFate(net, l, n, id);
    case _ => TalkFate(net, l, n, id);
  }

  predicate Proxies(net: Net, n: Ip, id: Uuid) {
    Holds(net, n, id) && PathAt(net, n, id).next == Storage
  }

  /** Path q is path p, but jobs may have been counted on it. */
  predicate SameButCounted(p: Path, q: Path) {
    && q == p.(successCount := q.successCount, failureCount := q.failureCount)
    && p.successCount <= q.successCount && p.failureCount <= q.failureCount
  }

  lemma FatedProxyStays(net: Net, l: Label, after: Net, n: Ip, id: Uuid)
    requires Sound(net) && Enabled(net, l) && Proxies(net, n, id) && Fated(net, l, n, id, after)
    ensures Proxies(after, n, id) && SameButCounted(PathAt(net, n, id), PathAt(after, n, id))
  {
    assert NodeSound(net, n) && HeldSound(net, n, PathAt(net, n, id));
    if l.CommitProxy? {
      assert AskSound(net, l.conn);
    } else if l.WriteFix? {
      assert HeldSound(net, l.n, l.was);
    }
  }

  lemma ProxyStays(d: Discipline, net: Net, l: Label, after: Net, n: Ip, id: Uuid)
    requires Sound(net) && Moves(d, net, l, after) && Proxies(net, n, id)
    ensures Proxies(after, n, id) && SameButCounted(PathAt(net, n, id), PathAt(after, n, id))
  {
    PathFate(net, l, n, id);
    FatedProxyStays(net, l, after, n, id);
  }

  /** In every run from a reachable network, a self-proxy path held at its start is never removed, and nothing of it
      changes but its counters, which only grow: it has no next-next hop and the node's own public key at every
      moment of the run. */
  lemma {:induction false} SelfProxyForEver(d: Discipline, nets: seq<Net>, run: seq<Label>, i: nat, n: Ip, id: Uuid)
    requires Run(d, nets, run) && i <= |run| && Reachable(d, nets[0]) && Proxies(nets[0], n, id)
    ensures Proxies(nets[i], n, id) && SameButCounted(PathAt(nets[0], n, id), PathAt(nets[i], n, id))
    ensures PathAt(nets[i], n, id).next2 == Nowhere && PathAt(nets[i], n, id).proxyPublic == nets[i].nodes[n].publicKey
  {
    ReachableIsSound(d, nets[0]);
    if i > 0 {
      SelfProxyForEver(d, nets, run, i - 1, n, id);
      assert StepAt(d, nets, run, i - 1);
      SoundThroughRun(d, nets, run, i - 1);
      ProxyStays(d, nets[i - 1], run[i - 1], nets[i], n, id);
    }
    SoundThroughRun(d, nets, run, i);
    ProxySound(nets[i], n, id);
  }

  lemma ProxySound(net: Net, n: Ip, id: Uuid)
    requires Sound(net) && Proxies(net, n, id)
    ensures PathAt(net, n, id).next2 == Nowhere && PathAt(net, n, id).proxyPublic == net.nodes[n].publicKey
  {
    assert NodeSound(net, n) && HeldSound(net, n, PathAt(net, n, id));
  }
}
