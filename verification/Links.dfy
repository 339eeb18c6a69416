/** The two ends of a link: the child's path and the parent's cover entry carry one tree id and one key, and each
    cover entry belongs to the one live worker that serves it. So much holds in every run. That a path's own link is
    also the one to its next hop, is the one messages are sent on and has a live sending worker holds exactly as long
    as every step obeys LinkCare. */
module Links {
  import opened Profiles
  import opened KeyExchange
  import opened NodeSteps
  import opened Overlay
  import opened Permanence

  // ---- What every step keeps ----

  /** The connection a path was opened on is a link admitted for this node and tree, at the address that was dialled,
      and the path holds the key the parent computed for it. */
  predicate OwnLink(links: map<ConnId, Link>, n: Ip, p: Path) {
    p.cancel.Some? ==>
      var c := p.cancel.value; c.id in links && links[c.id] == Link(n, c.ip, p.uuid, p.symKey)
  }

  ghost predicate KeyHeld(net: Net, n: Ip, p: Path) {
    (n, p) in net.held ==> OwnLink(net.links, n, p)
  }

  /** While worker c lives, its parent's cover entry for the child is c's own. */
  ghost predicate WorkerOwns(net: Net, c: ConnId) {
    c in net.workers ==>
      && c in net.links
      && var l := net.links[c];
         l.parent in net.nodes && l.child in net.nodes[l.parent].covers
         && net.nodes[l.parent].covers[l.child] == CoverNode(l.child, l.key, l.tree, c)
  }

  /** Every cover entry is that of an admitted link. */
  ghost predicate CoverAdmitted(net: Net, n: Ip, ip: Ip) {
    n in net.nodes && ip in net.nodes[n].covers ==>
      var cover := net.nodes[n].covers[ip];
      cover.ip == ip && cover.worker in net.links && net.links[cover.worker] == Link(ip, n, cover.tree, cover.secretKey)
  }

  ghost predicate AskMade(net: Net, c: ConnId) {
    c in net.asks ==>
      var dh := net.asks[c].exchange;
      dh == NewKeyExchange(dh.g, dh.p, net.asks[c].secret)
  }

  /** An accepting answer stands for an admitted link, and leads the child to the key its parent holds. */
  ghost predicate AnswerAgrees(net: Net, c: ConnId) {
    c in net.answers && net.answers[c].accepted ==>
      && c in net.asks && c in net.links
      && net.links[c] == Link(net.asks[c].child, net.asks[c].parent, net.answers[c].tree,
                              GetSymKey(net.answers[c].exchange, net.asks[c].secret))
      && (net.asks[c].wanted.Some? ==> net.asks[c].wanted == Some(net.answers[c].tree))
  }

  ghost predicate Agreeing(net: Net) {
    && Sound(net)
    && (forall n, p :: KeyHeld(net, n, p))
    && (forall c :: WorkerOwns(net, c))
    && (forall n, ip :: CoverAdmitted(net, n, ip))
    && (forall c :: AskMade(net, c))
    && (forall c :: AnswerAgrees(net, c))
  }

  // ---- Frames ----

  lemma KeysStayHeld(net: Net, after: Net)
    requires forall n, p :: KeyHeld(net, n, p)
    requires forall c :: c in net.links ==> c in after.links && after.links[c] == net.links[c]
    requires forall n, p :: (n, p) in after.held ==> (n, p) in net.held || OwnLink(after.links, n, p)
    ensures forall n, p :: KeyHeld(after, n, p)
  {
    forall n, p ensures KeyHeld(after, n, p) {
      assert KeyHeld(net, n, p);
    }
  }

  /** Node m changes to s, which keeps its covers, and may store paths that have their own link; answers may be used
      up; nothing else about links changes. */
  lemma PutKeepsAgreeing(net: Net, m: Ip, s: NodeState, after: Net)
    requires Agreeing(net) && Sound(after) && m in net.nodes
    requires after.nodes == net.nodes[m := s] && s.covers == net.nodes[m].covers
    requires after.asks == net.asks && after.links == net.links && after.workers == net.workers
    requires forall c :: c in after.answers ==> c in net.answers && after.answers[c] == net.answers[c]
    requires forall n, p :: (n, p) in after.held ==> (n, p) in net.held || OwnLink(after.links, n, p)
    ensures Agreeing(after)
  {
    KeysStayHeld(net, after);
    forall c ensures WorkerOwns(after, c) {
      assert WorkerOwns(net, c);
    }
    forall n, ip ensures CoverAdmitted(after, n, ip) {
      assert CoverAdmitted(net, n, ip);
    }
    forall c ensures AskMade(after, c) && AnswerAgrees(after, c) {
      assert AskMade(net, c) && AnswerAgrees(net, c);
    }
  }

  /** The parent of request conn admits the child: one new link, one new cover entry, perhaps one worker. */
  predicate Admitted(net: Net, conn: ConnId, id: Uuid, secret: Secret, s: NodeState, forward: Path,
                     proxyKey: PublicKey, delivered: bool, after: Net)
    requires Pending(net, conn)
  {
    var ask := net.asks[conn];
    var key := GetSymKey(ask.exchange, secret);
    && ask.child !in net.nodes[ask.parent].covers
    && (ask.wanted.Some? ==> ask.wanted == Some(id))
    && after.nodes == net.nodes[ask.parent := s] && after.asks == net.asks
    && s.covers == net.nodes[ask.parent].covers[ask.child := CoverNode(ask.child, key, id, conn)]
    && after.links == net.links[conn := Link(ask.child, ask.parent, id, key)]
    && after.workers == (if delivered then net.workers[conn := forward] else net.workers)
    && after.answers == if delivered
                        then net.answers[conn := Answer(true, GenerateReturn(ask.exchange, secret), proxyKey, id)]
                        else net.answers
  }

  lemma AdmittedWorkersOwn(net: Net, conn: ConnId, id: Uuid, secret: Secret, s: NodeState, forward: Path,
                           proxyKey: PublicKey, delivered: bool, after: Net, c: ConnId)
    requires Pending(net, conn) && Admitted(net, conn, id, secret, s, forward, proxyKey, delivered, after)
    requires WorkerOwns(net, c)
    ensures WorkerOwns(after, c)
  {
  }

  lemma AdmittedAnswersAgree(net: Net, conn: ConnId, id: Uuid, secret: Secret, s: NodeState, forward: Path,
                             proxyKey: PublicKey, delivered: bool, after: Net, c: ConnId)
    requires Pending(net, conn) && Admitted(net, conn, id, secret, s, forward, proxyKey, delivered, after)
    requires AnswerAgrees(net, c) && AskMade(net, conn)
    ensures AnswerAgrees(after, c)
  {
    if c == conn {
      var ask := net.asks[conn];
      Agreement(ask.exchange.g, ask.exchange.p, ask.secret, secret);
    }
  }

  lemma LinkKeepsAgreeing(net: Net, conn: ConnId, id: Uuid, secret: Secret, s: NodeState, forward: Path,
                          proxyKey: PublicKey, delivered: bool, after: Net)
    requires Agreeing(net) && Sound(after)
    requires Pending(net, conn) && Admitted(net, conn, id, secret, s, forward, proxyKey, delivered, after)
    requires forall n, p :: (n, p) in after.held ==> (n, p) in net.held || p.cancel.None?
    ensures Agreeing(after)
  {
    KeysStayHeld(net, after);
    forall c ensures WorkerOwns(after, c) {
      AdmittedWorkersOwn(net, conn, id, secret, s, forward, proxyKey, delivered, after, c);
    }
    forall n, ip ensures CoverAdmitted(after, n, ip) {
      assert CoverAdmitted(net, n, ip);
    }
    forall c ensures AskMade(after, c) && AnswerAgrees(after, c) {
      assert AskMade(net, c);
      AdmittedAnswersAgree(net, conn, id, secret, s, forward, proxyKey, delivered, after, c);
    }
  }

  /** Changes to requests, answers and messages alone. */
  lemma TalkKeepsAgreeing(net: Net, after: Net)
    requires Agreeing(net) && Sound(after)
    requires after.nodes == net.nodes && after.links == net.links && after.workers == net.workers
             && after.held == net.held
    requires forall c :: AskMade(after, c)
    requires forall c :: AnswerAgrees(after, c)
    ensures Agreeing(after)
  {
    KeysStayHeld(net, after);
    forall c ensures WorkerOwns(after, c) {
      assert WorkerOwns(net, c);
    }
    forall n, ip ensures CoverAdmitted(after, n, ip) {
      assert CoverAdmitted(net, n, ip);
    }
  }

  // ---- Steps ----

  lemma AdmitKeepsAgreeing(net: Net, conn: ConnId, secret: Secret, delivered: bool)
    requires Agreeing(net) && Enabled(net, Admit(conn, secret, delivered))
             && Sound(AdmitStep(net, conn, secret, delivered))
    ensures Agreeing(AdmitStep(net, conn, secret, delivered))
  {
    var ask, after := net.asks[conn], AdmitStep(net, conn, secret, delivered);
    var s, id := net.nodes[ask.parent], ask.wanted.value;
    if Accepts(s, ask.child, id) {
      var t := AdmitCover(s, ask.child, id, GetSymKey(ask.exchange, secret), conn);
      assert after.nodes == net.nodes[ask.parent := t];
      LinkKeepsAgreeing(net, conn, id, secret, t, s.paths[id], 0, delivered, after);
    } else {
      RefusedKeepsAgreeing(net, conn, id);
    }
  }

  lemma RefusedKeepsAgreeing(net: Net, conn: ConnId, id: Uuid)
    requires Agreeing(net) && conn !in net.answers && Sound(Refused(net, conn, id))
    ensures Agreeing(Refused(net, conn, id))
  {
    var after := Refused(net, conn, id);
    forall c ensures AskMade(after, c) && AnswerAgrees(after, c) {
      assert AskMade(net, c) && AnswerAgrees(net, c);
    }
    TalkKeepsAgreeing(net, after);
  }

  lemma AdmitProxyKeepsAgreeing(net: Net, conn: ConnId, secret: Secret, id: Uuid, delivered: bool)
    requires Agreeing(net) && Enabled(net, AdmitProxy(conn, secret, id, delivered))
    requires Sound(AdmitProxyStep(net, conn, secret, id, delivered))
    ensures Agreeing(AdmitProxyStep(net, conn, secret, id, delivered))
  {
    var ask, after := net.asks[conn], AdmitProxyStep(net, conn, secret, id, delivered);
    var s := net.nodes[ask.parent];
    AdmitProxyEffect(net, conn, secret, id, delivered);
    if AcceptsProxy(s, ask.child) {
      var key := GetSymKey(ask.exchange, secret);
      var t := AdmitCover(FoundTree(s, id, key), ask.child, id, key, conn);
      LinkKeepsAgreeing(net, conn, id, secret, t, SelfProxyPath(id, s.publicKey, key), s.publicKey, delivered, after);
    } else {
      RefusedKeepsAgreeing(net, conn, id);
    }
  }

  lemma CommitKeepsAgreeing(net: Net, conn: ConnId)
    requires Agreeing(net) && Enabled(net, Commit(conn)) && Sound(CommitStep(net, conn))
    ensures Agreeing(CommitStep(net, conn))
  {
    var ask, answer, after := net.asks[conn], net.answers[conn], CommitStep(net, conn);
    var s, id := net.nodes[ask.child], ask.wanted.value;
    if answer.accepted && id in s.halfOpen {
      var t := CommitPath(s, id, ChildKey(net, conn), Connection(ask.parent, conn));
      assert NodeSound(net, ask.child) && AnswerAgrees(net, conn);
      assert after.held == net.held + {(ask.child, t.paths[id])};
      PutKeepsAgreeing(net, ask.child, t, after);
    } else {
      forall c ensures AskMade(after, c) && AnswerAgrees(after, c) {
        assert AskMade(net, c) && AnswerAgrees(net, c);
      }
      TalkKeepsAgreeing(net, after);
    }
  }

  lemma CommitProxyKeepsAgreeing(net: Net, conn: ConnId)
    requires Agreeing(net) && Enabled(net, CommitProxy(conn)) && Sound(CommitProxyStep(net, conn))
    ensures Agreeing(CommitProxyStep(net, conn))
  {
    var ask, answer := net.asks[conn], net.answers[conn];
    var s, after := net.nodes[ask.child], CommitProxyStep(net, conn);
    var t := CommitProxyPath(s, ask.parent, answer.tree, answer.proxyPublic, ChildKey(net, conn), conn);
    assert AskSound(net, conn) && AnswerAgrees(net, conn);
    assert after.held == net.held + {(ask.child, t.paths[answer.tree])};
    PutKeepsAgreeing(net, ask.child, t, after);
  }

  lemma WorkerGoneKeepsAgreeing(net: Net, conn: ConnId)
    requires Agreeing(net) && Enabled(net, WorkerGone(conn)) && Sound(Step(net, WorkerGone(conn)))
    ensures Agreeing(Step(net, WorkerGone(conn)))
  {
    var after, link := Step(net, WorkerGone(conn)), net.links[conn];
    assert WorkerOwns(net, conn);
    KeysStayHeld(net, after);
    forall n, ip ensures CoverAdmitted(after, n, ip) {
      assert CoverAdmitted(net, n, ip);
    }
    forall c ensures WorkerOwns(after, c) {
      assert WorkerOwns(net, c);
    }
    forall c ensures AskMade(after, c) && AnswerAgrees(after, c) {
      assert AskMade(net, c) && AnswerAgrees(net, c);
    }
  }

  lemma FoundKeepsAgreeing(net: Net, n: Ip, id: Uuid)
    requires Agreeing(net) && Enabled(net, Found(n, id)) && Sound(Step(net, Found(n, id)))
    ensures Agreeing(Step(net, Found(n, id)))
  {
    var s, after := net.nodes[n], Step(net, Found(n, id));
    assert after.held == net.held + {(n, SelfProxyPath(id, s.publicKey, 0))};
    PutKeepsAgreeing(net, n, BecomeProxy(s, id), after);
  }

  lemma WriteFixKeepsAgreeing(net: Net, n: Ip, was: Path, offer: Offer)
    requires Agreeing(net) && Enabled(net, WriteFix(n, was, offer)) && Sound(Step(net, WriteFix(n, was, offer)))
    ensures Agreeing(Step(net, WriteFix(n, was, offer)))
  {
    assert KeyHeld(net, n, was);
    PutKeepsAgreeing(net, n, Repair(net.nodes[n], was, offer), Step(net, WriteFix(n, was, offer)));
  }

  lemma MarkKeepsAgreeing(net: Net, n: Ip, jobId: JobId, job: Job)
    requires Agreeing(net) && n in net.nodes && Sound(MarkStep(net, n, jobId, job))
    ensures Agreeing(MarkStep(net, n, jobId, job))
  {
    var s, t, after := net.nodes[n], MarkJob(net.nodes[n], jobId, job), MarkStep(net, n, jobId, job);
    MarkEffect(net, n, jobId, job);
    assert NodeSound(net, n) && (job.onPath in s.paths ==> KeyHeld(net, n, s.paths[job.onPath]));
    PutKeepsAgreeing(net, n, t, after);
  }

  lemma QuietKeepsAgreeing(net: Net, l: Label)
    requires Agreeing(net) && Enabled(net, l) && Sound(Step(net, l)) && (l.LearnKey? || l.RecordOffer? || l.SenderGone?)
    ensures Agreeing(Step(net, l))
  {
    match l
    case LearnKey(n, p) => PutKeepsAgreeing(net, n, Learn(net.nodes[n], p, net.nodes[p].publicKey), Step(net, l));
    case RecordOffer(n, ip, offer, vouched) =>
      PutKeepsAgreeing(net, n, Record(net.nodes[n], ip, offer, vouched), Step(net, l));
    case SenderGone(conn) =>
      var link := net.links[conn];
      PutKeepsAgreeing(net, link.child, SenderExit(net.nodes[link.child], link.tree, link.parent), Step(net, l));
  }

  lemma TalkingKeepsAgreeing(net: Net, l: Label)
    requires Agreeing(net) && Enabled(net, l) && Sound(Step(net, l)) && (l.AnswerQuery? || l.Request?)
    ensures Agreeing(Step(net, l))
  {
    forall c ensures AskMade(Step(net, l), c) && AnswerAgrees(Step(net, l), c) {
      assert AskMade(net, c) && AnswerAgrees(net, c) && AskSound(net, c);
    }
    TalkKeepsAgreeing(net, Step(net, l));
  }

  lemma AgreeingStep(net: Net, l: Label)
    requires Agreeing(net) && Enabled(net, l)
    ensures Agreeing(Step(net, l))
  {
    SoundStep(net, l);
    match l
    case Found(n, id) => FoundKeepsAgreeing(net, n, id);
    case AnswerQuery(_, _) => TalkingKeepsAgreeing(net, l);
    case Request(_, _, _, _, _, _, _) => TalkingKeepsAgreeing(net, l);
    case Admit(conn, secret, delivered) => AdmitKeepsAgreeing(net, conn, secret, delivered);
    case AdmitProxy(conn, secret, id, delivered) => AdmitProxyKeepsAgreeing(net, conn, secret, id, delivered);
    case Commit(conn) => CommitKeepsAgreeing(net, conn);
    case CommitProxy(conn) => CommitProxyKeepsAgreeing(net, conn);
    case WorkerGone(conn) => WorkerGoneKeepsAgreeing(net, conn);
    case WriteFix(n, was, offer) => WriteFixKeepsAgreeing(net, n, was, offer);
    case Mark(n, jobId, job) => MarkKeepsAgreeing(net, n, jobId, job);
    case _ => QuietKeepsAgreeing(net, l);
  }

  lemma MoveKeepsAgreeing(d: Discipline, net: Net, l: Label, after: Net)
    requires Agreeing(net) && Moves(d, net, l, after)
    ensures Agreeing(after)
  {
    AgreeingStep(net, l);
  }

  lemma {:induction false} AgreeingThroughRun(d: Discipline, nets: seq<Net>, run: seq<Label>, i: nat)
    requires Run(d, nets, run) && i <= |run| && Agreeing(nets[0])
    ensures Agreeing(nets[i])
  {
    if i > 0 {
      AgreeingThroughRun(d, nets, run, i - 1);
      assert StepAt(d, nets, run, i - 1);
      MoveKeepsAgreeing(d, nets[i - 1], run[i - 1], nets[i]);
    }
  }

  lemma InitialAgrees(net: Net)
    requires Initial(net)
    ensures Agreeing(net) && AllLinked(net)
  {
    InitialIsSound(net);
    assert forall n, id :: PathLinked(net, n, id);
  }

  lemma ReachableAgrees(d: Discipline, net: Net)
    requires Reachable(d, net)
    ensures Agreeing(net)
  {
    var start :| Initial(start) && CanReach(d, start, net);
    var nets, run :| Run(d, nets, run) && nets[0] == start && nets[|run|] == net;
    InitialAgrees(nets[0]);
    AgreeingThroughRun(d, nets, run, |run|);
  }

  // ---- What only careful steps keep ----

  /** A held path through a peer is the path of the connection that messages are sent on: dialled to its next hop,
      with a live sending worker. */
  ghost predicate PathLinked(net: Net, n: Ip, id: Uuid) {
    Holds(net, n, id) && PathAt(net, n, id).next.Peer? ==>
      id in net.nodes[n].conns && IsLinked(net.senders, PathAt(net, n, id), net.nodes[n].conns[id])
  }

  ghost predicate AllLinked(net: Net) {
    forall n, id :: PathLinked(net, n, id)
  }

  ghost predicate NodeLinked(senders: set<ConnId>, s: NodeState) {
    forall id :: id in s.paths && s.paths[id].next.Peer? ==>
      id in s.conns && IsLinked(senders, s.paths[id], s.conns[id])
  }

  lemma NodeIsLinked(net: Net, n: Ip)
    requires AllLinked(net) && n in net.nodes
    ensures NodeLinked(net.senders, net.nodes[n])
  {
    forall id | id in net.nodes[n].paths ensures PathLinked(net, n, id) {
    }
  }

  lemma PutKeepsLinked(net: Net, m: Ip, s: NodeState, after: Net)
    requires AllLinked(net) && after.nodes == net.nodes[m := s] && net.senders <= after.senders
    ensures AllLinked(after) <==> NodeLinked(after.senders, s)
  {
    if NodeLinked(after.senders, s) {
      forall n, id ensures PathLinked(after, n, id) {
        assert PathLinked(net, n, id);
      }
    } else {
      var id :| id in s.paths && s.paths[id].next.Peer?
          && !(id in s.conns && IsLinked(after.senders, s.paths[id], s.conns[id]));
      assert !PathLinked(after, m, id);
    }
  }

  lemma SameNodesLinked(net: Net, after: Net)
    requires AllLinked(net) && after.nodes == net.nodes && net.senders <= after.senders
    ensures AllLinked(after)
  {
    forall n, id ensures PathLinked(after, n, id) {
      assert PathLinked(net, n, id);
    }
  }

  lemma QuietPutLinked(net: Net, m: Ip, s: NodeState, after: Net)
    requires AllLinked(net) && m in net.nodes && after.nodes == net.nodes[m := s] && net.senders <= after.senders
    requires NoNewPeers(net.nodes[m], s)
    ensures AllLinked(after)
  {
    NodeIsLinked(net, m);
    PutKeepsLinked(net, m, s, after);
  }

  /** Opening a path on a connection with a live worker. */
  lemma OpeningLinksIff(senders: set<ConnId>, s: NodeState, t: NodeState, p: Path, conn: Connection)
    requires NodeLinked(senders, s) && p.next.Peer? && p.cancel == Some(conn) && conn.id in senders
    requires t.paths == s.paths[p.uuid := p] && t.conns == s.conns[p.uuid := conn]
    ensures NodeLinked(senders, t) <==> p.next == Peer(conn.ip)
  {
    if NodeLinked(senders, t) {
      assert p.uuid in t.paths && t.paths[p.uuid] == p;
    }
  }

  lemma NodeLinkedGrows(senders: set<ConnId>, more: set<ConnId>, s: NodeState)
    requires NodeLinked(senders, s) && senders <= more
    ensures NodeLinked(more, s)
  {
  }

  lemma CommitLinksIff(net: Net, conn: ConnId)
    requires Agreeing(net) && AllLinked(net) && Enabled(net, Commit(conn))
    ensures AllLinked(CommitStep(net, conn)) <==> LinkCare(net, Commit(conn))
  {
    var ask, answer, after := net.asks[conn], net.answers[conn], CommitStep(net, conn);
    var s, id := net.nodes[ask.child], ask.wanted.value;
    if answer.accepted && id in s.halfOpen {
      var t := CommitPath(s, id, ChildKey(net, conn), Connection(ask.parent, conn));
      assert NodeSound(net, ask.child);
      NodeIsLinked(net, ask.child);
      NodeLinkedGrows(net.senders, after.senders, s);
      OpeningLinksIff(after.senders, s, t, t.paths[id], t.conns[id]);
      PutKeepsLinked(net, ask.child, t, after);
    } else {
      SameNodesLinked(net, after);
    }
  }

  lemma CommitProxyKeepsLinked(net: Net, conn: ConnId)
    requires AllLinked(net) && Enabled(net, CommitProxy(conn))
    ensures AllLinked(CommitProxyStep(net, conn))
  {
    var ask, answer, after := net.asks[conn], net.answers[conn], CommitProxyStep(net, conn);
    var s := net.nodes[ask.child];
    var t := CommitProxyPath(s, ask.parent, answer.tree, answer.proxyPublic, ChildKey(net, conn), conn);
    NodeIsLinked(net, ask.child);
    NodeLinkedGrows(net.senders, after.senders, s);
    OpeningLinksIff(after.senders, s, t, t.paths[answer.tree], t.conns[answer.tree]);
    PutKeepsLinked(net, ask.child, t, after);
  }

  lemma WriteFixLinksIff(net: Net, n: Ip, was: Path, offer: Offer)
    requires AllLinked(net) && Enabled(net, WriteFix(n, was, offer))
    ensures AllLinked(Step(net, WriteFix(n, was, offer))) <==> LinkCare(net, WriteFix(n, was, offer))
  {
    var t := Repair(net.nodes[n], was, offer);
    NodeIsLinked(net, n);
    PutKeepsLinked(net, n, t, Step(net, WriteFix(n, was, offer)));
    assert t.paths[was.uuid] == FixedPath(was, offer);
  }

  /** The exit of a sending worker takes the path with it whose connection it serves. */
  lemma SenderGoneKeepsLinked(net: Net, conn: ConnId)
    requires Agreeing(net) && AllLinked(net) && Enabled(net, SenderGone(conn))
    ensures AllLinked(Step(net, SenderGone(conn)))
  {
    var after, link := Step(net, SenderGone(conn)), net.links[conn];
    forall n, id ensures PathLinked(after, n, id) {
      assert PathLinked(net, n, id) && NodeSound(net, n);
      if Holds(after, n, id) {
        assert Holds(net, n, id) && PathAt(after, n, id) == PathAt(net, n, id);
        assert KeyHeld(net, n, PathAt(net, n, id));
      }
    }
  }

  lemma QuietKeepsLinked(net: Net, l: Label)
    requires AllLinked(net) && Enabled(net, l)
    requires !l.Commit? && !l.CommitProxy? && !l.WriteFix? && !l.SenderGone?
    ensures AllLinked(Step(net, l))
  {
    var m, s := QuietStep(net, l);
    QuietPutLinked(net, m, s, Step(net, l));
  }

  /** Of all steps, those that obey LinkCare keep every path linked, and no others do. */
  lemma LinkedStepIff(net: Net, l: Label)
    requires Agreeing(net) && AllLinked(net) && Enabled(net, l)
    ensures AllLinked(Step(net, l)) <==> LinkCare(net, l)
  {
    match l
    case Commit(conn) => CommitLinksIff(net, conn);
    case WriteFix(n, was, offer) => WriteFixLinksIff(net, n, was, offer);
    case CommitProxy(conn) => CommitProxyKeepsLinked(net, conn);
    case SenderGone(conn) => SenderGoneKeepsLinked(net, conn);
    case _ => QuietKeepsLinked(net, l);
  }

  // ---- Over runs ----

  ghost predicate CareAt(nets: seq<Net>, run: seq<Label>, i: nat) {
    i < |run| < |nets| ==> Enabled(nets[i], run[i]) && LinkCare(nets[i], run[i])
  }

  lemma MoveLinksIff(d: Discipline, nets: seq<Net>, run: seq<Label>, i: nat)
    requires StepAt(d, nets, run, i) && i < |run| < |nets| && Agreeing(nets[i]) && AllLinked(nets[i])
    ensures AllLinked(nets[i + 1]) <==> CareAt(nets, run, i)
  {
    LinkedStepIff(nets[i], run[i]);
  }

  lemma {:induction false} LinkedUpTo(d: Discipline, nets: seq<Net>, run: seq<Label>, i: nat)
    requires Run(d, nets, run) && i <= |run| && Agreeing(nets[0]) && AllLinked(nets[0])
    requires forall j: nat :: CareAt(nets, run, j)
    ensures AllLinked(nets[i])
  {
    if i > 0 {
      LinkedUpTo(d, nets, run, i - 1);
      AgreeingThroughRun(d, nets, run, i - 1);
      assert StepAt(d, nets, run, i - 1) && CareAt(nets, run, i - 1);
      MoveLinksIff(d, nets, run, i - 1);
    }
  }

  ghost predicate LinkedAt(nets: seq<Net>, i: nat) {
    i < |nets| ==> AllLinked(nets[i])
  }

  /** All paths are linked throughout a run exactly when each of its steps obeys LinkCare. */
  lemma LinkedThroughoutIff(d: Discipline, nets: seq<Net>, run: seq<Label>)
    requires Run(d, nets, run) && Initial(nets[0])
    ensures (forall i: nat :: LinkedAt(nets, i)) <==> (forall i: nat :: CareAt(nets, run, i))
  {
    InitialAgrees(nets[0]);
    if forall i: nat :: CareAt(nets, run, i) {
      forall i: nat ensures LinkedAt(nets, i) {
        if i < |nets| {
          LinkedUpTo(d, nets, run, i);
        }
      }
    } else {
      var i: nat :| !CareAt(nets, run, i);
      AgreeingThroughRun(d, nets, run, i);
      assert StepAt(d, nets, run, i);
      if AllLinked(nets[i]) {
        MoveLinksIff(d, nets, run, i);
        assert !LinkedAt(nets, i + 1);
      } else {
        assert !LinkedAt(nets, i);
      }
    }
  }

  lemma ReachableIsLinked(d: Discipline, net: Net)
    requires Reachable(d, net) && d.linkCare
    ensures AllLinked(net)
  {
    var start :| Initial(start) && CanReach(d, start, net);
    var nets, run :| Run(d, nets, run) && nets[0] == start && nets[|run|] == net;
    InitialAgrees(nets[0]);
    forall i: nat ensures CareAt(nets, run, i) {
      assert StepAt(d, nets, run, i);
    }
    LinkedUpTo(d, nets, run, |run|);
  }

  // ---- Theorems ----

  /** In every run, a path through a peer has a link of its own, admitted at the address that was dialled for this
      node and tree with the key the path holds, and while the link's worker lives the parent's cover entry says the
      same. The link is one to the path's next hop exactly when that is the address that was dialled. */
  lemma LinkEndsAgree(d: Discipline, net: Net, n: Ip, id: Uuid)
    requires Reachable(d, net) && Holds(net, n, id) && PathAt(net, n, id).next.Peer?
    ensures var p := PathAt(net, n, id);
            && p.cancel.Some? && p.cancel.value.id in net.links
            && var c := p.cancel.value;
               && net.links[c.id] == Link(n, c.ip, id, p.symKey)
               && (net.links[c.id] == Link(n, p.next.ip, id, p.symKey) <==> p.next == Peer(c.ip))
               && (c.id in net.workers ==>
                     && c.ip in net.nodes && n in net.nodes[c.ip].covers
                     && net.nodes[c.ip].covers[n] == CoverNode(n, p.symKey, id, c.id))
  {
    ReachableAgrees(d, net);
    var p := PathAt(net, n, id);
    assert NodeSound(net, n) && HeldSound(net, n, p) && KeyHeld(net, n, p);
    assert WorkerOwns(net, p.cancel.value.id);
  }

  /** Cancelling a path through a peer, which makes its own worker leave, takes the path away if and only if that worker
      lives and was dialled to the next hop the path holds. */
  lemma CancellingDropsIff(d: Discipline, net: Net, n: Ip, id: Uuid)
    requires Reachable(d, net) && Holds(net, n, id) && PathAt(net, n, id).next.Peer?
    ensures var p := PathAt(net, n, id);
            && p.cancel.Some?
            && var l := SenderGone(p.cancel.value.id);
               (Enabled(net, l) && !Holds(Step(net, l), n, id)) <==> Attended(net.senders, p)
  {
    LinkEndsAgree(d, net, n, id);
  }

  /** Each live worker's cover entry is its own, so a parent never has two live workers for one cover, and the exit
      of a worker removes no other worker's entry. */
  lemma WorkersOwnTheirCovers(d: Discipline, net: Net, c: ConnId, c': ConnId)
    requires Reachable(d, net) && c in net.workers && c' in net.workers
    ensures c in net.links && c' in net.links
    ensures var l := net.links[c];
            && Enabled(net, WorkerGone(c)) && l.child in net.nodes[l.parent].covers
            && net.nodes[l.parent].covers[l.child].worker == c
            && net.nodes[l.parent].covers[l.child].secretKey == l.key
    ensures net.links[c].parent == net.links[c'].parent && net.links[c].child == net.links[c'].child ==> c == c'
    ensures c != c' ==> WorkerOwns(Step(net, WorkerGone(c)), c')
  {
    ReachableAgrees(d, net);
    assert WorkerOwns(net, c) && WorkerOwns(net, c');
    AgreeingStep(net, WorkerGone(c));
    assert WorkerOwns(Step(net, WorkerGone(c)), c');
  }
}
