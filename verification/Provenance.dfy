/** Where the values that nodes copy from each other come from. In every run each path names, for its tree, a next-next
    hop and a proxy key that its next hop has held itself, the key is that of the node that founded the tree, and the
    public keys that nodes cache of their peers are the peers' own. */
module Provenance {
  import opened Profiles
  import opened NodeSteps
  import opened Overlay
  import opened Permanence
  import KeyExchange

  /** Node q has held a path of tree id that led to `hop` and carried this proxy key. */
  ghost predicate HasSaid(held: set<(Ip, Path)>, q: Ip, id: Uuid, hop: Hop, key: PublicKey) {
    exists p :: (q, p) in held && p.uuid == id && p.next == hop && p.proxyPublic == key
  }

  /** The key is that of the tree's founder. */
  predicate FoundersKey(net: Net, id: Uuid, key: PublicKey) {
    id in net.founder && net.founder[id] in net.nodes && net.nodes[net.founder[id]].publicKey == key
  }

  ghost predicate Sourced(net: Net, p: Path) {
    && FoundersKey(net, p.uuid, p.proxyPublic)
    && (p.next.Peer? ==> HasSaid(net.held, p.next.ip, p.uuid, p.next2, p.proxyPublic))
  }

  ghost predicate HeldSourced(net: Net, n: Ip, p: Path) {
    (n, p) in net.held ==> Sourced(net, p)
  }

  ghost predicate EntrySourced(net: Net, n: Ip, id: Uuid) {
    n in net.nodes && id in net.nodes[n].halfOpen ==> Sourced(net, net.nodes[n].halfOpen[id])
  }

  /** A proxy's answer carries its own key, and its path of the tree leads to storage. */
  ghost predicate AnswerSourced(net: Net, c: ConnId) {
    c in net.answers && net.answers[c].accepted && c in net.asks && net.asks[c].wanted.None? ==>
      var answer := net.answers[c];
      && FoundersKey(net, answer.tree, answer.proxyPublic)
      && HasSaid(net.held, net.asks[c].parent, answer.tree, Storage, answer.proxyPublic)
  }

  ghost predicate KeysCached(net: Net, n: Ip, q: Ip) {
    n in net.nodes && q in net.nodes[n].peerKeys ==>
      q in net.nodes && net.nodes[n].peerKeys[q] == net.nodes[q].publicKey
  }

  ghost predicate AllSourced(net: Net) {
    && Sound(net)
    && (forall n, p :: HeldSourced(net, n, p))
    && (forall n, id :: EntrySourced(net, n, id))
    && (forall c :: AnswerSourced(net, c))
    && (forall n, q :: KeysCached(net, n, q))
  }

  // ---- What was said stays said ----

  /** Nodes keep their keys, founders stay, and what was held is remembered. */
  ghost predicate Remembers(net: Net, after: Net) {
    && after.nodes.Keys == net.nodes.Keys
    && (forall n :: n in net.nodes ==> after.nodes[n].publicKey == net.nodes[n].publicKey)
    && (forall id :: id in net.founder ==> id in after.founder && after.founder[id] == net.founder[id])
    && net.held <= after.held
  }

  lemma StaysSourced(net: Net, after: Net, p: Path)
    requires Remembers(net, after) && Sourced(net, p)
    ensures Sourced(after, p)
  {
    if p.next.Peer? {
      var q :| (p.next.ip, q) in net.held && q.uuid == p.uuid && q.next == p.next2 && q.proxyPublic == p.proxyPublic;
      assert (p.next.ip, q) in after.held;
    }
  }

  lemma AnswerStaysSourced(net: Net, after: Net, c: ConnId)
    requires Remembers(net, after) && AnswerSourced(net, c) && c in net.asks
    requires c in after.answers ==> c in net.answers && after.answers[c] == net.answers[c]
    requires c in after.asks && after.asks[c] == net.asks[c]
    ensures AnswerSourced(after, c)
  {
    if c in after.answers && net.answers[c].accepted && net.asks[c].wanted.None? {
      var answer := net.answers[c];
      var q :| (net.asks[c].parent, q) in net.held && q.uuid == answer.tree && q.next == Storage
               && q.proxyPublic == answer.proxyPublic;
      assert (net.asks[c].parent, q) in after.held;
    }
  }

  /** Asks stay, and every answer there is now was there before, refuses, is one to a connect request, or is sourced. */
  ghost predicate AnswersKnown(net: Net, after: Net, c: ConnId) {
    && (c in net.asks ==> c in after.asks && after.asks[c] == net.asks[c])
    && (c in after.answers ==> (c in net.answers && after.answers[c] == net.answers[c]) || AnswerSourced(after, c))
  }

  lemma KnownIsSourced(net: Net, after: Net, c: ConnId)
    requires Remembers(net, after) && AnswersKnown(net, after, c) && AnswerSourced(net, c) && AskSound(net, c)
    ensures AnswerSourced(after, c)
  {
    if c in net.asks && c in net.answers && c in after.answers && after.answers[c] == net.answers[c] {
      AnswerStaysSourced(net, after, c);
    }
  }

  /** The half-open entry is an old one, or sourced. */
  ghost predicate EntryKnown(net: Net, after: Net, m: Ip, s: NodeState, id: Uuid)
    requires m in net.nodes
  {
    id in s.halfOpen ==>
      (id in net.nodes[m].halfOpen && s.halfOpen[id] == net.nodes[m].halfOpen[id]) || Sourced(after, s.halfOpen[id])
  }

  /** The cached key is an old one, or that of a node. */
  ghost predicate KeyKnown(net: Net, m: Ip, s: NodeState, q: Ip)
    requires m in net.nodes
  {
    q in s.peerKeys ==>
      || (q in net.nodes[m].peerKeys && s.peerKeys[q] == net.nodes[m].peerKeys[q])
      || (q in net.nodes && s.peerKeys[q] == net.nodes[q].publicKey)
  }

  ghost predicate PathKnown(net: Net, after: Net, n: Ip, p: Path) {
    (n, p) in after.held ==> (n, p) in net.held || Sourced(after, p)
  }

  lemma HeldStaysSourced(net: Net, after: Net, n: Ip, p: Path)
    requires Remembers(net, after) && HeldSourced(net, n, p) && PathKnown(net, after, n, p)
    ensures HeldSourced(after, n, p)
  {
    if (n, p) in net.held {
      StaysSourced(net, after, p);
    }
  }

  lemma EntryStaysSourced(net: Net, m: Ip, s: NodeState, after: Net, n: Ip, id: Uuid)
    requires Remembers(net, after) && m in net.nodes && after.nodes == net.nodes[m := s]
    requires EntrySourced(net, n, id) && EntryKnown(net, after, m, s, id)
    ensures EntrySourced(after, n, id)
  {
    if n in net.nodes && id in net.nodes[n].halfOpen {
      StaysSourced(net, after, net.nodes[n].halfOpen[id]);
    }
  }

  /** Node m changes to s: a step whose new entry of the history and new half-open entries are sourced and whose newly
      cached keys are true keeps everything sourced. */
  lemma PutKeepsSourced(net: Net, m: Ip, s: NodeState, after: Net)
    requires AllSourced(net) && Sound(after) && Remembers(net, after)
    requires m in net.nodes && after.nodes == net.nodes[m := s]
    requires forall n, p :: PathKnown(net, after, n, p)
    requires forall id :: EntryKnown(net, after, m, s, id)
    requires forall q :: KeyKnown(net, m, s, q)
    requires forall c :: AnswersKnown(net, after, c)
    ensures AllSourced(after)
  {
    forall n, p ensures HeldSourced(after, n, p) {
      HeldStaysSourced(net, after, n, p);
    }
    forall n, id ensures EntrySourced(after, n, id) {
      EntryStaysSourced(net, m, s, after, n, id);
    }
    forall c ensures AnswerSourced(after, c) {
      KnownIsSourced(net, after, c);
    }
    forall n, q ensures KeysCached(after, n, q) {
      assert KeysCached(net, n, q) && KeyKnown(net, m, s, q);
    }
  }

  // ---- Steps ----

  /** A step that adds nothing to the history, no answer and no founder. */
  lemma QuietKeepsSourced(net: Net, m: Ip, s: NodeState, after: Net)
    requires AllSourced(net) && Sound(after) && m in net.nodes && after.nodes == net.nodes[m := s]
    requires s.publicKey == net.nodes[m].publicKey && after.founder == net.founder && after.held == net.held
    requires s.peerKeys == net.nodes[m].peerKeys && forall id :: EntryKnown(net, net, m, s, id)
    requires forall c :: AnswersKnown(net, after, c)
    ensures AllSourced(after)
  {
    forall id ensures EntryKnown(net, after, m, s, id) {
      assert EntryKnown(net, net, m, s, id);
      if id in s.halfOpen && Sourced(net, s.halfOpen[id]) {
        StaysSourced(net, after, s.halfOpen[id]);
      }
    }
    PutKeepsSourced(net, m, s, after);
  }

  /** Asks and answers stay, and no node changes but in its covers, paths and jobs. */
  lemma SilentKeepsSourced(net: Net, m: Ip, s: NodeState, after: Net)
    requires AllSourced(net) && Sound(after) && m in net.nodes && after.nodes == net.nodes[m := s]
    requires s == net.nodes[m].(paths := s.paths, covers := s.covers, jobs := s.jobs)
    requires after.founder == net.founder && after.held == net.held
    requires after.asks == net.asks && after.answers == net.answers
    ensures AllSourced(after)
  {
    QuietKeepsSourced(net, m, s, after);
  }

  /** Nothing changes but offers, asks and answers; new answers refuse or are to connect requests. */
  lemma TalkKeepsSourced(net: Net, after: Net)
    requires AllSourced(net) && Sound(after)
    requires after.nodes == net.nodes && after.founder == net.founder && after.held == net.held
    requires forall c :: AnswersKnown(net, after, c)
    ensures AllSourced(after)
  {
    if n :| n in net.nodes {
      assert after.nodes == net.nodes[n := net.nodes[n]];
      QuietKeepsSourced(net, n, net.nodes[n], after);
    } else {
      forall c ensures AnswerSourced(after, c) {
        KnownIsSourced(net, after, c);
      }
      forall n, p ensures HeldSourced(after, n, p) {
        assert HeldSourced(net, n, p) && HeldSound(net, n, p);
      }
    }
  }

  /** Node m stores one path more, of a known tree or one it founds. */
  lemma HoldKeepsSourced(net: Net, m: Ip, s: NodeState, p: Path, after: Net)
    requires AllSourced(net) && Sound(after) && m in net.nodes && after.nodes == net.nodes[m := s]
    requires s.publicKey == net.nodes[m].publicKey && s.peerKeys == net.nodes[m].peerKeys
    requires s.halfOpen == net.nodes[m].halfOpen || s.halfOpen == net.nodes[m].halfOpen - {p.uuid}
    requires after.held == net.held + {(m, p)} && Sourced(after, p)
    requires after.founder == if p.uuid in net.founder then net.founder else net.founder[p.uuid := m]
    requires forall c :: AnswersKnown(net, after, c)
    ensures AllSourced(after)
  {
    forall id ensures EntryKnown(net, after, m, s, id) {
    }
    PutKeepsSourced(net, m, s, after);
  }

  /** What an offer says was true of its sender. */
  lemma OfferIsSourced(net: Net, ip: Ip, n: Ip, o: Offer, p: Path)
    requires AllSourced(net) && Told(ip, n, o) in net.offers
    requires p.uuid == o.sealedId.id && p.next == Peer(ip) && p.next2 == o.nextHop && p.proxyPublic == o.proxyPublic
    ensures Sourced(net, p)
  {
    assert ToldSound(net, Told(ip, n, o));
    var q :| (ip, q) in net.held && OfferOf(q, o.sealedId.to) == o;
    assert HeldSourced(net, ip, q);
  }

  lemma RecordKeepsSourced(net: Net, n: Ip, ip: Ip, o: Offer, vouched: bool)
    requires AllSourced(net) && Enabled(net, RecordOffer(n, ip, o, vouched))
    requires Sound(Step(net, RecordOffer(n, ip, o, vouched)))
    ensures AllSourced(Step(net, RecordOffer(n, ip, o, vouched)))
  {
    var after, s := Step(net, RecordOffer(n, ip, o, vouched)), Record(net.nodes[n], ip, o, vouched);
    OfferIsSourced(net, ip, n, o, Entry(ip, o));
    QuietKeepsSourced(net, n, s, after);
  }

  lemma LearningKeepsSourced(net: Net, n: Ip, p: Ip, s: NodeState, after: Net)
    requires AllSourced(net) && Sound(after) && n in net.nodes && p in net.nodes && after.nodes == net.nodes[n := s]
    requires s == net.nodes[n].(peerKeys := net.nodes[n].peerKeys[p := net.nodes[p].publicKey])
    requires after.held == net.held && after.founder == net.founder
    requires after.asks == net.asks && after.answers == net.answers
    ensures AllSourced(after)
  {
    PutKeepsSourced(net, n, s, after);
  }

  lemma LearnKeepsSourced(net: Net, n: Ip, p: Ip)
    requires AllSourced(net) && Enabled(net, LearnKey(n, p)) && Sound(Step(net, LearnKey(n, p)))
    ensures AllSourced(Step(net, LearnKey(n, p)))
  {
    LearningKeepsSourced(net, n, p, Learn(net.nodes[n], p, net.nodes[p].publicKey), Step(net, LearnKey(n, p)));
  }

  lemma FoundKeepsSourced(net: Net, n: Ip, id: Uuid)
    requires AllSourced(net) && Enabled(net, Found(n, id)) && Sound(Step(net, Found(n, id)))
    ensures AllSourced(Step(net, Found(n, id)))
  {
    HoldKeepsSourced(net, n, BecomeProxy(net.nodes[n], id), SelfProxyPath(id, net.nodes[n].publicKey, 0),
                     Step(net, Found(n, id)));
  }

  lemma RefusingKeepsSourced(net: Net, conn: ConnId, id: Uuid)
    requires AllSourced(net) && Sound(Refused(net, conn, id))
    ensures AllSourced(Refused(net, conn, id))
  {
    forall c ensures AnswersKnown(net, Refused(net, conn, id), c) {
    }
    TalkKeepsSourced(net, Refused(net, conn, id));
  }

  lemma AdmitKeepsSourced(net: Net, conn: ConnId, secret: Secret, delivered: bool)
    requires AllSourced(net) && Enabled(net, Admit(conn, secret, delivered))
    requires Sound(AdmitStep(net, conn, secret, delivered))
    ensures AllSourced(AdmitStep(net, conn, secret, delivered))
  {
    var ask, after := net.asks[conn], AdmitStep(net, conn, secret, delivered);
    var s, id := net.nodes[ask.parent], ask.wanted.value;
    if Accepts(s, ask.child, id) {
      var t := AdmitCover(s, ask.child, id, KeyExchange.GetSymKey(ask.exchange, secret), conn);
      assert after.nodes == net.nodes[ask.parent := t];
      forall c ensures AnswersKnown(net, after, c) {
      }
      QuietKeepsSourced(net, ask.parent, t, after);
    } else {
      RefusingKeepsSourced(net, conn, id);
    }
  }

  lemma AdmitProxyKeepsSourced(net: Net, conn: ConnId, secret: Secret, id: Uuid, delivered: bool)
    requires AllSourced(net) && Enabled(net, AdmitProxy(conn, secret, id, delivered))
    requires Sound(AdmitProxyStep(net, conn, secret, id, delivered))
    ensures AllSourced(AdmitProxyStep(net, conn, secret, id, delivered))
  {
    var ask, after := net.asks[conn], AdmitProxyStep(net, conn, secret, id, delivered);
    var s := net.nodes[ask.parent];
    AdmitProxyEffect(net, conn, secret, id, delivered);
    if AcceptsProxy(s, ask.child) {
      var key := KeyExchange.GetSymKey(ask.exchange, secret);
      var p, t := SelfProxyPath(id, s.publicKey, key), AdmitCover(FoundTree(s, id, key), ask.child, id, key, conn);
      forall c ensures AnswersKnown(net, after, c) {
        ProxyAnswerKnown(net, conn, secret, id, delivered, after, c);
      }
      HoldKeepsSourced(net, ask.parent, t, p, after);
    } else {
      RefusingKeepsSourced(net, conn, id);
    }
  }

  lemma ProxyAnswerKnown(net: Net, conn: ConnId, secret: Secret, id: Uuid, delivered: bool, after: Net, c: ConnId)
    requires Enabled(net, AdmitProxy(conn, secret, id, delivered))
    requires AcceptsProxy(net.nodes[net.asks[conn].parent], net.asks[conn].child)
    requires after == AdmitProxyStep(net, conn, secret, id, delivered)
    ensures AnswersKnown(net, after, c)
  {
    var ask := net.asks[conn];
    var p := SelfProxyPath(id, net.nodes[ask.parent].publicKey, KeyExchange.GetSymKey(ask.exchange, secret));
    AdmitProxyEffect(net, conn, secret, id, delivered);
    assert (ask.parent, p) in after.held;
    assert HasSaid(after.held, ask.parent, id, Storage, net.nodes[ask.parent].publicKey);
  }

  lemma OpeningRemembers(net: Net, conn: ConnId, m: Ip, s: NodeState, p: Path)
    requires m in net.nodes && s.publicKey == net.nodes[m].publicKey
    ensures var after := Opened(net, conn, m, s, p);
            && after.nodes == net.nodes[m := s] && after.held == net.held + {(m, p)} && after.founder == net.founder
            && Remembers(net, after) && forall c :: AnswersKnown(net, after, c)
  {
  }

  /** Node m opens path p with the answer of connection conn, which is used up. */
  lemma OpeningKeepsSourced(net: Net, conn: ConnId, m: Ip, s: NodeState, p: Path, after: Net)
    requires AllSourced(net) && Sound(after) && m in net.nodes && after == Opened(net, conn, m, s, p)
    requires s.publicKey == net.nodes[m].publicKey && s.peerKeys == net.nodes[m].peerKeys
    requires s.halfOpen == net.nodes[m].halfOpen || s.halfOpen == net.nodes[m].halfOpen - {p.uuid}
    requires Sourced(net, p)
    ensures AllSourced(after)
  {
    OpeningRemembers(net, conn, m, s, p);
    StaysSourced(net, after, p);
    HoldKeepsSourced(net, m, s, p, after);
  }

  lemma CommitKeepsSourced(net: Net, conn: ConnId)
    requires AllSourced(net) && Enabled(net, Commit(conn)) && Sound(CommitStep(net, conn))
    ensures AllSourced(CommitStep(net, conn))
  {
    var ask, answer, after := net.asks[conn], net.answers[conn], CommitStep(net, conn);
    var s, id := net.nodes[ask.child], ask.wanted.value;
    if answer.accepted && id in s.halfOpen {
      var key, dialled := KeyExchange.GetSymKey(answer.exchange, ask.secret), Connection(ask.parent, conn);
      assert NodeSound(net, ask.child) && EntrySourced(net, ask.child, id);
      var t, p := CommitPath(s, id, key, dialled), OpenedPath(s.halfOpen[id], key, dialled);
      assert after == Opened(net, conn, ask.child, t, p) && Sourced(net, p);
      OpeningKeepsSourced(net, conn, ask.child, t, p, after);
    } else {
      TalkKeepsSourced(net, after);
    }
  }

  lemma CommitProxyKeepsSourced(net: Net, conn: ConnId)
    requires AllSourced(net) && Enabled(net, CommitProxy(conn)) && Sound(CommitProxyStep(net, conn))
    ensures AllSourced(CommitProxyStep(net, conn))
  {
    var ask, answer, after := net.asks[conn], net.answers[conn], CommitProxyStep(net, conn);
    var key := KeyExchange.GetSymKey(answer.exchange, ask.secret);
    var s := CommitProxyPath(net.nodes[ask.child], ask.parent, answer.tree, answer.proxyPublic, key, conn);
    var p := Path(answer.tree, Peer(ask.parent), Storage, answer.proxyPublic, key, 0, 0,
                  Some(Connection(ask.parent, conn)));
    assert AnswerSourced(net, conn) && AskSound(net, conn);
    assert after == Opened(net, conn, ask.child, s, p) && Sourced(net, p);
    OpeningKeepsSourced(net, conn, ask.child, s, p, after);
  }

  lemma WriteFixKeepsSourced(net: Net, n: Ip, was: Path, offer: Offer)
    requires AllSourced(net) && Enabled(net, WriteFix(n, was, offer)) && Sound(Step(net, WriteFix(n, was, offer)))
    ensures AllSourced(Step(net, WriteFix(n, was, offer)))
  {
    var after, p := Step(net, WriteFix(n, was, offer)), FixedPath(was, offer);
    OfferIsSourced(net, was.next.ip, n, offer, p);
    StaysSourced(net, after, p);
    HoldKeepsSourced(net, n, Repair(net.nodes[n], was, offer), p, after);
  }

  lemma MarkKeepsSourced(net: Net, n: Ip, jobId: JobId, job: Job)
    requires AllSourced(net) && n in net.nodes && Sound(MarkStep(net, n, jobId, job))
    ensures AllSourced(MarkStep(net, n, jobId, job))
  {
    var t, after := MarkJob(net.nodes[n], jobId, job), MarkStep(net, n, jobId, job);
    assert NodeSound(net, n);
    MarkEffect(net, n, jobId, job);
    if job.onPath in t.paths {
      var p := net.nodes[n].paths[job.onPath];
      assert HeldSourced(net, n, p);
      StaysSourced(net, after, t.paths[job.onPath]);
      HoldKeepsSourced(net, n, t, t.paths[job.onPath], after);
    } else {
      SilentKeepsSourced(net, n, t, after);
    }
  }

  lemma GoneKeepsSourced(net: Net, l: Label)
    requires AllSourced(net) && Enabled(net, l) && Sound(Step(net, l)) && (l.SenderGone? || l.WorkerGone?)
    ensures AllSourced(Step(net, l))
  {
    var link := net.links[l.conn];
    if l.SenderGone? {
      SilentKeepsSourced(net, link.child, SenderExit(net.nodes[link.child], link.tree, link.parent), Step(net, l));
    } else {
      SilentKeepsSourced(net, link.parent, CoverExit(net.nodes[link.parent], link.child), Step(net, l));
    }
  }

  lemma SourcedStep(net: Net, l: Label)
    requires AllSourced(net) && Enabled(net, l)
    ensures AllSourced(Step(net, l))
  {
    SoundStep(net, l);
    match l
    case Found(n, id) => FoundKeepsSourced(net, n, id);
    case AnswerQuery(_, _) => TalkKeepsSourced(net, Step(net, l));
    case LearnKey(n, p) => LearnKeepsSourced(net, n, p);
    case RecordOffer(n, ip, offer, vouched) => RecordKeepsSourced(net, n, ip, offer, vouched);
    case Request(_, _, _, _, _, _, _) => TalkKeepsSourced(net, Step(net, l));
    case Admit(conn, secret, delivered) => AdmitKeepsSourced(net, conn, secret, delivered);
    case AdmitProxy(conn, secret, id, delivered) => AdmitProxyKeepsSourced(net, conn, secret, id, delivered);
    case Commit(conn) => CommitKeepsSourced(net, conn);
    case CommitProxy(conn) => CommitProxyKeepsSourced(net, conn);
    case SenderGone(_) => GoneKeepsSourced(net, l);
    case WorkerGone(_) => GoneKeepsSourced(net, l);
    case WriteFix(n, was, offer) => WriteFixKeepsSourced(net, n, was, offer);
    case Mark(n, jobId, job) => MarkKeepsSourced(net, n, jobId, job);
  }

  lemma MoveKeepsSourced(d: Discipline, net: Net, l: Label, after: Net)
    requires AllSourced(net) && Moves(d, net, l, after)
    ensures AllSourced(after)
  {
    SourcedStep(net, l);
  }

  lemma {:induction false} SourcedThroughRun(d: Discipline, nets: seq<Net>, run: seq<Label>, i: nat)
    requires Run(d, nets, run) && i <= |run| && AllSourced(nets[0])
    ensures AllSourced(nets[i])
  {
    if i > 0 {
      SourcedThroughRun(d, nets, run, i - 1);
      assert StepAt(d, nets, run, i - 1);
      MoveKeepsSourced(d, nets[i - 1], run[i - 1], nets[i]);
    }
  }

  lemma InitialIsSourced(net: Net)
    requires Initial(net)
    ensures AllSourced(net)
  {
    InitialIsSound(net);
    forall n, q ensures KeysCached(net, n, q) && EntrySourced(net, n, 0) {
    }
  }

  lemma ReachableIsSourced(d: Discipline, net: Net)
    requires Reachable(d, net)
    ensures AllSourced(net)
  {
    var start :| Initial(start) && CanReach(d, start, net);
    var nets, run :| Run(d, nets, run) && nets[0] == start && nets[|run|] == net;
    InitialIsSourced(nets[0]);
    SourcedThroughRun(d, nets, run, |run|);
  }

  // ---- Requests and forwarding profiles ----

  /** Who asks to be connected has cached a key of the node it asks. */
  ghost predicate AskKeyed(net: Net, c: ConnId) {
    c in net.asks && net.asks[c].wanted.Some? ==>
      && net.asks[c].child in net.nodes && net.asks[c].parent in net.nodes[net.asks[c].child].peerKeys
  }

  /** A cover worker forwards as a path of its tree says that its node has held. */
  ghost predicate WorkerSourced(net: Net, c: ConnId) {
    c in net.workers ==>
      && c in net.links && net.workers[c].uuid == net.links[c].tree
      && (net.links[c].parent, net.workers[c]) in net.held
  }

  ghost predicate Equipped(net: Net) {
    && Sound(net)
    && (forall c :: AskKeyed(net, c))
    && (forall c :: WorkerSourced(net, c))
  }

  /** Node m changes to s and caches no fewer keys; the history and the links grow. */
  ghost predicate Grows(net: Net, m: Ip, s: NodeState, after: Net) {
    && m in net.nodes && after.nodes == net.nodes[m := s] && net.nodes[m].peerKeys.Keys <= s.peerKeys.Keys
    && net.held <= after.held
    && (forall c :: c in net.links ==> c in after.links && after.links[c] == net.links[c])
  }

  lemma GrowingKeepsEquipped(net: Net, m: Ip, s: NodeState, after: Net)
    requires Equipped(net) && Sound(after) && Grows(net, m, s, after)
    requires forall c :: c in after.asks && (c !in net.asks || net.asks[c] != after.asks[c]) ==> AskKeyed(after, c)
    requires forall c :: c in after.workers && (c !in net.workers || net.workers[c] != after.workers[c]) ==>
               WorkerSourced(after, c)
    ensures Equipped(after)
  {
    forall c ensures AskKeyed(after, c) && WorkerSourced(after, c) {
      assert AskKeyed(net, c) && WorkerSourced(net, c);
    }
  }

  lemma AdmitKeepsEquipped(net: Net, conn: ConnId, secret: Secret, delivered: bool)
    requires Equipped(net) && Enabled(net, Admit(conn, secret, delivered))
    requires Sound(AdmitStep(net, conn, secret, delivered))
    ensures Equipped(AdmitStep(net, conn, secret, delivered))
  {
    var ask, after := net.asks[conn], AdmitStep(net, conn, secret, delivered);
    var s, id := net.nodes[ask.parent], ask.wanted.value;
    assert NodeSound(net, ask.parent);
    if Accepts(s, ask.child, id) {
      var t := AdmitCover(s, ask.child, id, KeyExchange.GetSymKey(ask.exchange, secret), conn);
      GrowingKeepsEquipped(net, ask.parent, t, after);
    } else {
      GrowingKeepsEquipped(net, ask.parent, s, after);
    }
  }

  lemma AdmitProxyKeepsEquipped(net: Net, conn: ConnId, secret: Secret, id: Uuid, delivered: bool)
    requires Equipped(net) && Enabled(net, AdmitProxy(conn, secret, id, delivered))
    requires Sound(AdmitProxyStep(net, conn, secret, id, delivered))
    ensures Equipped(AdmitProxyStep(net, conn, secret, id, delivered))
  {
    var ask, after := net.asks[conn], AdmitProxyStep(net, conn, secret, id, delivered);
    var s := net.nodes[ask.parent];
    AdmitProxyEffect(net, conn, secret, id, delivered);
    if AcceptsProxy(s, ask.child) {
      var key := KeyExchange.GetSymKey(ask.exchange, secret);
      GrowingKeepsEquipped(net, ask.parent, AdmitCover(FoundTree(s, id, key), ask.child, id, key, conn), after);
    } else {
      GrowingKeepsEquipped(net, ask.parent, s, after);
    }
  }

  lemma CommitKeepsEquipped(net: Net, conn: ConnId)
    requires Equipped(net) && Enabled(net, Commit(conn)) && Sound(CommitStep(net, conn))
    ensures Equipped(CommitStep(net, conn))
  {
    var ask, answer, after := net.asks[conn], net.answers[conn], CommitStep(net, conn);
    var s, id := net.nodes[ask.child], ask.wanted.value;
    if answer.accepted && id in s.halfOpen {
      var key := KeyExchange.GetSymKey(answer.exchange, ask.secret);
      var t := CommitPath(s, id, key, Connection(ask.parent, conn));
      assert after == Opened(net, conn, ask.child, t, t.paths[id]);
      GrowingKeepsEquipped(net, ask.child, t, after);
    } else {
      GrowingKeepsEquipped(net, ask.child, s, after);
    }
  }

  lemma CommitProxyKeepsEquipped(net: Net, conn: ConnId)
    requires Equipped(net) && Enabled(net, CommitProxy(conn)) && Sound(CommitProxyStep(net, conn))
    ensures Equipped(CommitProxyStep(net, conn))
  {
    var after, child := CommitProxyStep(net, conn), net.asks[conn].child;
    GrowingKeepsEquipped(net, child, after.nodes[child], after);
  }

  lemma TalkKeepsEquipped(net: Net, l: Label)
    requires Equipped(net) && Enabled(net, l) && Sound(Step(net, l)) && (l.AnswerQuery? || l.Request?)
    ensures Equipped(Step(net, l))
  {
    var n := if l.Request? then l.n else l.p;
    GrowingKeepsEquipped(net, n, net.nodes[n], Step(net, l));
  }

  lemma GoneKeepsEquipped(net: Net, l: Label)
    requires Equipped(net) && Enabled(net, l) && Sound(Step(net, l)) && (l.SenderGone? || l.WorkerGone?)
    ensures Equipped(Step(net, l))
  {
    var after, link := Step(net, l), net.links[l.conn];
    var n := if l.SenderGone? then link.child else link.parent;
    GrowingKeepsEquipped(net, n, after.nodes[n], after);
  }

  lemma MarkKeepsEquipped(net: Net, n: Ip, jobId: JobId, job: Job)
    requires Equipped(net) && n in net.nodes && Sound(MarkStep(net, n, jobId, job))
    ensures Equipped(MarkStep(net, n, jobId, job))
  {
    MarkEffect(net, n, jobId, job);
    GrowingKeepsEquipped(net, n, MarkJob(net.nodes[n], jobId, job), MarkStep(net, n, jobId, job));
  }

  lemma OwnStepKeepsEquipped(net: Net, l: Label)
    requires Equipped(net) && Enabled(net, l) && Sound(Step(net, l))
    requires l.Found? || l.LearnKey? || l.RecordOffer? || l.WriteFix?
    ensures Equipped(Step(net, l))
  {
    var after := Step(net, l);
    GrowingKeepsEquipped(net, l.n, after.nodes[l.n], after);
  }

  lemma EquippedStep(net: Net, l: Label)
    requires Equipped(net) && Enabled(net, l)
    ensures Equipped(Step(net, l))
  {
    SoundStep(net, l);
    match l
    case AnswerQuery(_, _) => TalkKeepsEquipped(net, l);
    case Request(_, _, _, _, _, _, _) => TalkKeepsEquipped(net, l);
    case Admit(conn, secret, delivered) => AdmitKeepsEquipped(net, conn, secret, delivered);
    case AdmitProxy(conn, secret, id, delivered) => AdmitProxyKeepsEquipped(net, conn, secret, id, delivered);
    case Commit(conn) => CommitKeepsEquipped(net, conn);
    case CommitProxy(conn) => CommitProxyKeepsEquipped(net, conn);
    case SenderGone(_) => GoneKeepsEquipped(net, l);
    case WorkerGone(_) => GoneKeepsEquipped(net, l);
    case Mark(n, jobId, job) => MarkKeepsEquipped(net, n, jobId, job);
    case _ => OwnStepKeepsEquipped(net, l);
  }

  lemma MoveKeepsEquipped(d: Discipline, net: Net, l: Label, after: Net)
    requires Equipped(net) && Moves(d, net, l, after)
    ensures Equipped(after)
  {
    EquippedStep(net, l);
  }

  lemma {:induction false} EquippedThroughRun(d: Discipline, nets: seq<Net>, run: seq<Label>, i: nat)
    requires Run(d, nets, run) && i <= |run| && Equipped(nets[0])
    ensures Equipped(nets[i])
  {
    if i > 0 {
      EquippedThroughRun(d, nets, run, i - 1);
      assert StepAt(d, nets, run, i - 1);
      MoveKeepsEquipped(d, nets[i - 1], run[i - 1], nets[i]);
    }
  }

  lemma ReachableIsEquipped(d: Discipline, net: Net)
    requires Reachable(d, net)
    ensures Equipped(net)
  {
    var start :| Initial(start) && CanReach(d, start, net);
    var nets, run :| Run(d, nets, run) && nets[0] == start && nets[|run|] == net;
    InitialIsSound(nets[0]);
    EquippedThroughRun(d, nets, run, |run|);
  }

  // ---- Theorems ----

  /** Whoever holds a path of a tree, however he came by it, has the key of the one node that founded the tree and
      proxies it still. */
  lemma ProxyKeyIsTheProxys(d: Discipline, net: Net, n: Ip, id: Uuid)
    requires Reachable(d, net) && Holds(net, n, id)
    ensures id in net.founder
    ensures var e := net.founder[id];
            && Holds(net, e, id) && PathAt(net, e, id).next == Storage
            && PathAt(net, n, id).proxyPublic == net.nodes[e].publicKey
            && (PathAt(net, n, id).next == Storage ==> n == e)
  {
    ReachableIsSourced(d, net);
    assert NodeSound(net, n) && HeldSourced(net, n, PathAt(net, n, id)) && HeldSound(net, n, PathAt(net, n, id));
    var e := net.founder[id];
    assert FounderSound(net, id) && NodeSound(net, e);
    assert HeldSound(net, e, PathAt(net, e, id));
  }

  /** The next hop of a path has itself held a path of the tree that led to what is the next-next hop. */
  lemma NextHopHasLedThere(d: Discipline, net: Net, n: Ip, id: Uuid) returns (above: Path)
    requires Reachable(d, net) && Holds(net, n, id) && PathAt(net, n, id).next.Peer?
    ensures (PathAt(net, n, id).next.ip, above) in net.held
    ensures above.uuid == id && above.next == PathAt(net, n, id).next2
    ensures above.proxyPublic == PathAt(net, n, id).proxyPublic
  {
    ReachableIsSourced(d, net);
    var p := PathAt(net, n, id);
    assert NodeSound(net, n) && HeldSourced(net, n, p);
    above :| (p.next.ip, above) in net.held && above.uuid == p.uuid && above.next == p.next2
             && above.proxyPublic == p.proxyPublic;
  }

  /** Every connect request, whenever it was made: the tree id, sealed with the key the child has cached, opens at the
      parent, whose handler therefore answers. */
  lemma RequestsOpen(d: Discipline, net: Net, c: ConnId, secret: Secret)
    requires Reachable(d, net) && c in net.asks && net.asks[c].wanted.Some?
    ensures var ask := net.asks[c];
            && ask.child in net.nodes && ask.parent in net.nodes && ask.parent in net.nodes[ask.child].peerKeys
            && var key := net.nodes[ask.child].peerKeys[ask.parent];
               HandleConnectPath(net.nodes[ask.parent], ask.child, SealedId(key, ask.wanted.value), ask.exchange,
                                 secret, c).1.Some?
  {
    ReachableIsSourced(d, net);
    ReachableIsEquipped(d, net);
    assert AskKeyed(net, c) && KeysCached(net, net.asks[c].child, net.asks[c].parent);
  }

  /** A live cover worker forwards by a path of its own tree that its node holds or has held; with the key of the one
      node that founded the tree. */
  lemma WorkersForwardOwnPaths(d: Discipline, net: Net, c: ConnId)
    requires Reachable(d, net) && c in net.workers
    ensures c in net.links
    ensures var link, forward := net.links[c], net.workers[c];
            && forward.uuid == link.tree && (link.parent, forward) in net.held
            && FoundersKey(net, link.tree, forward.proxyPublic)
  {
    ReachableIsSourced(d, net);
    ReachableIsEquipped(d, net);
    assert WorkerSourced(net, c) && HeldSourced(net, net.links[c].parent, net.workers[c]);
  }
}
