/** In runs whose joins are fresh, the order in which nodes first held a tree falls along every pointer a node
    remembers, so the next hops of a tree form no cycle and move-ups come to an end. */
module Acyclicity {
  import opened Profiles
  import opened NodeSteps
  import opened Overlay
  import opened Permanence
  import KeyExchange

  /** If hop a is a peer, it joined tree id before node b did. */
  predicate Below(rank: Ranks, id: Uuid, a: Hop, b: Ip) {
    a.Peer? ==> Joined(rank, id, a.ip) && Joined(rank, id, b) && rank[(id, a.ip)] < rank[(id, b)]
  }

  predicate PathFalls(rank: Ranks, n: Ip, p: Path) {
    && Joined(rank, p.uuid, n)
    && Below(rank, p.uuid, p.next, n)
    && (p.next.Peer? ==> Below(rank, p.uuid, p.next2, p.next.ip))
  }

  /** A half-open entry may still be there when its owner joins the tree, or may outlive the owner's path. */
  predicate EntryFalls(rank: Ranks, n: Ip, e: Path) {
    && e.next.Peer? && Joined(rank, e.uuid, e.next.ip)
    && Below(rank, e.uuid, e.next2, e.next.ip)
    && (Joined(rank, e.uuid, n) ==> Below(rank, e.uuid, e.next, n))
  }

  /** Ranks stay below the number of joins, so a newcomer's rank is above them all. */
  ghost predicate RanksBounded(rank: Ranks) {
    forall k :: k in rank ==> rank[k] < |rank|
  }

  ghost predicate MembersHeld(net: Net, id: Uuid, n: Ip) {
    Joined(net.rank, id, n) ==> n in net.nodes && id in net.founder && exists p :: (n, p) in net.held && p.uuid == id
  }

  ghost predicate FounderFirst(net: Net, id: Uuid) {
    id in net.founder ==>
      && Joined(net.rank, id, net.founder[id])
      && (forall n :: Joined(net.rank, id, n) && n != net.founder[id] ==>
            net.rank[(id, n)] > net.rank[(id, net.founder[id])])
  }

  ghost predicate Ranked(net: Net) {
    && Sound(net)
    && RanksBounded(net.rank)
    && (forall id, n :: MembersHeld(net, id, n))
    && (forall id :: FounderFirst(net, id))
    && (forall n, p :: (n, p) in net.held ==> PathFalls(net.rank, n, p))
    && (forall n, id :: n in net.nodes && id in net.nodes[n].halfOpen ==>
          EntryFalls(net.rank, n, net.nodes[n].halfOpen[id]))
  }

  // ---- Joining keeps all earlier ranks below ----

  ghost predicate Grows(rank: Ranks, after: Ranks, id: Uuid, n: Ip) {
    && RanksBounded(after)
    && after.Keys == rank.Keys + {(id, n)}
    && (forall k :: k in rank ==> after[k] == rank[k])
    && (!Joined(rank, id, n) ==> forall k :: k in rank ==> after[k] < after[(id, n)])
  }

  lemma EnrolGrows(rank: Ranks, id: Uuid, n: Ip)
    requires RanksBounded(rank)
    ensures Grows(rank, Enrol(rank, id, n), id, n)
  {
    if !Joined(rank, id, n) {
      assert Enrol(rank, id, n).Keys == rank.Keys + {(id, n)};
    }
  }

  lemma PathFallsOn(rank: Ranks, after: Ranks, id: Uuid, n: Ip, m: Ip, p: Path)
    requires Grows(rank, after, id, n) && PathFalls(rank, m, p)
    ensures PathFalls(after, m, p)
  {
  }

  lemma EntryFallsOn(rank: Ranks, after: Ranks, id: Uuid, n: Ip, m: Ip, e: Path)
    requires Grows(rank, after, id, n) && EntryFalls(rank, m, e)
    ensures EntryFalls(after, m, e)
  {
  }

  /** The opened path falls once its owner is enrolled, whether or not it was a member before. */
  lemma EntryOpens(rank: Ranks, after: Ranks, n: Ip, e: Path, key: Secret, conn: Connection)
    requires Grows(rank, after, e.uuid, n) && EntryFalls(rank, n, e) && e.next.ip != n
    ensures PathFalls(after, n, OpenedPath(e, key, conn))
  {
  }

  // ---- Steps ----

  /** What was remembered before node n stored path p falls under the grown ranks as well. */
  lemma OldPointersFallOn(net: Net, after: Net, id: Uuid, n: Ip, p: Path)
    requires Ranked(net) && Grows(net.rank, after.rank, id, n)
    requires after.held == net.held + {(n, p)} && PathFalls(after.rank, n, p)
    ensures forall m, q :: (m, q) in after.held ==> PathFalls(after.rank, m, q)
    ensures forall m, k :: m in net.nodes && k in net.nodes[m].halfOpen ==>
              EntryFalls(after.rank, m, net.nodes[m].halfOpen[k])
  {
    forall m, q | (m, q) in after.held ensures PathFalls(after.rank, m, q) {
      if (m, q) in net.held {
        PathFallsOn(net.rank, after.rank, id, n, m, q);
      }
    }
    forall m, k | m in net.nodes && k in net.nodes[m].halfOpen
      ensures EntryFalls(after.rank, m, net.nodes[m].halfOpen[k])
    {
      EntryFallsOn(net.rank, after.rank, id, n, m, net.nodes[m].halfOpen[k]);
    }
  }

  lemma FirstStaysFirst(rank: Ranks, after: Ranks, id: Uuid, n: Ip, k: Uuid, f: Ip, m: Ip)
    requires Grows(rank, after, id, n) && Joined(rank, k, f) && Joined(after, k, m) && m != f
    requires Joined(rank, k, m) ==> rank[(k, m)] > rank[(k, f)]
    ensures after[(k, m)] > after[(k, f)]
  {
    if !Joined(rank, k, m) {
      assert (k, m) == (id, n);
    }
  }

  lemma FounderStaysFirst(net: Net, after: Net, id: Uuid, n: Ip, k: Uuid)
    requires Grows(net.rank, after.rank, id, n) && FounderFirst(net, k) && forall m :: MembersHeld(net, k, m)
    requires after.founder == if id in net.founder then net.founder else net.founder[id := n]
    ensures FounderFirst(after, k)
  {
    if k in after.founder {
      var f := after.founder[k];
      forall m | Joined(after.rank, k, m) && m != f ensures after.rank[(k, m)] > after.rank[(k, f)] {
        assert MembersHeld(net, k, m);
        assert k in net.founder;
        FirstStaysFirst(net.rank, after.rank, id, n, k, f, m);
      }
    }
  }

  /** Node n stores path p, whose pointers fall under the new ranks, for a known tree or one it founds. */
  lemma HoldKeepsRanked(net: Net, n: Ip, s: NodeState, p: Path, after: Net)
    requires Ranked(net) && n in net.nodes && Sound(after)
    requires after.rank == Enrol(net.rank, p.uuid, n) && after.held == net.held + {(n, p)}
    requires after.founder == if p.uuid in net.founder then net.founder else net.founder[p.uuid := n]
    requires after.nodes == net.nodes[n := s]
    requires forall k :: k in s.halfOpen ==> k in net.nodes[n].halfOpen && s.halfOpen[k] == net.nodes[n].halfOpen[k]
    requires PathFalls(after.rank, n, p)
    ensures Ranked(after)
  {
    EnrolGrows(net.rank, p.uuid, n);
    OldPointersFallOn(net, after, p.uuid, n, p);
    forall k ensures FounderFirst(after, k) {
      assert FounderFirst(net, k) && forall m :: MembersHeld(net, k, m);
      FounderStaysFirst(net, after, p.uuid, n, k);
    }
    forall k, m ensures MembersHeld(after, k, m) {
      assert MembersHeld(net, k, m);
      assert (n, p) in after.held;
    }
  }

  /** A step that leaves ranks and history alone and gives node n no half-open entry that does not fall. */
  lemma QuietStepKeepsRanked(net: Net, n: Ip, s: NodeState, after: Net)
    requires Ranked(net) && n in net.nodes && Sound(after)
    requires after.rank == net.rank && after.held == net.held && after.founder == net.founder
    requires after.nodes == net.nodes[n := s]
    requires forall k :: k in s.halfOpen ==>
               (k in net.nodes[n].halfOpen && s.halfOpen[k] == net.nodes[n].halfOpen[k])
               || EntryFalls(net.rank, n, s.halfOpen[k])
    ensures Ranked(after)
  {
    TalkKeepsRanked(net, after);
  }

  lemma TalkKeepsRanked(net: Net, after: Net)
    requires Ranked(net) && Sound(after)
    requires after.rank == net.rank && after.held == net.held && after.founder == net.founder
    requires after.nodes.Keys == net.nodes.Keys
    requires forall n, id :: n in after.nodes && id in after.nodes[n].halfOpen ==>
               EntryFalls(after.rank, n, after.nodes[n].halfOpen[id])
    ensures Ranked(after)
  {
    forall k, m ensures MembersHeld(after, k, m) {
      assert MembersHeld(net, k, m);
    }
    forall k ensures FounderFirst(after, k) {
      assert FounderFirst(net, k);
    }
  }

  /** A fresh or move-up offer becomes an entry that falls. */
  lemma RecordedEntryFalls(net: Net, n: Ip, ip: Ip, offer: Offer, vouched: bool)
    requires Ranked(net) && Enabled(net, RecordOffer(n, ip, offer, vouched))
    requires FreshJoin(net, RecordOffer(n, ip, offer, vouched))
    ensures EntryFalls(net.rank, n, Entry(ip, offer))
  {
    var id := offer.sealedId.id;
    assert ToldSound(net, Told(ip, n, offer));
    var p :| (ip, p) in net.held && OfferOf(p, offer.sealedId.to) == offer;
    assert PathFalls(net.rank, ip, p);
    if Joined(net.rank, id, n) {
      assert MembersHeld(net, id, n);
      var mine :| (n, mine) in net.held && mine.uuid == id && mine.next2 == Peer(ip);
      assert PathFalls(net.rank, n, mine) && HeldSound(net, n, mine);
    }
  }

  lemma AdmitKeepsRanked(net: Net, conn: ConnId, secret: Secret, delivered: bool)
    requires Ranked(net) && Pending(net, conn) && net.asks[conn].wanted.Some?
    requires Sound(AdmitStep(net, conn, secret, delivered))
    ensures Ranked(AdmitStep(net, conn, secret, delivered))
  {
    var ask, after := net.asks[conn], AdmitStep(net, conn, secret, delivered);
    var s, id := net.nodes[ask.parent], ask.wanted.value;
    if Accepts(s, ask.child, id) {
      var t := AdmitCover(s, ask.child, id, KeyExchange.GetSymKey(ask.exchange, secret), conn);
      assert after.nodes == net.nodes[ask.parent := t];
      QuietStepKeepsRanked(net, ask.parent, t, after);
    } else {
      TalkKeepsRanked(net, after);
    }
  }

  lemma AdmitProxyKeepsRanked(net: Net, conn: ConnId, secret: Secret, id: Uuid, delivered: bool)
    requires Ranked(net) && Pending(net, conn) && id !in net.founder
    requires Sound(AdmitProxyStep(net, conn, secret, id, delivered))
    ensures Ranked(AdmitProxyStep(net, conn, secret, id, delivered))
  {
    var ask, after := net.asks[conn], AdmitProxyStep(net, conn, secret, id, delivered);
    var s := net.nodes[ask.parent];
    if AcceptsProxy(s, ask.child) {
      var p := SelfProxyPath(id, s.publicKey, KeyExchange.GetSymKey(ask.exchange, secret));
      assert after.rank == Enrol(net.rank, id, ask.parent) && after.held == net.held + {(ask.parent, p)};
      var t := AdmitCover(FoundTree(s, id, p.symKey), ask.child, id, p.symKey, conn);
      assert after.nodes == net.nodes[ask.parent := t] && after.founder == net.founder[id := ask.parent];
      EnrolGrows(net.rank, id, ask.parent);
      HoldKeepsRanked(net, ask.parent, t, p, after);
    } else {
      TalkKeepsRanked(net, after);
    }
  }

  lemma CommitKeepsRanked(net: Net, conn: ConnId)
    requires Ranked(net) && Answered(net, conn) && net.asks[conn].wanted.Some? && Sound(CommitStep(net, conn))
    ensures Ranked(CommitStep(net, conn))
  {
    var ask, answer, after := net.asks[conn], net.answers[conn], CommitStep(net, conn);
    var s, id := net.nodes[ask.child], ask.wanted.value;
    if answer.accepted && id in s.halfOpen {
      var key, dialled := KeyExchange.GetSymKey(answer.exchange, ask.secret), Connection(ask.parent, conn);
      assert NodeSound(net, ask.child);
      EnrolGrows(net.rank, id, ask.child);
      EntryOpens(net.rank, after.rank, ask.child, s.halfOpen[id], key, dialled);
      HoldKeepsRanked(net, ask.child, after.nodes[ask.child], OpenedPath(s.halfOpen[id], key, dialled), after);
    } else {
      TalkKeepsRanked(net, after);
    }
  }

  lemma CommitProxyKeepsRanked(net: Net, conn: ConnId)
    requires Ranked(net) && Enabled(net, CommitProxy(conn)) && Sound(CommitProxyStep(net, conn))
    ensures Ranked(CommitProxyStep(net, conn))
  {
    var ask, answer, after := net.asks[conn], net.answers[conn], CommitProxyStep(net, conn);
    var p := Path(answer.tree, Peer(ask.parent), Storage, answer.proxyPublic,
                  KeyExchange.GetSymKey(answer.exchange, ask.secret), 0, 0, Some(Connection(ask.parent, conn)));
    assert AskSound(net, conn) && FounderFirst(net, answer.tree);
    EnrolGrows(net.rank, answer.tree, ask.child);
    assert after.held == net.held + {(ask.child, p)} && after.rank == Enrol(net.rank, p.uuid, ask.child);
    HoldKeepsRanked(net, ask.child, after.nodes[ask.child], p, after);
  }

  lemma WriteFixKeepsRanked(net: Net, n: Ip, was: Path, offer: Offer)
    requires Ranked(net) && Enabled(net, WriteFix(n, was, offer)) && Sound(Step(net, WriteFix(n, was, offer)))
    ensures Ranked(Step(net, WriteFix(n, was, offer)))
  {
    var told := Told(was.next.ip, n, offer);
    assert ToldSound(net, told) && HeldSound(net, n, was) && PathFalls(net.rank, n, was);
    var p :| (told.from, p) in net.held && OfferOf(p, offer.sealedId.to) == offer;
    assert PathFalls(net.rank, told.from, p);
    EnrolGrows(net.rank, was.uuid, n);
    HoldKeepsRanked(net, n, Repair(net.nodes[n], was, offer), FixedPath(was, offer),
                    Step(net, WriteFix(n, was, offer)));
  }

  /** Counting a job changes no pointer. */
  lemma MarkKeepsRanked(net: Net, n: Ip, jobId: JobId, job: Job)
    requires Ranked(net) && n in net.nodes && Sound(MarkStep(net, n, jobId, job))
    ensures Ranked(MarkStep(net, n, jobId, job))
  {
    var t, after := MarkJob(net.nodes[n], jobId, job), MarkStep(net, n, jobId, job);
    var id := job.onPath;
    assert NodeSound(net, n);
    MarkEffect(net, n, jobId, job);
    if id in t.paths {
      assert PathFalls(net.rank, n, net.nodes[n].paths[id]) && HeldSound(net, n, net.nodes[n].paths[id]);
      EnrolGrows(net.rank, id, n);
      HoldKeepsRanked(net, n, t, t.paths[id], after);
    } else {
      QuietStepKeepsRanked(net, n, t, after);
    }
  }

  lemma OwnStepKeepsRanked(net: Net, l: Label)
    requires Ranked(net) && Enabled(net, l) && FreshJoin(net, l) && Sound(Step(net, l))
    requires l.Found? || l.LearnKey? || l.RecordOffer? || l.SenderGone? || l.WorkerGone?
    ensures Ranked(Step(net, l))
  {
    var after := Step(net, l);
    match l
    case Found(n, id) =>
      EnrolGrows(net.rank, id, n);
      HoldKeepsRanked(net, n, BecomeProxy(net.nodes[n], id), SelfProxyPath(id, net.nodes[n].publicKey, 0), after);
    case LearnKey(n, p) => QuietStepKeepsRanked(net, n, Learn(net.nodes[n], p, net.nodes[p].publicKey), after);
    case RecordOffer(n, ip, offer, vouched) =>
      RecordedEntryFalls(net, n, ip, offer, vouched);
      QuietStepKeepsRanked(net, n, Record(net.nodes[n], ip, offer, vouched), after);
    case SenderGone(conn) =>
      var link := net.links[conn];
      QuietStepKeepsRanked(net, link.child, SenderExit(net.nodes[link.child], link.tree, link.parent), after);
    case WorkerGone(conn) =>
      var link := net.links[conn];
      QuietStepKeepsRanked(net, link.parent, CoverExit(net.nodes[link.parent], link.child), after);
  }

  lemma RankedStep(net: Net, l: Label)
    requires Ranked(net) && Enabled(net, l) && FreshJoin(net, l)
    ensures Ranked(Step(net, l))
  {
    SoundStep(net, l);
    match l
    case AnswerQuery(_, _) => TalkKeepsRanked(net, Step(net, l));
    case Request(_, _, _, _, _, _, _) => TalkKeepsRanked(net, Step(net, l));
    case Admit(conn, secret, delivered) => AdmitKeepsRanked(net, conn, secret, delivered);
    case AdmitProxy(conn, secret, id, delivered) => AdmitProxyKeepsRanked(net, conn, secret, id, delivered);
    case Commit(conn) => CommitKeepsRanked(net, conn);
    case CommitProxy(conn) => CommitProxyKeepsRanked(net, conn);
    case WriteFix(n, was, offer) => WriteFixKeepsRanked(net, n, was, offer);
    case Mark(n, jobId, job) => MarkKeepsRanked(net, n, jobId, job);
    case _ => OwnStepKeepsRanked(net, l);
  }

  lemma MoveKeepsRanked(d: Discipline, net: Net, l: Label, after: Net)
    requires Ranked(net) && d.freshJoins && Moves(d, net, l, after)
    ensures Ranked(after)
  {
    RankedStep(net, l);
  }

  lemma {:induction false} RankedThroughRun(d: Discipline, nets: seq<Net>, run: seq<Label>, i: nat)
    requires Run(d, nets, run) && d.freshJoins && i <= |run| && Ranked(nets[0])
    ensures Ranked(nets[i])
  {
    if i > 0 {
      RankedThroughRun(d, nets, run, i - 1);
      assert StepAt(d, nets, run, i - 1);
      MoveKeepsRanked(d, nets[i - 1], run[i - 1], nets[i]);
    }
  }

  lemma ReachableIsRanked(d: Discipline, net: Net)
    requires Reachable(d, net) && d.freshJoins
    ensures Ranked(net)
  {
    var start :| Initial(start) && CanReach(d, start, net);
    var nets, run :| Run(d, nets, run) && nets[0] == start && nets[|run|] == net;
    InitialIsSound(nets[0]);
    assert forall id, n :: MembersHeld(nets[0], id, n);
    assert forall id :: FounderFirst(nets[0], id);
    RankedThroughRun(d, nets, run, |run|);
  }

  // ---- Theorems ----

  /** Ranks fall from a node to the next hop and on to the next-next hop, for paths and half-open entries alike. */
  lemma PointersFall(d: Discipline, net: Net, n: Ip, id: Uuid)
    requires Reachable(d, net) && d.freshJoins && n in net.nodes
    ensures id in net.nodes[n].paths ==>
              var p := net.nodes[n].paths[id];
              && Joined(net.rank, id, n) && Below(net.rank, id, p.next, n)
              && (p.next.Peer? ==> Below(net.rank, id, p.next2, p.next.ip))
    ensures id in net.nodes[n].halfOpen ==>
              var e := net.nodes[n].halfOpen[id];
              && e.next.Peer? && Joined(net.rank, id, e.next.ip) && Below(net.rank, id, e.next2, e.next.ip)
              && (Joined(net.rank, id, n) ==> Below(net.rank, id, e.next, n))
  {
    ReachableIsRanked(d, net);
    assert NodeSound(net, n);
    if id in net.nodes[n].paths {
      assert PathFalls(net.rank, n, net.nodes[n].paths[id]);
    }
  }

  /** Following the next hops of tree id for k hops leads from a to b. */
  ghost predicate Leads(nodes: map<Ip, NodeState>, id: Uuid, a: Ip, b: Ip, k: nat)
    decreases k
  {
    if k == 0 then a == b
    else
      && a in nodes && id in nodes[a].paths && nodes[a].paths[id].next.Peer?
      && Leads(nodes, id, nodes[a].paths[id].next.ip, b, k - 1)
  }

  lemma {:induction false} LeadsDown(net: Net, id: Uuid, a: Ip, b: Ip, k: nat)
    requires Ranked(net) && Leads(net.nodes, id, a, b, k) && k > 0
    ensures Joined(net.rank, id, a) && Joined(net.rank, id, b) && net.rank[(id, b)] + k <= net.rank[(id, a)]
    decreases k
  {
    assert NodeSound(net, a) && PathFalls(net.rank, a, net.nodes[a].paths[id]);
    if k > 1 {
      LeadsDown(net, id, net.nodes[a].paths[id].next.ip, b, k - 1);
    }
  }

  /** No node of a reachable network is its own ancestor in any tree. */
  lemma NoCycle(d: Discipline, net: Net, id: Uuid, n: Ip, k: nat)
    requires Reachable(d, net) && d.freshJoins && k > 0
    ensures !Leads(net.nodes, id, n, n, k)
  {
    ReachableIsRanked(d, net);
    if Leads(net.nodes, id, n, n, k) {
      LeadsDown(net, id, n, n, k);
    }
  }
}
