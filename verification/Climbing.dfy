/** How one path of one node changes over a run, and why move-ups on it come to an end. */
module Climbing {
  import opened Profiles
  import opened Overlay
  import opened Permanence
  import opened Acyclicity

  // ---- Ranks only grow at the top ----

  ghost predicate RanksKept(net: Net, after: Net) {
    && after.nodes.Keys == net.nodes.Keys
    && (forall k :: k in net.rank ==> k in after.rank && after.rank[k] == net.rank[k])
    && (forall j, k :: j in net.rank && k in after.rank && k !in net.rank ==> net.rank[j] < after.rank[k])
  }

  /** At most node n was enrolled, for tree id. */
  ghost predicate Enrols(net: Net, after: Net, id: Uuid, n: Ip) {
    after.nodes.Keys == net.nodes.Keys && (after.rank == net.rank || after.rank == Enrol(net.rank, id, n))
  }

  lemma AdmitEnrols(net: Net, conn: ConnId, secret: Secret, delivered: bool)
    requires Pending(net, conn) && net.asks[conn].wanted.Some?
    ensures Enrols(net, AdmitStep(net, conn, secret, delivered), 0, "")
  {
  }

  lemma AdmitProxyEnrols(net: Net, conn: ConnId, secret: Secret, id: Uuid, delivered: bool)
    requires Pending(net, conn)
    ensures Enrols(net, AdmitProxyStep(net, conn, secret, id, delivered), id, net.asks[conn].parent)
  {
    AdmitProxyEffect(net, conn, secret, id, delivered);
  }

  lemma CommitEnrols(net: Net, conn: ConnId)
    requires Answered(net, conn) && net.asks[conn].wanted.Some? && NodeSound(net, net.asks[conn].child)
    ensures Enrols(net, CommitStep(net, conn), net.asks[conn].wanted.value, net.asks[conn].child)
  {
    var s, id := net.nodes[net.asks[conn].child], net.asks[conn].wanted.value;
    if net.answers[conn].accepted && id in s.halfOpen {
      CommitEffect(net, conn);
      assert s.halfOpen[id].uuid == id;
    }
  }

  lemma CommitProxyEnrols(net: Net, conn: ConnId)
    requires Answered(net, conn)
    ensures Enrols(net, CommitProxyStep(net, conn), net.answers[conn].tree, net.asks[conn].child)
  {
  }

  lemma MarkEnrols(net: Net, n: Ip, jobId: JobId, job: Job)
    requires n in net.nodes && NodeSound(net, n)
    ensures Enrols(net, MarkStep(net, n, jobId, job), job.onPath, n)
  {
    MarkEffect(net, n, jobId, job);
  }

  lemma OthersEnrol(net: Net, l: Label)
    requires Enabled(net, l)
    requires l.AnswerQuery? || l.LearnKey? || l.RecordOffer? || l.Request? || l.SenderGone? || l.WorkerGone?
    ensures Enrols(net, Step(net, l), 0, "")
  {
  }

  lemma OwnStepEnrols(net: Net, l: Label) returns (id: Uuid)
    requires Enabled(net, l) && (l.Found? || l.WriteFix?)
    ensures Enrols(net, Step(net, l), id, l.n)
  {
    id := if l.Found? then l.id else l.was.uuid;
  }

  lemma StepEnrols(net: Net, l: Label) returns (id: Uuid, n: Ip)
    requires Sound(net) && Enabled(net, l)
    ensures Enrols(net, Step(net, l), id, n)
  {
    match l
    case Commit(conn) =>
      assert NodeSound(net, net.asks[conn].child);
      CommitEnrols(net, conn);
      id, n := net.asks[conn].wanted.value, net.asks[conn].child;
    case CommitProxy(conn) =>
      CommitProxyEnrols(net, conn);
      id, n := net.answers[conn].tree, net.asks[conn].child;
    case Mark(m, jobId, job) =>
      assert NodeSound(net, m);
      MarkEnrols(net, m, jobId, job);
      id, n := job.onPath, m;
    case Admit(conn, secret, delivered) =>
      AdmitEnrols(net, conn, secret, delivered);
      id, n := 0, "";
    case AdmitProxy(conn, secret, k, delivered) =>
      AdmitProxyEnrols(net, conn, secret, k, delivered);
      id, n := k, net.asks[conn].parent;
    case Found(m, _) =>
      n := m;
      id := OwnStepEnrols(net, l);
    case WriteFix(m, _, _) =>
      n := m;
      id := OwnStepEnrols(net, l);
    case _ =>
      OthersEnrol(net, l);
      id, n := 0, "";
  }

  lemma StepKeepsRanks(net: Net, l: Label)
    requires Sound(net) && RanksBounded(net.rank) && Enabled(net, l)
    ensures RanksKept(net, Step(net, l))
  {
    var id, n := StepEnrols(net, l);
    EnrolGrows(net.rank, id, n);
  }

  // ---- Counting move-ups ----

  /** The nodes that joined tree id before node q did. */
  ghost function Before(net: Net, id: Uuid, q: Ip): set<Ip> {
    set m | m in net.nodes && Joined(net.rank, id, m) && Joined(net.rank, id, q)
      && net.rank[(id, m)] < net.rank[(id, q)]
  }

  lemma BeforeIsFixed(net: Net, after: Net, id: Uuid, q: Ip)
    requires RanksKept(net, after) && Joined(net.rank, id, q)
    ensures Before(after, id, q) == Before(net, id, q)
  {
  }

  lemma BeforeShrinks(net: Net, id: Uuid, a: Ip, b: Ip)
    requires Ranked(net) && Below(net.rank, id, Peer(a), b)
    ensures Before(net, id, a) < Before(net, id, b) && |Before(net, id, a)| < |Before(net, id, b)|
  {
    assert MembersHeld(net, id, a);
    assert a in Before(net, id, b) && a !in Before(net, id, a);
    Smaller(Before(net, id, a), Before(net, id, b));
  }

  lemma Smaller(x: set<Ip>, y: set<Ip>)
    requires x < y
    ensures |x| < |y|
  {
    assert |y - x| == |y| - |x|;
    var e :| e in y - x;
  }

  // ---- Which steps set a path back ----

  predicate HangsUnder(net: Net, n: Ip, id: Uuid) {
    Holds(net, n, id) && PathAt(net, n, id).next.Peer?
  }

  /** How many members of tree id joined before the peer that node n hangs under. */
  ghost function Height(net: Net, n: Ip, id: Uuid): nat {
    if HangsUnder(net, n, id) then |Before(net, id, PathAt(net, n, id).next.ip)| else 0
  }

  predicate JoinedLater(net: Net, id: Uuid, a: Ip, b: Ip) {
    Joined(net.rank, id, a) && Joined(net.rank, id, b) && net.rank[(id, b)] < net.rank[(id, a)]
  }

  /** The entry that is committed, or the value that FIX writes back, names a peer that joined later than the present
      one. */
  predicate Sinks(net: Net, l: Label, n: Ip, id: Uuid)
    requires HangsUnder(net, n, id)
  {
    var q := PathAt(net, n, id).next.ip;
    || (Reopens(net, l, n, id) && net.nodes[n].halfOpen[id].next.Peer?
        && JoinedLater(net, id, net.nodes[n].halfOpen[id].next.ip, q))
    || (Fixes(l, n, id) && l.was.next.Peer? && JoinedLater(net, id, l.was.next.ip, q))
  }

  /** Node n commits a half-open entry that leads to the next-next hop of its path. */
  predicate MovesUp(net: Net, l: Label, n: Ip, id: Uuid) {
    Reopens(net, l, n, id) && net.nodes[n].halfOpen[id].next == PathAt(net, n, id).next2
  }

  lemma HeightByRank(net: Net, id: Uuid, a: Ip, b: Ip)
    requires Ranked(net) && Joined(net.rank, id, a) && Joined(net.rank, id, b)
    ensures |Before(net, id, b)| < |Before(net, id, a)| <==> JoinedLater(net, id, a, b)
  {
    if net.rank[(id, b)] < net.rank[(id, a)] {
      BeforeShrinks(net, id, b, a);
    } else if net.rank[(id, a)] < net.rank[(id, b)] {
      BeforeShrinks(net, id, a, b);
    } else {
      assert Before(net, id, a) == Before(net, id, b);
    }
  }

  /** The peer that n hangs under after the step joined before the step, and later than the present one exactly if the
      step sinks. */
  lemma NewPeer(net: Net, l: Label, after: Net, n: Ip, id: Uuid)
    requires Ranked(net) && Enabled(net, l) && HangsUnder(net, n, id) && HangsUnder(after, n, id)
    requires Fated(net, l, n, id, after)
    ensures var p, q := PathAt(net, n, id), PathAt(after, n, id).next.ip;
            && Joined(net.rank, id, p.next.ip) && Joined(net.rank, id, q)
            && (JoinedLater(net, id, q, p.next.ip) <==> Sinks(net, l, n, id))
            && (MovesUp(net, l, n, id) ==> JoinedLater(net, id, p.next.ip, q))
  {
    var p := PathAt(net, n, id);
    assert NodeSound(net, n) && PathFalls(net.rank, n, p);
    if Reproxies(net, l, n, id) {
      assert AskSound(net, l.conn) && FounderFirst(net, id);
    } else if Fixes(l, n, id) {
      assert PathFalls(net.rank, n, l.was);
    }
  }

  /** The height rises in exactly the steps that sink, and falls in every move-up. */
  lemma HeightRisesIff(net: Net, l: Label, after: Net, n: Ip, id: Uuid)
    requires Ranked(net) && RanksKept(net, after) && Enabled(net, l)
    requires HangsUnder(net, n, id) && HangsUnder(after, n, id) && Fated(net, l, n, id, after)
    ensures Height(net, n, id) < Height(after, n, id) <==> Sinks(net, l, n, id)
    ensures MovesUp(net, l, n, id) ==> Height(after, n, id) < Height(net, n, id)
  {
    var a, b := PathAt(net, n, id).next.ip, PathAt(after, n, id).next.ip;
    NewPeer(net, l, after, n, id);
    HeightByRank(net, id, a, b);
    HeightByRank(net, id, b, a);
    BeforeIsFixed(net, after, id, b);
  }

  // ---- Over runs ----

  ghost predicate HangsAt(nets: seq<Net>, n: Ip, id: Uuid, i: nat) {
    i < |nets| ==> HangsUnder(nets[i], n, id)
  }

  ghost predicate SinksAt(nets: seq<Net>, run: seq<Label>, n: Ip, id: Uuid, i: nat) {
    i < |run| < |nets| && HangsUnder(nets[i], n, id) && Sinks(nets[i], run[i], n, id)
  }

  ghost predicate RisesAt(nets: seq<Net>, n: Ip, id: Uuid, i: nat) {
    i + 1 < |nets| && Height(nets[i], n, id) < Height(nets[i + 1], n, id)
  }

  lemma MoveRisesIff(d: Discipline, nets: seq<Net>, run: seq<Label>, n: Ip, id: Uuid, i: nat)
    requires Run(d, nets, run) && d.freshJoins && Ranked(nets[0]) && i < |run|
    requires HangsAt(nets, n, id, i) && HangsAt(nets, n, id, i + 1)
    ensures RisesAt(nets, n, id, i) <==> SinksAt(nets, run, n, id, i)
    ensures MovesUp(nets[i], run[i], n, id) ==> Height(nets[i + 1], n, id) < Height(nets[i], n, id)
  {
    RankedThroughRun(d, nets, run, i);
    assert StepAt(d, nets, run, i);
    StepKeepsRanks(nets[i], run[i]);
    PathFate(nets[i], run[i], n, id);
    HeightRisesIff(nets[i], run[i], nets[i + 1], n, id);
  }

  /** While a node hangs in a tree, its height never rises in a run exactly when no step of the run sinks. */
  lemma NeverRisesIff(d: Discipline, nets: seq<Net>, run: seq<Label>, n: Ip, id: Uuid)
    requires Run(d, nets, run) && d.freshJoins && Reachable(d, nets[0]) && forall i: nat :: HangsAt(nets, n, id, i)
    ensures (forall i: nat :: !RisesAt(nets, n, id, i)) <==> (forall i: nat :: !SinksAt(nets, run, n, id, i))
  {
    ReachableIsRanked(d, nets[0]);
    forall i: nat | i < |run| ensures RisesAt(nets, n, id, i) <==> SinksAt(nets, run, n, id, i) {
      assert HangsAt(nets, n, id, i) && HangsAt(nets, n, id, i + 1);
      MoveRisesIff(d, nets, run, n, id, i);
    }
  }

  /** How many of the first k steps are move-ups of the path. */
  ghost function MoveUps(nets: seq<Net>, run: seq<Label>, n: Ip, id: Uuid, k: nat): nat
    requires k <= |run| < |nets|
  {
    if k == 0 then 0
    else MoveUps(nets, run, n, id, k - 1) + if MovesUp(nets[k - 1], run[k - 1], n, id) then 1 else 0
  }

  /** By how much the first k steps have set the path back, joins of the tree included, taken together. */
  ghost function Rises(nets: seq<Net>, n: Ip, id: Uuid, k: nat): nat
    requires k < |nets|
  {
    if k == 0 then 0
    else
      var before, after := Height(nets[k - 1], n, id), Height(nets[k], n, id);
      Rises(nets, n, id, k - 1) + if before < after then after - before else 0
  }

  ghost predicate UsesUp(nets: seq<Net>, run: seq<Label>, n: Ip, id: Uuid, i: nat) {
    i < |run| < |nets| && MovesUp(nets[i], run[i], n, id) ==> Height(nets[i + 1], n, id) < Height(nets[i], n, id)
  }

  lemma {:induction false} MoveUpsUseUpMembers(nets: seq<Net>, run: seq<Label>, n: Ip, id: Uuid, k: nat)
    requires k <= |run| < |nets| && forall i: nat :: UsesUp(nets, run, n, id, i)
    ensures MoveUps(nets, run, n, id, k) + Height(nets[k], n, id) <= Height(nets[0], n, id) + Rises(nets, n, id, k)
  {
    if k > 0 {
      MoveUpsUseUpMembers(nets, run, n, id, k - 1);
      assert UsesUp(nets, run, n, id, k - 1);
    }
  }

  /** A move-up starts and ends with the path held through a peer. */
  lemma MoveUpHangs(net: Net, l: Label, after: Net, n: Ip, id: Uuid)
    requires Sound(net) && Holds(net, n, id) && MovesUp(net, l, n, id) && Fated(net, l, n, id, after)
    ensures HangsUnder(net, n, id) && HangsUnder(after, n, id)
  {
    assert NodeSound(net, n) && HeldSound(net, n, PathAt(net, n, id));
  }

  lemma EveryMoveUpUsesUp(d: Discipline, nets: seq<Net>, run: seq<Label>, n: Ip, id: Uuid, i: nat)
    requires Run(d, nets, run) && d.freshJoins && Ranked(nets[0])
    ensures UsesUp(nets, run, n, id, i)
  {
    if i < |run| && MovesUp(nets[i], run[i], n, id) {
      RankedThroughRun(d, nets, run, i);
      assert StepAt(d, nets, run, i);
      PathFate(nets[i], run[i], n, id);
      MoveUpHangs(nets[i], run[i], nets[i + 1], n, id);
      MoveRisesIff(d, nets, run, n, id, i);
    }
  }

  /** In any run of fresh joins, whatever happens to a path, its move-ups are paid for by the members that had joined
      before its next hop at the start and by what has set it back since. */
  lemma MoveUpsAreBounded(d: Discipline, nets: seq<Net>, run: seq<Label>, n: Ip, id: Uuid)
    requires Run(d, nets, run) && d.freshJoins && Reachable(d, nets[0])
    ensures MoveUps(nets, run, n, id, |run|) <= Height(nets[0], n, id) + Rises(nets, n, id, |run|)
    ensures HangsUnder(nets[0], n, id) ==>
              MoveUps(nets, run, n, id, |run|) + 2 <= |nets[0].nodes| + Rises(nets, n, id, |run|)
  {
    ReachableIsRanked(d, nets[0]);
    forall i: nat ensures UsesUp(nets, run, n, id, i) {
      EveryMoveUpUsesUp(d, nets, run, n, id, i);
    }
    MoveUpsUseUpMembers(nets, run, n, id, |run|);
    if HangsUnder(nets[0], n, id) {
      HeightIsBounded(nets[0], n, id);
    }
  }

  lemma {:induction false} NoRises(nets: seq<Net>, n: Ip, id: Uuid, k: nat)
    requires k < |nets| && forall i: nat :: !RisesAt(nets, n, id, i)
    ensures Rises(nets, n, id, k) == 0
  {
    if k > 0 {
      NoRises(nets, n, id, k - 1);
      assert !RisesAt(nets, n, id, k - 1);
    }
  }

  /** A path that is held through peers all along, in a run in which no step sets it back, is moved up fewer times than
      there are nodes, however long the run. */
  lemma MoveUpsAreFew(d: Discipline, nets: seq<Net>, run: seq<Label>, n: Ip, id: Uuid)
    requires Run(d, nets, run) && d.freshJoins && Reachable(d, nets[0]) && forall i: nat :: HangsAt(nets, n, id, i)
    requires forall i: nat :: !SinksAt(nets, run, n, id, i)
    ensures MoveUps(nets, run, n, id, |run|) + 2 <= |nets[0].nodes|
  {
    MoveUpsAreBounded(d, nets, run, n, id);
    NeverRisesIff(d, nets, run, n, id);
    NoRises(nets, n, id, |run|);
    assert HangsAt(nets, n, id, 0);
  }

  lemma HeightIsBounded(net: Net, n: Ip, id: Uuid)
    requires Ranked(net) && HangsUnder(net, n, id)
    ensures Height(net, n, id) + 2 <= |net.nodes|
  {
    var q := PathAt(net, n, id).next.ip;
    assert NodeSound(net, n) && PathFalls(net.rank, n, PathAt(net, n, id));
    assert MembersHeld(net, id, q);
    BeforeShrinks(net, id, q, n);
    assert Before(net, id, n) < net.nodes.Keys;
    Smaller(Before(net, id, n), net.nodes.Keys);
  }
}
