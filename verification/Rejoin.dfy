/** Exactly which steps close a cycle of next hops. The code lets a node that lost a tree join it again below its own
    child, and lets FIX write an old next hop back, so acyclicity needs an assumption on runs. */
module Rejoin {
  import opened Profiles
  import opened NodeSteps
  import opened Overlay
  import opened Permanence
  import opened Acyclicity

  ghost predicate Acyclic(nodes: map<Ip, NodeState>, id: Uuid) {
    forall m, j: nat :: j > 0 ==> !Leads(nodes, id, m, m, j)
  }

  // ---- Turning one next hop ----

  predicate SamePointer(before: map<Ip, NodeState>, after: map<Ip, NodeState>, id: Uuid, m: Ip) {
    && (m in before && id in before[m].paths <==> m in after && id in after[m].paths)
    && (m in before && id in before[m].paths ==> before[m].paths[id].next == after[m].paths[id].next)
  }

  /** Node n hangs under p afterwards, wherever it hung before, if anywhere; no other next hop of the tree differs. */
  ghost predicate TurnsTo(before: map<Ip, NodeState>, after: map<Ip, NodeState>, id: Uuid, n: Ip, p: Ip) {
    && n in after && id in after[n].paths && after[n].paths[id].next == Peer(p)
    && (forall m :: m != n ==> SamePointer(before, after, id, m))
  }

  /** An old chain that ends at n is still there, up to where it first meets n. */
  lemma {:induction false} ChainToTurned(before: map<Ip, NodeState>, after: map<Ip, NodeState>, id: Uuid, n: Ip,
                                         p: Ip, a: Ip, k: nat)
    returns (i: nat)
    requires TurnsTo(before, after, id, n, p) && Leads(before, id, a, n, k)
    ensures i <= k && Leads(after, id, a, n, i)
    decreases k
  {
    i := 0;
    if a != n {
      assert SamePointer(before, after, id, a);
      var j := ChainToTurned(before, after, id, n, p, before[a].paths[id].next.ip, k - 1);
      i := j + 1;
    }
  }

  /** A chain after the turn is an old one, or runs along an old one until it first meets n. */
  lemma {:induction false} FirstVisit(before: map<Ip, NodeState>, after: map<Ip, NodeState>, id: Uuid, n: Ip, p: Ip,
                                      a: Ip, b: Ip, k: nat)
    returns (i: nat)
    requires TurnsTo(before, after, id, n, p) && Leads(after, id, a, b, k)
    ensures Leads(before, id, a, b, k) || (i < k && Leads(before, id, a, n, i) && Leads(after, id, n, b, k - i))
    decreases k
  {
    i := 0;
    if k > 0 && a != n {
      assert SamePointer(before, after, id, a);
      var j := FirstVisit(before, after, id, n, p, after[a].paths[id].next.ip, b, k - 1);
      i := j + 1;
    }
  }

  lemma {:induction false} LeadsOn(nodes: map<Ip, NodeState>, id: Uuid, a: Ip, b: Ip, c: Ip, i: nat, j: nat)
    requires Leads(nodes, id, a, b, i) && Leads(nodes, id, b, c, j)
    ensures Leads(nodes, id, a, c, i + j)
    decreases i
  {
    if i > 0 {
      LeadsOn(nodes, id, nodes[a].paths[id].next.ip, b, c, i - 1, j);
    }
  }

  /** The chain of next hops from a leads to b. */
  ghost predicate LiesUnder(nodes: map<Ip, NodeState>, id: Uuid, a: Ip, b: Ip) {
    exists k: nat :: Leads(nodes, id, a, b, k)
  }

  /** Hanging n under p keeps a tree free of cycles if and only if p's chain of next hops does not lead to n. */
  lemma TurnClosesCycleIff(before: map<Ip, NodeState>, after: map<Ip, NodeState>, id: Uuid, n: Ip, p: Ip)
    requires Acyclic(before, id) && TurnsTo(before, after, id, n, p)
    ensures Acyclic(after, id) <==> !LiesUnder(before, id, p, n)
  {
    if LiesUnder(before, id, p, n) {
      var k: nat :| Leads(before, id, p, n, k);
      var i := ChainToTurned(before, after, id, n, p, p, k);
      assert Leads(after, id, n, n, i + 1);
      assert !Acyclic(after, id);
    } else {
      forall m, j: nat | j > 0 ensures !Leads(after, id, m, m, j) {
        if Leads(after, id, m, m, j) {
          var i := FirstVisit(before, after, id, n, p, m, m, j);
          var rest: nat := j - i - 1;
          var h := FirstVisit(before, after, id, n, p, p, m, rest);
          assert Leads(before, id, p, m, rest);
          LeadsOn(before, id, p, m, n, rest, i);
        }
      }
    }
  }

  // ---- Steps that turn no next hop ----

  /** Every pointer to a peer in `after` is one of `before`. */
  ghost predicate FewerPointers(before: map<Ip, NodeState>, after: map<Ip, NodeState>, id: Uuid) {
    forall m :: m in after && id in after[m].paths && after[m].paths[id].next.Peer? ==>
      m in before && id in before[m].paths && before[m].paths[id].next == after[m].paths[id].next
  }

  lemma {:induction false} FewerChains(before: map<Ip, NodeState>, after: map<Ip, NodeState>, id: Uuid, a: Ip, b: Ip,
                                       k: nat)
    requires FewerPointers(before, after, id) && Leads(after, id, a, b, k)
    ensures Leads(before, id, a, b, k)
    decreases k
  {
    if k > 0 {
      FewerChains(before, after, id, after[a].paths[id].next.ip, b, k - 1);
    }
  }

  lemma FewerPointersKeepAcyclic(before: map<Ip, NodeState>, after: map<Ip, NodeState>, id: Uuid)
    requires FewerPointers(before, after, id) && Acyclic(before, id)
    ensures Acyclic(after, id)
  {
    forall m, j: nat | j > 0 ensures !Leads(after, id, m, m, j) {
      if Leads(after, id, m, m, j) {
        FewerChains(before, after, id, m, m, j);
      }
    }
  }

  // ---- Exactly when a step closes a cycle ----

  /** A commit or a fix hangs its node under a peer whose chain leads back to it. */
  ghost predicate ClosesCycle(net: Net, l: Label, id: Uuid)
    requires Enabled(net, l)
  {
    match l
    case Commit(conn) =>
      var n := net.asks[conn].child;
      && net.asks[conn].wanted == Some(id) && net.answers[conn].accepted && id in net.nodes[n].halfOpen
      && net.nodes[n].halfOpen[id].next.Peer? && LiesUnder(net.nodes, id, net.nodes[n].halfOpen[id].next.ip, n)
    case WriteFix(n, was, _) => was.uuid == id && LiesUnder(net.nodes, id, was.next.ip, n)
    case _ => false
  }

  lemma PutClosesIff(nodes: map<Ip, NodeState>, n: Ip, s: NodeState, id: Uuid)
    requires n in nodes && id in s.paths && s.paths[id].next.Peer? && Acyclic(nodes, id)
    ensures Acyclic(nodes[n := s], id) <==> !LiesUnder(nodes, id, s.paths[id].next.ip, n)
  {
    TurnClosesCycleIff(nodes, nodes[n := s], id, n, s.paths[id].next.ip);
  }

  lemma PutClosesNone(nodes: map<Ip, NodeState>, n: Ip, s: NodeState, id: Uuid)
    requires n in nodes && Acyclic(nodes, id)
    requires id in s.paths && s.paths[id].next.Peer? ==>
               id in nodes[n].paths && nodes[n].paths[id].next == s.paths[id].next
    ensures Acyclic(nodes[n := s], id)
  {
    FewerPointersKeepAcyclic(nodes, nodes[n := s], id);
  }

  lemma CommitClosesIff(net: Net, conn: ConnId, id: Uuid)
    requires Enabled(net, Commit(conn)) && NodeSound(net, net.asks[conn].child) && Acyclic(net.nodes, id)
    ensures Acyclic(CommitStep(net, conn).nodes, id) <==> !ClosesCycle(net, Commit(conn), id)
  {
    var ask := net.asks[conn];
    var n, k := ask.child, ask.wanted.value;
    var s := net.nodes[n];
    if net.answers[conn].accepted && k in s.halfOpen {
      var t := CommitPath(s, k, ChildKey(net, conn), Connection(ask.parent, conn));
      CommitEffect(net, conn);
      if k == id {
        PutClosesIff(net.nodes, n, t, id);
      } else {
        PutClosesNone(net.nodes, n, t, id);
      }
    } else {
      assert CommitStep(net, conn).nodes == net.nodes;
    }
  }

  /** A founder holds its tree through storage, so hanging a node under it closes nothing. */
  lemma FounderEndsChains(net: Net, id: Uuid, n: Ip)
    requires Sound(net) && id in net.founder && n != net.founder[id]
    ensures !LiesUnder(net.nodes, id, net.founder[id], n)
  {
    var p := net.founder[id];
    assert FounderSound(net, id) && NodeSound(net, p) && HeldSound(net, p, net.nodes[p].paths[id]);
  }

  lemma CommitProxyClosesNone(net: Net, conn: ConnId, id: Uuid)
    requires Sound(net) && Enabled(net, CommitProxy(conn)) && Acyclic(net.nodes, id)
    ensures Acyclic(CommitProxyStep(net, conn).nodes, id)
  {
    var ask, answer, after := net.asks[conn], net.answers[conn], CommitProxyStep(net, conn);
    var t := CommitProxyPath(net.nodes[ask.child], ask.parent, answer.tree, answer.proxyPublic, ChildKey(net, conn),
                             conn);
    assert AskSound(net, conn) && after.nodes == net.nodes[ask.child := t];
    if answer.tree == id {
      FounderEndsChains(net, id, ask.child);
      PutClosesIff(net.nodes, ask.child, t, id);
    } else {
      PutClosesNone(net.nodes, ask.child, t, id);
    }
  }

  lemma WriteFixClosesIff(net: Net, n: Ip, was: Path, offer: Offer, id: Uuid)
    requires Enabled(net, WriteFix(n, was, offer)) && Acyclic(net.nodes, id)
    ensures Acyclic(Step(net, WriteFix(n, was, offer)).nodes, id) <==> !ClosesCycle(net, WriteFix(n, was, offer), id)
  {
    var t := Repair(net.nodes[n], was, offer);
    if was.uuid == id {
      PutClosesIff(net.nodes, n, t, id);
    } else {
      PutClosesNone(net.nodes, n, t, id);
    }
  }

  lemma QuietStepClosesNone(net: Net, l: Label, id: Uuid)
    requires Enabled(net, l) && Acyclic(net.nodes, id) && !l.Commit? && !l.CommitProxy? && !l.WriteFix?
    ensures Acyclic(Step(net, l).nodes, id)
  {
    var m, s := QuietStep(net, l);
    PutClosesNone(net.nodes, m, s, id);
  }

  /** Of all steps, exactly those that close a cycle in this sense take a tree's acyclicity away. */
  lemma StepClosesCycleIff(net: Net, l: Label, id: Uuid)
    requires Sound(net) && Enabled(net, l) && Acyclic(net.nodes, id)
    ensures Acyclic(Step(net, l).nodes, id) <==> !ClosesCycle(net, l, id)
  {
    if l.Commit? {
      assert NodeSound(net, net.asks[l.conn].child);
      CommitClosesIff(net, l.conn, id);
    } else if l.CommitProxy? {
      CommitProxyClosesNone(net, l.conn, id);
    } else if l.WriteFix? {
      WriteFixClosesIff(net, l.n, l.was, l.offer, id);
    } else {
      QuietStepClosesNone(net, l, id);
    }
  }

  // ---- Over runs ----

  ghost predicate ClosesAt(nets: seq<Net>, run: seq<Label>, id: Uuid, i: nat) {
    i < |run| < |nets| && Enabled(nets[i], run[i]) && ClosesCycle(nets[i], run[i], id)
  }

  ghost predicate AcyclicAt(nets: seq<Net>, id: Uuid, i: nat) {
    i < |nets| ==> Acyclic(nets[i].nodes, id)
  }

  lemma MoveClosesIff(d: Discipline, nets: seq<Net>, run: seq<Label>, id: Uuid, i: nat)
    requires StepAt(d, nets, run, i) && i < |run| < |nets| && Sound(nets[i]) && Acyclic(nets[i].nodes, id)
    ensures AcyclicAt(nets, id, i + 1) <==> !ClosesAt(nets, run, id, i)
  {
    StepClosesCycleIff(nets[i], run[i], id);
  }

  lemma {:induction false} AcyclicUpTo(d: Discipline, nets: seq<Net>, run: seq<Label>, id: Uuid, i: nat)
    requires Run(d, nets, run) && i <= |run| && Initial(nets[0]) && forall j: nat :: !ClosesAt(nets, run, id, j)
    ensures AcyclicAt(nets, id, i)
  {
    if i > 0 {
      AcyclicUpTo(d, nets, run, id, i - 1);
      InitialIsSound(nets[0]);
      SoundThroughRun(d, nets, run, i - 1);
      assert StepAt(d, nets, run, i - 1);
      MoveClosesIff(d, nets, run, id, i - 1);
    }
  }

  /** A tree is free of cycles throughout a run exactly when no step of the run closes one. */
  lemma AcyclicThroughoutIff(d: Discipline, nets: seq<Net>, run: seq<Label>, id: Uuid)
    requires Run(d, nets, run) && Initial(nets[0])
    ensures (forall i: nat :: AcyclicAt(nets, id, i)) <==> (forall i: nat :: !ClosesAt(nets, run, id, i))
  {
    if forall i: nat :: !ClosesAt(nets, run, id, i) {
      forall i: nat ensures AcyclicAt(nets, id, i) {
        if i < |nets| {
          AcyclicUpTo(d, nets, run, id, i);
        }
      }
    } else {
      var i: nat :| ClosesAt(nets, run, id, i);
      InitialIsSound(nets[0]);
      SoundThroughRun(d, nets, run, i);
      assert StepAt(d, nets, run, i);
      if AcyclicAt(nets, id, i) {
        MoveClosesIff(d, nets, run, id, i);
        assert !AcyclicAt(nets, id, i + 1);
      }
    }
  }
}
