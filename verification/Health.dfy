/** Self-stabilisation. While no node joins, moves up or opens a path, fair rounds of health passes carry each
    proxy's key and each parent's next hop down its tree, and empty every chain that no longer ends at a proxy up to
    the first path that cancelling does not remove. */
module Health {
  import opened Profiles
  import opened NodeSteps
  import opened Acyclicity

  type Nodes = map<Ip, NodeState>

  predicate HoldsIn(nodes: Nodes, id: Uuid, n: Ip) {
    n in nodes && id in nodes[n].paths
  }

  // ---- One pass ----

  /** A path is kept when its next hop is storage or a running node that holds the tree. */
  predicate Kept(nodes: Nodes, id: Uuid, p: Path) {
    p.next == Storage || (p.next.Peer? && HoldsIn(nodes, id, p.next.ip))
  }

  function Refreshed(nodes: Nodes, id: Uuid, p: Path): Path {
    if p.next.Peer? && HoldsIn(nodes, id, p.next.ip) then
      var above := nodes[p.next.ip].paths[id];
      p.(next2 := above.next, proxyPublic := above.proxyPublic)
    else p
  }

  /** Node n after a pass whose queries met the network as `heard`: a path that is not kept is cancelled, and leaves
      if its own worker is live and was dialled to its next hop. */
  function Healed(heard: Nodes, live: set<ConnId>, n: Ip): NodeState
    requires n in heard
  {
    var s := heard[n];
    s.(paths := map id | id in s.paths && (Kept(heard, id, s.paths[id]) || !Attended(live, s.paths[id]))
                       :: Refreshed(heard, id, s.paths[id]))
  }

  /** The workers that the pass cancels; they run no longer. */
  function Cancelled(heard: Nodes, n: Ip): set<ConnId>
    requires n in heard
  {
    var s := heard[n];
    set id | id in s.paths && !Kept(heard, id, s.paths[id]) && s.paths[id].cancel.Some? :: s.paths[id].cancel.value.id
  }

  /** The nodes that answer are the running ones, and each lists the paths it holds. */
  ghost predicate Truthful(nodes: Nodes, n: Ip, answers: map<Ip, QueryReply>)
    requires n in nodes
  {
    && answers.Keys == nodes.Keys
    && (forall ip :: ip in nodes ==> Lists(answers[ip].offers, nodes[ip].paths, nodes[n].publicKey))
  }

  ghost predicate OwnIds(nodes: Nodes) {
    forall n, id :: HoldsIn(nodes, id, n) ==> nodes[n].paths[id].uuid == id
  }

  /** With truthful answers the node's own health pass is this pass. */
  lemma PassIsHealthPass(nodes: Nodes, n: Ip, answers: map<Ip, QueryReply>, live: set<ConnId>)
    requires n in nodes && OwnIds(nodes) && Truthful(nodes, n, answers)
    ensures Healed(nodes, live, n) == HealthPass(nodes[n], answers, live)
  {
    var s := nodes[n];
    forall id | id in s.paths
      ensures Kept(nodes, id, s.paths[id]) <==> Judge(s, id, answers) != Clean
      ensures Refreshed(nodes, id, s.paths[id]) == HealedPath(s.paths[id], Judge(s, id, answers))
    {
      JudgeIsTrue(nodes, n, answers, id);
    }
    assert Healed(nodes, live, n).paths == HealthPass(s, answers, live).paths;
  }

  lemma JudgeIsTrue(nodes: Nodes, n: Ip, answers: map<Ip, QueryReply>, id: Uuid)
    requires n in nodes && OwnIds(nodes) && Truthful(nodes, n, answers) && HoldsIn(nodes, id, n)
    ensures var p, v := nodes[n].paths[id], Judge(nodes[n], id, answers);
            && (Kept(nodes, id, p) <==> v != Clean)
            && Refreshed(nodes, id, p) == HealedPath(p, v)
  {
    var p := nodes[n].paths[id];
    if p.next.Peer? && p.next.ip in nodes {
      var q := p.next.ip;
      assert forall k :: k in nodes[q].paths ==> HoldsIn(nodes, k, q);
      AnswerTellsHeldPaths(answers[q].offers, nodes[q].paths, nodes[n].publicKey, id);
    }
  }

  // ---- Rounds ----

  /** The corrected snapshots that a pass writes back. */
  function Fixes(heard: Nodes, n: Ip): map<Uuid, Path>
    requires n in heard
  {
    var s := heard[n];
    map id | id in s.paths && Kept(heard, id, s.paths[id]) && Refreshed(heard, id, s.paths[id]) != s.paths[id]
           :: Refreshed(heard, id, s.paths[id])
  }

  function Written(s: NodeState, heard: Nodes, n: Ip): NodeState
    requires n in heard
  {
    s.(paths := s.paths + Fixes(heard, n))
  }

  /** When the cancelled workers leave at once, writing comes to the node's own health pass. */
  lemma LeavingAtOnceIsHealed(nodes: Nodes, live: set<ConnId>, n: Ip)
    requires n in nodes
    ensures var s, w := nodes[n], Written(nodes[n], nodes, n);
            var left := set id | id in s.paths && !Kept(nodes, id, s.paths[id]) && Attended(live, s.paths[id]);
            Healed(nodes, live, n) == w.(paths := w.paths - left)
  {
    var s, w := nodes[n], Written(nodes[n], nodes, n);
    var left := set id | id in s.paths && !Kept(nodes, id, s.paths[id]) && Attended(live, s.paths[id]);
    assert Healed(nodes, live, n).paths == w.paths - left;
  }

  /** A pass reads at one moment and writes at a later one, and a worker that it cancels, that of node n's path of tree
      id, leaves at a later one still; other nodes may do the same in between. */
  datatype Event = Asks(n: Ip) | Writes(n: Ip) | Leaves(n: Ip, id: Uuid)

  /** `heard` is what each node that has read, and not yet written, met; `live` are the sending workers that run, and
      `told` those of them that have been cancelled. */
  datatype Scene = Scene(nodes: Nodes, heard: map<Ip, Nodes>, live: set<ConnId>, told: set<ConnId>)

  predicate IsTold(told: set<ConnId>, p: Path) {
    p.cancel.Some? && p.cancel.value.id in told
  }

  function Happen(sc: Scene, e: Event): Scene {
    match e
    case Asks(n) => if n in sc.nodes then sc.(heard := sc.heard[n := sc.nodes]) else sc
    case Writes(n) =>
      if n in sc.nodes && n in sc.heard && n in sc.heard[n] then
        Scene(sc.nodes[n := Written(sc.nodes[n], sc.heard[n], n)], sc.heard - {n}, sc.live,
              sc.told + Cancelled(sc.heard[n], n) * sc.live)
      else sc
    case Leaves(n, id) =>
      if HoldsIn(sc.nodes, id, n) && IsTold(sc.told, sc.nodes[n].paths[id]) then
        var worker := sc.nodes[n].paths[id].cancel.value;
        sc.(nodes := sc.nodes[n := SenderExit(sc.nodes[n], id, worker.ip)],
            live := sc.live - {worker.id}, told := sc.told - {worker.id})
      else sc
  }

  /** A pass that nothing comes in between works on the network as it is, whatever the node has read before. */
  lemma PassAlone(sc: Scene, n: Ip)
    requires n in sc.nodes
    ensures var after := Happen(Happen(sc, Asks(n)), Writes(n));
            && after.nodes == sc.nodes[n := Written(sc.nodes[n], sc.nodes, n)]
            && after.live == sc.live && after.heard == sc.heard - {n}
            && (forall w :: w in after.told <==>
                  w in sc.told
                  || (w in sc.live
                      && exists id :: HoldsIn(sc.nodes, id, n) && !Kept(sc.nodes, id, sc.nodes[n].paths[id])
                                      && IsTold({w}, sc.nodes[n].paths[id])))
  {
  }

  function Play(sc: Scene, round: seq<Event>): Scene
    decreases round
  {
    if round == [] then sc else Play(Happen(sc, round[0]), round[1..])
  }

  predicate Completes(round: seq<Event>, n: Ip) {
    exists i, j :: 0 <= i < j < |round| && round[i] == Asks(n) && round[j] == Writes(n)
  }

  /** In a fair round every running node completes a pass at least once. */
  ghost predicate Fair(running: set<Ip>, round: seq<Event>) {
    forall n :: n in running ==> Completes(round, n)
  }

  function Opening(nodes: Nodes, live: set<ConnId>): Scene {
    Scene(nodes, map[], live, {})
  }

  /** No pass is under way when a round begins. */
  function Rounds(sc: Scene, rounds: seq<seq<Event>>): Scene
    decreases rounds
  {
    if rounds == [] then sc
    else Play(Rounds(sc, rounds[..|rounds| - 1]).(heard := map[]), rounds[|rounds| - 1])
  }

  /** Every round is fair, and the workers it cancels have left when it is over. */
  ghost predicate AllFair(sc: Scene, rounds: seq<seq<Event>>)
    decreases rounds
  {
    rounds == [] ||
    (AllFair(sc, rounds[..|rounds| - 1]) && Fair(sc.nodes.Keys, rounds[|rounds| - 1]) && Rounds(sc, rounds).told == {})
  }

  // ---- Where chains end ----

  predicate ProxiesIn(nodes: Nodes, id: Uuid, n: Ip) {
    HoldsIn(nodes, id, n) && nodes[n].paths[id].next == Storage
  }

  /** After k hops from n the chain of tree id comes to e and goes no further: e proxies the tree, does not hold
      it, or does not run. */
  ghost predicate EndsAt(nodes: Nodes, id: Uuid, n: Ip, k: nat, e: Ip) {
    Leads(nodes, id, n, e, k) && !(HoldsIn(nodes, id, e) && nodes[e].paths[id].next.Peer?)
  }

  /** One of the k paths from n upwards cannot be removed by cancelling it. */
  ghost predicate Stuck(nodes: Nodes, live: set<ConnId>, id: Uuid, n: Ip, k: nat)
    decreases k
  {
    && k > 0 && HoldsIn(nodes, id, n) && nodes[n].paths[id].next.Peer?
    && (!Attended(live, nodes[n].paths[id]) || Stuck(nodes, live, id, nodes[n].paths[id].next.ip, k - 1))
  }

  /** No two paths have one worker. */
  ghost predicate OwnWorkers(nodes: Nodes) {
    forall n, id, m, k ::
      HoldsIn(nodes, id, n) && HoldsIn(nodes, k, m) && SameWorker(nodes[n].paths[id], nodes[m].paths[k])
      ==> n == m && id == k
  }

  predicate SameWorker(p: Path, q: Path) {
    p.cancel.Some? && q.cancel.Some? && p.cancel.value.id == q.cancel.value.id
  }

  /** Paths are stored under their own ids and have workers of their own, and a proxy advertises its own key. */
  ghost predicate WellKept(nodes: Nodes) {
    && OwnIds(nodes) && OwnWorkers(nodes)
    && (forall n, id :: HoldsIn(nodes, id, n) ==> nodes[n].paths[id].next != Nowhere)
    && (forall n, id :: ProxiesIn(nodes, id, n) ==> nodes[n].paths[id].proxyPublic == nodes[n].publicKey)
  }

  // In what follows `base` is the network and `live` its sending workers when the rounds begin, and `nodes` the
  // network some events later.

  /** Health passes remove paths and rewrite next-next hops and proxy keys; they never touch a next hop or a worker. */
  predicate SamePath(base: Nodes, nodes: Nodes, id: Uuid, n: Ip) {
    HoldsIn(nodes, id, n) ==>
      && HoldsIn(base, id, n) && nodes[n].paths[id].next == base[n].paths[id].next
      && nodes[n].paths[id].cancel == base[n].paths[id].cancel
  }

  ghost predicate SamePaths(base: Nodes, nodes: Nodes) {
    && nodes.Keys == base.Keys
    && (forall n :: n in base ==> nodes[n].publicKey == base[n].publicKey)
    && (forall n, id :: SamePath(base, nodes, id, n))
  }

  /** Node n, k hops from e, is as it should be: with e's key and its parent's next hop if e is a proxy, and
      otherwise gone unless the chain is stuck. */
  ghost predicate Right(base: Nodes, live: set<ConnId>, nodes: Nodes, id: Uuid, e: Ip, n: Ip, k: nat) {
    if ProxiesIn(base, id, e) then
      && HoldsIn(nodes, id, n) && HoldsIn(base, id, n)
      && nodes[n].paths[id].proxyPublic == base[e].publicKey
      && (base[n].paths[id].next.Peer? ==>
            var q := base[n].paths[id].next.ip;
            HoldsIn(base, id, q) && nodes[n].paths[id].next2 == base[q].paths[id].next)
    else HoldsIn(nodes, id, n) <==> Stuck(base, live, id, n, k)
  }

  ghost predicate Hanging(base: Nodes, live: set<ConnId>, nodes: Nodes, id: Uuid, e: Ip, r: nat, n: Ip, k: nat) {
    EndsAt(base, id, n, k, e) ==>
      && (ProxiesIn(base, id, e) || Stuck(base, live, id, n, k) ==> HoldsIn(nodes, id, n))
      && (k <= r ==> Right(base, live, nodes, id, e, n, k))
  }

  /** After r rounds: all nodes within r hops of e are right, and nothing is lost that hangs from a proxy or is
      stuck. */
  ghost predicate Settled(base: Nodes, live: set<ConnId>, nodes: Nodes, id: Uuid, e: Ip, r: nat) {
    SamePaths(base, nodes) && forall n, k: nat :: Hanging(base, live, nodes, id, e, r, n, k)
  }

  // Beside that, an invariant of the scene, for one tree id.

  /** A path that its own worker attended when the rounds began has this worker as long as it is held. */
  ghost predicate Attending(live: set<ConnId>, sc: Scene, id: Uuid) {
    && sc.live <= live && sc.told <= live
    && (forall n :: HoldsIn(sc.nodes, id, n) && Attended(live, sc.nodes[n].paths[id]) ==>
          sc.nodes[n].paths[id].cancel.value.id in sc.live)
  }

  /** The next hop of a path whose worker has been cancelled does not hold the tree any more. */
  ghost predicate Justified(sc: Scene, id: Uuid) {
    forall n :: HoldsIn(sc.nodes, id, n) && IsTold(sc.told, sc.nodes[n].paths[id]) ==>
      !Kept(sc.nodes, id, sc.nodes[n].paths[id])
  }

  /** Node m's own path is as it was when m read, unless it has left, or is about to leave, because even then its next
      hop did not hold the tree. */
  ghost predicate OwnAsHeard(heard: Nodes, sc: Scene, id: Uuid, m: Ip) {
    HoldsIn(heard, id, m) ==>
      var p := heard[m].paths[id];
      && (if HoldsIn(sc.nodes, id, m) then sc.nodes[m].paths[id] == p else !Kept(heard, id, p))
      && (IsTold(sc.told, p) ==> !Kept(heard, id, p))
  }

  /** No node holds the tree that did not when m read. */
  ghost predicate Fewer(heard: Nodes, nodes: Nodes, id: Uuid) {
    forall n :: HoldsIn(nodes, id, n) ==> HoldsIn(heard, id, n)
  }

  ghost predicate HeardSettled(base: Nodes, live: set<ConnId>, sc: Scene, id: Uuid, e: Ip, r: nat, m: Ip) {
    m in sc.heard ==>
      && m in sc.nodes && m in sc.heard[m] && Settled(base, live, sc.heard[m], id, e, r)
      && Fewer(sc.heard[m], sc.nodes, id) && OwnAsHeard(sc.heard[m], sc, id, m)
  }

  ghost predicate SceneSettled(base: Nodes, live: set<ConnId>, sc: Scene, id: Uuid, e: Ip, r: nat) {
    && Settled(base, live, sc.nodes, id, e, r) && Attending(live, sc, id) && Justified(sc, id)
    && (forall m :: HeardSettled(base, live, sc, id, e, r, m))
  }

  /** Node n is right, or what has to leave for it has been cancelled. */
  ghost predicate OnTheWay(base: Nodes, live: set<ConnId>, sc: Scene, id: Uuid, e: Ip, n: Ip, k: nat) {
    if ProxiesIn(base, id, e) then Right(base, live, sc.nodes, id, e, n, k)
    else
      && (Stuck(base, live, id, n, k) ==> HoldsIn(sc.nodes, id, n))
      && (HoldsIn(sc.nodes, id, n) && !Stuck(base, live, id, n, k) ==> IsTold(sc.told, sc.nodes[n].paths[id]))
  }

  // ---- Asking ----

  lemma ChainGoesOn(base: Nodes, id: Uuid, n: Ip, k: nat, e: Ip)
    requires EndsAt(base, id, n, k, e) && k > 0
    ensures HoldsIn(base, id, n) && base[n].paths[id].next.Peer?
    ensures EndsAt(base, id, base[n].paths[id].next.ip, k - 1, e)
  {
  }

  lemma AskingSettles(base: Nodes, live: set<ConnId>, sc: Scene, id: Uuid, e: Ip, r: nat, n: Ip)
    requires SceneSettled(base, live, sc, id, e, r) && n in sc.nodes
    ensures SceneSettled(base, live, Happen(sc, Asks(n)), id, e, r)
  {
    var after := Happen(sc, Asks(n));
    forall m ensures HeardSettled(base, live, after, id, e, r, m) {
      assert HeardSettled(base, live, sc, id, e, r, m);
    }
  }

  // ---- Writing ----

  lemma WrittenPath(s: NodeState, heard: Nodes, n: Ip, id: Uuid)
    requires n in heard && id in heard[n].paths
    requires if id in s.paths then s.paths[id] == heard[n].paths[id] else !Kept(heard, id, heard[n].paths[id])
    ensures id in Written(s, heard, n).paths <==> id in s.paths
    ensures id in s.paths ==>
              Written(s, heard, n).paths[id]
              == if Kept(heard, id, s.paths[id]) then Refreshed(heard, id, s.paths[id]) else s.paths[id]
  {
  }

  lemma UnwrittenPath(s: NodeState, heard: Nodes, n: Ip, id: Uuid)
    requires n in heard && id !in heard[n].paths
    ensures id in Written(s, heard, n).paths <==> id in s.paths
    ensures id in s.paths ==> Written(s, heard, n).paths[id] == s.paths[id]
  {
  }

  lemma WritingKeepsPath(base: Nodes, heard: Nodes, nodes: Nodes, n: Ip, id: Uuid, m: Ip)
    requires n in heard && n in nodes && SamePath(base, heard, id, n) && SamePath(base, nodes, id, m)
    ensures SamePath(base, nodes[n := Written(nodes[n], heard, n)], id, m)
  {
  }

  lemma WritingKeepsSamePaths(base: Nodes, heard: Nodes, nodes: Nodes, n: Ip)
    requires SamePaths(base, heard) && SamePaths(base, nodes) && n in heard && n in nodes
    ensures SamePaths(base, nodes[n := Written(nodes[n], heard, n)])
  {
    var after := nodes[n := Written(nodes[n], heard, n)];
    forall m, id ensures SamePath(base, after, id, m) {
      assert SamePath(base, heard, id, n) && SamePath(base, nodes, id, m);
      WritingKeepsPath(base, heard, nodes, n, id, m);
    }
  }

  lemma WritesOne(heard: Nodes, nodes: Nodes, n: Ip, id: Uuid, m: Ip)
    requires n in heard && n in nodes && (HoldsIn(nodes, id, n) ==> HoldsIn(heard, id, n))
    requires HoldsIn(heard, id, n) ==>
               var p := heard[n].paths[id];
               if HoldsIn(nodes, id, n) then nodes[n].paths[id] == p else !Kept(heard, id, p)
    ensures var after := nodes[n := Written(nodes[n], heard, n)];
            && (HoldsIn(after, id, m) <==> HoldsIn(nodes, id, m))
            && (HoldsIn(after, id, m) ==>
                  var p := nodes[m].paths[id];
                  after[m].paths[id] == if m == n && Kept(heard, id, p) then Refreshed(heard, id, p) else p)
  {
    if HoldsIn(heard, id, n) {
      WrittenPath(nodes[n], heard, n, id);
    } else {
      UnwrittenPath(nodes[n], heard, n, id);
    }
  }

  /** What writing does to node n's own path: it is held if and only if it was, and its value is that of a pass. */
  lemma WritesOwn(base: Nodes, live: set<ConnId>, sc: Scene, id: Uuid, e: Ip, r: nat, n: Ip)
    requires SceneSettled(base, live, sc, id, e, r) && n in sc.heard
    ensures n in sc.nodes && n in sc.heard[n]
    ensures var heard, after := sc.heard[n], Happen(sc, Writes(n)).nodes;
            && (forall m :: HoldsIn(after, id, m) <==> HoldsIn(sc.nodes, id, m))
            && (forall m :: m != n && HoldsIn(after, id, m) ==> after[m].paths[id] == sc.nodes[m].paths[id])
            && (HoldsIn(after, id, n) ==>
                  var p := sc.nodes[n].paths[id];
                  && HoldsIn(heard, id, n) && p == heard[n].paths[id]
                  && after[n].paths[id] == if Kept(heard, id, p) then Refreshed(heard, id, p) else p)
  {
    assert HeardSettled(base, live, sc, id, e, r, n);
    var heard, after := sc.heard[n], Happen(sc, Writes(n)).nodes;
    WritesOne(heard, sc.nodes, n, id, n);
    forall m ensures HoldsIn(after, id, m) <==> HoldsIn(sc.nodes, id, m)
      ensures m != n && HoldsIn(after, id, m) ==> after[m].paths[id] == sc.nodes[m].paths[id]
    {
      WritesOne(heard, sc.nodes, n, id, m);
    }
  }

  /** A worker that n cancels is the worker of a path of n whose next hop does not hold the tree, and of no other. */
  lemma CancelledIsOwn(base: Nodes, heard: Nodes, n: Ip, m: Ip, id: Uuid)
    requires OwnWorkers(base) && SamePaths(base, heard) && n in heard && HoldsIn(base, id, m)
    requires base[m].paths[id].cancel.Some? && base[m].paths[id].cancel.value.id in Cancelled(heard, n)
    ensures m == n && id in heard[n].paths && !Kept(heard, id, heard[n].paths[id])
  {
    var c := base[m].paths[id].cancel.value.id;
    var k :| k in heard[n].paths && !Kept(heard, k, heard[n].paths[k]) && heard[n].paths[k].cancel.Some?
             && heard[n].paths[k].cancel.value.id == c;
    assert SamePath(base, heard, k, n);
    assert SameWorker(base[m].paths[id], base[n].paths[k]);
  }

  /** A node whose path is kept by a proxy's chain becomes right if what it heard of its parent was right. */
  lemma WritingRights(base: Nodes, live: set<ConnId>, heard: Nodes, nodes: Nodes, id: Uuid, e: Ip, r: nat, n: Ip,
                      k: nat)
    requires WellKept(base) && Settled(base, live, heard, id, e, r)
    requires EndsAt(base, id, n, k, e) && ProxiesIn(base, id, e)
    requires HoldsIn(heard, id, n) && HoldsIn(nodes, id, n) && k <= r + 1
    requires var p := heard[n].paths[id];
             nodes[n].paths[id] == if Kept(heard, id, p) then Refreshed(heard, id, p) else p
    ensures Right(base, live, nodes, id, e, n, k)
  {
    assert SamePath(base, heard, id, n) && Hanging(base, live, heard, id, e, r, n, k);
    if k > 0 {
      ChainGoesOn(base, id, n, k, e);
      var q := base[n].paths[id].next.ip;
      assert SamePath(base, heard, id, q) && Hanging(base, live, heard, id, e, r, q, k - 1);
    }
  }

  /** Below a dead end a node that writes while it still holds the tree cancels its worker, unless it is stuck. */
  lemma WritingCancels(base: Nodes, live: set<ConnId>, sc: Scene, id: Uuid, e: Ip, r: nat, n: Ip, k: nat)
    requires WellKept(base) && SceneSettled(base, live, sc, id, e, r) && n in sc.heard
    requires EndsAt(base, id, n, k, e) && !ProxiesIn(base, id, e) && k <= r + 1
    requires HoldsIn(sc.nodes, id, n) && !Stuck(base, live, id, n, k)
    ensures n in sc.heard[n] && IsTold(Cancelled(sc.heard[n], n) * sc.live, sc.nodes[n].paths[id])
  {
    assert HeardSettled(base, live, sc, id, e, r, n) && SamePath(base, sc.nodes, id, n);
    var heard, p := sc.heard[n], sc.nodes[n].paths[id];
    assert HoldsIn(heard, id, n) && heard[n].paths[id] == p && k > 0;
    ChainGoesOn(base, id, n, k, e);
    var q := p.next.ip;
    assert Hanging(base, live, heard, id, e, r, q, k - 1);
    assert Attended(live, p) && !HoldsIn(heard, id, q);
    assert !Kept(heard, id, p) && p.cancel.value.id in sc.live;
  }

  lemma WritingKeepsHeard(base: Nodes, live: set<ConnId>, sc: Scene, id: Uuid, e: Ip, r: nat, n: Ip, m: Ip)
    requires WellKept(base) && SceneSettled(base, live, sc, id, e, r) && n in sc.heard
    ensures HeardSettled(base, live, Happen(sc, Writes(n)), id, e, r, m)
  {
    WritesOwn(base, live, sc, id, e, r, n);
    assert HeardSettled(base, live, sc, id, e, r, m) && HeardSettled(base, live, sc, id, e, r, n);
    if m in sc.heard && m != n && HoldsIn(sc.heard[m], id, m) {
      assert SamePath(base, sc.heard[m], id, m);
      if IsTold(Cancelled(sc.heard[n], n), sc.heard[m][m].paths[id]) {
        CancelledIsOwn(base, sc.heard[n], n, m, id);
      }
    }
  }

  lemma WritingKeepsOthers(heard: Nodes, nodes: Nodes, n: Ip, id: Uuid, p: Path)
    requires n in heard && n in nodes
    requires !Kept(nodes, id, p)
    requires HoldsIn(nodes[n := Written(nodes[n], heard, n)], id, n) ==> HoldsIn(nodes, id, n)
    ensures !Kept(nodes[n := Written(nodes[n], heard, n)], id, p)
  {
  }

  /** A path that is cancelled by now hangs below a node that does not hold the tree. */
  lemma WritingJustifiesOne(base: Nodes, live: set<ConnId>, sc: Scene, id: Uuid, e: Ip, r: nat, n: Ip, m: Ip)
    requires WellKept(base) && SceneSettled(base, live, sc, id, e, r) && n in sc.heard
    requires HoldsIn(sc.nodes, id, m) && IsTold(Happen(sc, Writes(n)).told, sc.nodes[m].paths[id])
    ensures !Kept(sc.nodes, id, sc.nodes[m].paths[id])
  {
    assert HeardSettled(base, live, sc, id, e, r, n);
    assert SamePath(base, sc.nodes, id, m);
    if !IsTold(sc.told, sc.nodes[m].paths[id]) {
      CancelledIsOwn(base, sc.heard[n], n, m, id);
      assert HoldsIn(sc.heard[n], id, n);
    }
  }

  lemma WritingIsJustified(base: Nodes, live: set<ConnId>, sc: Scene, id: Uuid, e: Ip, r: nat, n: Ip)
    requires WellKept(base) && SceneSettled(base, live, sc, id, e, r) && n in sc.heard
    ensures Justified(Happen(sc, Writes(n)), id)
  {
    var after := Happen(sc, Writes(n));
    WritesOwn(base, live, sc, id, e, r, n);
    forall m | HoldsIn(after.nodes, id, m) && IsTold(after.told, after.nodes[m].paths[id])
      ensures !Kept(after.nodes, id, after.nodes[m].paths[id])
    {
      WritingJustifiesOne(base, live, sc, id, e, r, n, m);
      WritingKeepsOthers(sc.heard[n], sc.nodes, n, id, sc.nodes[m].paths[id]);
    }
  }

  lemma WritingKeepsHanging(base: Nodes, live: set<ConnId>, sc: Scene, id: Uuid, e: Ip, r: nat, n: Ip, m: Ip, k: nat)
    requires WellKept(base) && SceneSettled(base, live, sc, id, e, r) && n in sc.heard
    ensures Hanging(base, live, Happen(sc, Writes(n)).nodes, id, e, r, m, k)
  {
    var after := Happen(sc, Writes(n)).nodes;
    WritesOwn(base, live, sc, id, e, r, n);
    assert HeardSettled(base, live, sc, id, e, r, n);
    assert Hanging(base, live, sc.nodes, id, e, r, m, k);
    if m == n && EndsAt(base, id, n, k, e) && k <= r && ProxiesIn(base, id, e) {
      WritingRights(base, live, sc.heard[n], after, id, e, r, n, k);
    }
  }

  lemma WritingSettles(base: Nodes, live: set<ConnId>, sc: Scene, id: Uuid, e: Ip, r: nat, n: Ip)
    requires WellKept(base) && SceneSettled(base, live, sc, id, e, r) && n in sc.heard
    ensures SceneSettled(base, live, Happen(sc, Writes(n)), id, e, r)
  {
    var after := Happen(sc, Writes(n));
    WritesOwn(base, live, sc, id, e, r, n);
    assert HeardSettled(base, live, sc, id, e, r, n);
    WritingKeepsSamePaths(base, sc.heard[n], sc.nodes, n);
    WritingIsJustified(base, live, sc, id, e, r, n);
    forall m, k: nat ensures Hanging(base, live, after.nodes, id, e, r, m, k) {
      WritingKeepsHanging(base, live, sc, id, e, r, n, m, k);
    }
    forall m ensures HeardSettled(base, live, after, id, e, r, m) {
      WritingKeepsHeard(base, live, sc, id, e, r, n, m);
    }
    forall m | HoldsIn(after.nodes, id, m) && Attended(live, after.nodes[m].paths[id])
      ensures after.nodes[m].paths[id].cancel.value.id in after.live
    {
      assert SamePath(base, sc.nodes, id, m) && SamePath(base, after.nodes, id, m);
    }
  }

  // ---- Leaving ----

  predicate CanLeave(sc: Scene, n: Ip, k: Uuid) {
    HoldsIn(sc.nodes, k, n) && IsTold(sc.told, sc.nodes[n].paths[k])
  }

  /** A leaving worker takes its own path along, if it was dialled to the path's next hop, and nothing else. */
  lemma LeavesOwn(sc: Scene, n: Ip, k: Uuid, id: Uuid, m: Ip)
    requires CanLeave(sc, n, k)
    ensures var after := Happen(sc, Leaves(n, k)).nodes;
            && (HoldsIn(after, id, m) ==> HoldsIn(sc.nodes, id, m) && after[m].paths[id] == sc.nodes[m].paths[id])
            && (HoldsIn(sc.nodes, id, m) && !HoldsIn(after, id, m) <==>
                  m == n && k == id && sc.nodes[n].paths[k].next == Peer(sc.nodes[n].paths[k].cancel.value.ip))
  {
  }

  lemma LeavingKeepsSamePaths(base: Nodes, sc: Scene, n: Ip, k: Uuid)
    requires SamePaths(base, sc.nodes) && CanLeave(sc, n, k)
    ensures SamePaths(base, Happen(sc, Leaves(n, k)).nodes)
  {
    var after := Happen(sc, Leaves(n, k)).nodes;
    forall m, id ensures SamePath(base, after, id, m) {
      LeavesOwn(sc, n, k, id, m);
      assert SamePath(base, sc.nodes, id, m);
    }
  }

  /** A path that leaves hangs neither from a proxy nor from a stuck path. */
  lemma LeavingIsLoose(base: Nodes, live: set<ConnId>, sc: Scene, id: Uuid, e: Ip, r: nat, n: Ip, k: nat)
    requires SceneSettled(base, live, sc, id, e, r) && CanLeave(sc, n, id) && EndsAt(base, id, n, k, e)
    requires var p := sc.nodes[n].paths[id]; p.next == Peer(p.cancel.value.ip)
    ensures !ProxiesIn(base, id, e) && !Stuck(base, live, id, n, k)
  {
    assert SamePath(base, sc.nodes, id, n) && k > 0;
    ChainGoesOn(base, id, n, k, e);
    assert Hanging(base, live, sc.nodes, id, e, r, base[n].paths[id].next.ip, k - 1);
  }

  lemma LeavingKeepsHanging(base: Nodes, live: set<ConnId>, sc: Scene, id: Uuid, e: Ip, r: nat, n: Ip, k: Uuid, m: Ip,
                            hops: nat)
    requires SceneSettled(base, live, sc, id, e, r) && CanLeave(sc, n, k)
    ensures Hanging(base, live, Happen(sc, Leaves(n, k)).nodes, id, e, r, m, hops)
  {
    var after := Happen(sc, Leaves(n, k)).nodes;
    LeavesOwn(sc, n, k, id, m);
    assert Hanging(base, live, sc.nodes, id, e, r, m, hops);
    if EndsAt(base, id, m, hops, e) && HoldsIn(sc.nodes, id, m) && !HoldsIn(after, id, m) {
      LeavingIsLoose(base, live, sc, id, e, r, n, hops);
    }
  }

  lemma LeavingKeepsWorkers(base: Nodes, live: set<ConnId>, sc: Scene, id: Uuid, n: Ip, k: Uuid)
    requires OwnWorkers(base) && SamePaths(base, sc.nodes) && Attending(live, sc, id) && Justified(sc, id)
    requires CanLeave(sc, n, k)
    ensures Attending(live, Happen(sc, Leaves(n, k)), id) && Justified(Happen(sc, Leaves(n, k)), id)
  {
    var after := Happen(sc, Leaves(n, k));
    assert SamePath(base, sc.nodes, k, n);
    forall m | HoldsIn(after.nodes, id, m)
      ensures Attended(live, after.nodes[m].paths[id]) ==> after.nodes[m].paths[id].cancel.value.id in after.live
      ensures IsTold(after.told, after.nodes[m].paths[id]) ==> !Kept(after.nodes, id, after.nodes[m].paths[id])
    {
      var p := after.nodes[m].paths[id];
      LeavesOwn(sc, n, k, id, m);
      if p.next.Peer? {
        LeavesOwn(sc, n, k, id, p.next.ip);
      }
      assert SamePath(base, sc.nodes, id, m);
      assert SameWorker(base[m].paths[id], base[n].paths[k]) ==> m == n && id == k;
    }
  }

  lemma LeavingKeepsHeard(base: Nodes, live: set<ConnId>, sc: Scene, id: Uuid, e: Ip, r: nat, n: Ip, k: Uuid, m: Ip)
    requires SceneSettled(base, live, sc, id, e, r) && CanLeave(sc, n, k)
    ensures HeardSettled(base, live, Happen(sc, Leaves(n, k)), id, e, r, m)
  {
    assert HeardSettled(base, live, sc, id, e, r, m);
    if m in sc.heard {
      forall q | HoldsIn(Happen(sc, Leaves(n, k)).nodes, id, q) ensures HoldsIn(sc.heard[m], id, q) {
        LeavesOwn(sc, n, k, id, q);
      }
      LeavesOwn(sc, n, k, id, m);
    }
  }

  lemma LeavingSettles(base: Nodes, live: set<ConnId>, sc: Scene, id: Uuid, e: Ip, r: nat, n: Ip, k: Uuid)
    requires WellKept(base) && SceneSettled(base, live, sc, id, e, r) && CanLeave(sc, n, k)
    ensures SceneSettled(base, live, Happen(sc, Leaves(n, k)), id, e, r)
  {
    var after := Happen(sc, Leaves(n, k));
    LeavingKeepsSamePaths(base, sc, n, k);
    LeavingKeepsWorkers(base, live, sc, id, n, k);
    forall m, hops: nat ensures Hanging(base, live, after.nodes, id, e, r, m, hops) {
      LeavingKeepsHanging(base, live, sc, id, e, r, n, k, m, hops);
    }
    forall m ensures HeardSettled(base, live, after, id, e, r, m) {
      LeavingKeepsHeard(base, live, sc, id, e, r, n, k, m);
    }
  }

  lemma LeavingOnTheWay(base: Nodes, live: set<ConnId>, sc: Scene, id: Uuid, e: Ip, r: nat, n: Ip, k: Uuid, m: Ip,
                        hops: nat)
    requires WellKept(base) && SceneSettled(base, live, sc, id, e, r) && CanLeave(sc, n, k)
    requires EndsAt(base, id, m, hops, e) && OnTheWay(base, live, sc, id, e, m, hops)
    ensures OnTheWay(base, live, Happen(sc, Leaves(n, k)), id, e, m, hops)
  {
    var after := Happen(sc, Leaves(n, k));
    LeavesOwn(sc, n, k, id, m);
    LeavingKeepsHanging(base, live, sc, id, e, r, n, k, m, hops);
    if HoldsIn(sc.nodes, id, m) && !HoldsIn(after.nodes, id, m) {
      LeavingIsLoose(base, live, sc, id, e, r, n, hops);
    }
    if HoldsIn(after.nodes, id, m) && !ProxiesIn(base, id, e) && !Stuck(base, live, id, m, hops) {
      assert SamePath(base, sc.nodes, id, m) && SamePath(base, sc.nodes, k, n);
      assert SameWorker(base[m].paths[id], base[n].paths[k]) ==> m == n && id == k;
      assert hops > 0 && Attended(live, base[m].paths[id]);
    }
  }

  // ---- What a round does ----

  lemma EventSettles(base: Nodes, live: set<ConnId>, sc: Scene, id: Uuid, e: Ip, r: nat, ev: Event)
    requires WellKept(base) && SceneSettled(base, live, sc, id, e, r)
    ensures SceneSettled(base, live, Happen(sc, ev), id, e, r)
  {
    match ev
    case Asks(n) =>
      if n in sc.nodes {
        AskingSettles(base, live, sc, id, e, r, n);
      }
    case Writes(n) =>
      if n in sc.heard {
        WritingSettles(base, live, sc, id, e, r, n);
      }
    case Leaves(n, k) =>
      if CanLeave(sc, n, k) {
        LeavingSettles(base, live, sc, id, e, r, n, k);
      }
  }

  /** Node n will write in this round, after it has read in it. */
  ghost predicate Due(sc: Scene, round: seq<Event>, n: Ip) {
    Completes(round, n) || (n in sc.heard && Writes(n) in round)
  }

  lemma StillDue(sc: Scene, round: seq<Event>, n: Ip)
    requires round != [] && n in sc.nodes && Due(sc, round, n) && !(round[0] == Writes(n) && n in sc.heard)
    ensures Due(Happen(sc, round[0]), round[1..], n)
  {
    var after := Happen(sc, round[0]);
    if Completes(round, n) {
      var i, j :| 0 <= i < j < |round| && round[i] == Asks(n) && round[j] == Writes(n);
      assert round[1..][j - 1] == Writes(n);
      if i > 0 {
        assert round[1..][i - 1] == Asks(n);
      } else {
        assert n in after.heard;
      }
    }
  }

  lemma WritingOnTheWay(base: Nodes, live: set<ConnId>, sc: Scene, id: Uuid, e: Ip, r: nat, n: Ip, m: Ip, k: nat)
    requires WellKept(base) && SceneSettled(base, live, sc, id, e, r) && n in sc.heard
    requires EndsAt(base, id, m, k, e) && k <= r + 1 && (m == n || OnTheWay(base, live, sc, id, e, m, k))
    ensures OnTheWay(base, live, Happen(sc, Writes(n)), id, e, m, k)
  {
    var after := Happen(sc, Writes(n));
    WritesOwn(base, live, sc, id, e, r, n);
    assert HeardSettled(base, live, sc, id, e, r, n) && Hanging(base, live, sc.nodes, id, e, r, m, k);
    if ProxiesIn(base, id, e) {
      if m == n {
        WritingRights(base, live, sc.heard[n], after.nodes, id, e, r, n, k);
      }
    } else if m == n && HoldsIn(sc.nodes, id, n) && !Stuck(base, live, id, n, k) {
      WritingCancels(base, live, sc, id, e, r, n, k);
    }
  }

  lemma EventOnTheWay(base: Nodes, live: set<ConnId>, sc: Scene, id: Uuid, e: Ip, r: nat, ev: Event, n: Ip, k: nat)
    requires WellKept(base) && SceneSettled(base, live, sc, id, e, r) && EndsAt(base, id, n, k, e) && k <= r + 1
    requires (ev == Writes(n) && n in sc.heard) || OnTheWay(base, live, sc, id, e, n, k)
    ensures OnTheWay(base, live, Happen(sc, ev), id, e, n, k)
  {
    match ev
    case Asks(_) =>
    case Writes(m) =>
      if m in sc.heard {
        WritingOnTheWay(base, live, sc, id, e, r, m, n, k);
      }
    case Leaves(m, t) =>
      if CanLeave(sc, m, t) {
        LeavingOnTheWay(base, live, sc, id, e, r, m, t, n, k);
      }
  }

  /** Over a round the network stays settled, and a node that is on the way or due, at most r + 1 hops from the end, is
      on the way at the end of it. */
  lemma {:induction false} PlayOnTheWay(base: Nodes, live: set<ConnId>, sc: Scene, round: seq<Event>, id: Uuid, e: Ip,
                                        r: nat, n: Ip, k: nat)
    requires WellKept(base) && SceneSettled(base, live, sc, id, e, r)
    ensures SceneSettled(base, live, Play(sc, round), id, e, r)
    ensures EndsAt(base, id, n, k, e) && k <= r + 1 && n in sc.nodes
            && (Due(sc, round, n) || OnTheWay(base, live, sc, id, e, n, k))
            ==> OnTheWay(base, live, Play(sc, round), id, e, n, k)
    decreases round
  {
    if round != [] {
      var after := Happen(sc, round[0]);
      EventSettles(base, live, sc, id, e, r, round[0]);
      PlayOnTheWay(base, live, after, round[1..], id, e, r, n, k);
      if EndsAt(base, id, n, k, e) && k <= r + 1 && n in sc.nodes
         && (Due(sc, round, n) || OnTheWay(base, live, sc, id, e, n, k)) {
        if (round[0] == Writes(n) && n in sc.heard) || OnTheWay(base, live, sc, id, e, n, k) {
          EventOnTheWay(base, live, sc, id, e, r, round[0], n, k);
        } else {
          StillDue(sc, round, n);
        }
      }
    }
  }

  /** When no cancelled worker is left, on the way means arrived. */
  lemma NothingLeftToLeave(base: Nodes, live: set<ConnId>, sc: Scene, id: Uuid, e: Ip, r: nat, n: Ip, k: nat)
    requires SceneSettled(base, live, sc, id, e, r) && sc.told == {} && EndsAt(base, id, n, k, e)
    requires k == r + 1 ==> OnTheWay(base, live, sc, id, e, n, k)
    ensures Hanging(base, live, sc.nodes, id, e, r + 1, n, k)
  {
    assert Hanging(base, live, sc.nodes, id, e, r, n, k);
  }

  lemma RoundHangs(base: Nodes, live: set<ConnId>, sc: Scene, round: seq<Event>, id: Uuid, e: Ip, r: nat, n: Ip, k: nat)
    requires WellKept(base) && SceneSettled(base, live, sc, id, e, r) && Fair(base.Keys, round)
    requires Play(sc, round).told == {}
    ensures Hanging(base, live, Play(sc, round).nodes, id, e, r + 1, n, k)
  {
    PlayOnTheWay(base, live, sc, round, id, e, r, n, k);
    if EndsAt(base, id, n, k, e) {
      if k == r + 1 {
        ChainGoesOn(base, id, n, k, e);
      }
      NothingLeftToLeave(base, live, Play(sc, round), id, e, r, n, k);
    }
  }

  lemma Rested(base: Nodes, live: set<ConnId>, sc: Scene, id: Uuid, e: Ip, r: nat, next: nat)
    requires SceneSettled(base, live, sc, id, e, r)
    requires forall n, k: nat :: Hanging(base, live, sc.nodes, id, e, next, n, k)
    ensures SceneSettled(base, live, sc.(heard := map[]), id, e, next)
  {
  }

  lemma RoundSettles(base: Nodes, live: set<ConnId>, sc: Scene, round: seq<Event>, id: Uuid, e: Ip, r: nat)
    requires WellKept(base) && SceneSettled(base, live, sc, id, e, r) && Fair(base.Keys, round)
    requires Play(sc, round).told == {}
    ensures SceneSettled(base, live, Play(sc, round).(heard := map[]), id, e, r + 1)
  {
    var after, next := Play(sc, round), r + 1;
    PlayOnTheWay(base, live, sc, round, id, e, r, "", 0);
    forall n, k: nat ensures Hanging(base, live, after.nodes, id, e, next, n, k) {
      RoundHangs(base, live, sc, round, id, e, r, n, k);
    }
    Rested(base, live, after, id, e, r, next);
  }

  lemma {:induction false} HangersHold(base: Nodes, id: Uuid, n: Ip, k: nat, e: Ip)
    requires EndsAt(base, id, n, k, e) && ProxiesIn(base, id, e)
    ensures HoldsIn(base, id, n)
  {
  }

  lemma SettledAtStart(base: Nodes, live: set<ConnId>, id: Uuid, e: Ip)
    requires WellKept(base)
    ensures SceneSettled(base, live, Opening(base, live), id, e, 0)
  {
    forall n, k: nat ensures Hanging(base, live, base, id, e, 0, n, k) {
      if EndsAt(base, id, n, k, e) && ProxiesIn(base, id, e) {
        HangersHold(base, id, n, k, e);
      }
    }
  }

  lemma {:induction false} RoundsSettle(base: Nodes, live: set<ConnId>, rounds: seq<seq<Event>>, id: Uuid, e: Ip)
    requires WellKept(base) && AllFair(Opening(base, live), rounds)
    ensures SceneSettled(base, live, Rounds(Opening(base, live), rounds).(heard := map[]), id, e, |rounds|)
  {
    if rounds == [] {
      SettledAtStart(base, live, id, e);
    } else {
      var n := |rounds| - 1;
      RoundsSettle(base, live, rounds[..n], id, e);
      var sc := Rounds(Opening(base, live), rounds[..n]).(heard := map[]);
      RoundSettles(base, live, sc, rounds[n], id, e, n);
    }
  }

  lemma HangingAt(base: Nodes, live: set<ConnId>, nodes: Nodes, id: Uuid, e: Ip, r: nat, n: Ip, k: nat)
    requires Settled(base, live, nodes, id, e, r) && EndsAt(base, id, n, k, e) && k <= r
    ensures Right(base, live, nodes, id, e, n, k) && SamePath(base, nodes, id, n)
  {
    assert Hanging(base, live, nodes, id, e, r, n, k);
  }

  lemma SettledIsRight(base: Nodes, live: set<ConnId>, nodes: Nodes, id: Uuid, e: Ip, r: nat, n: Ip, k: nat)
    requires Settled(base, live, nodes, id, e, r) && EndsAt(base, id, n, k, e) && ProxiesIn(base, id, e) && k <= r
    ensures HoldsIn(nodes, id, n) && nodes[n].paths[id].next == base[n].paths[id].next
    ensures nodes[n].paths[id].proxyPublic == base[e].publicKey
    ensures nodes[n].paths[id].next.Peer? ==>
              var q := nodes[n].paths[id].next.ip;
              HoldsIn(nodes, id, q) && nodes[n].paths[id].next2 == nodes[q].paths[id].next
  {
    HangingAt(base, live, nodes, id, e, r, n, k);
    if k > 0 {
      ChainGoesOn(base, id, n, k, e);
      HangingAt(base, live, nodes, id, e, r, base[n].paths[id].next.ip, k - 1);
    }
  }

  // ---- Theorems ----

  /** k fair rounds and more: a path at most k hops from its proxy carries that proxy's key and its parent's next
      hop. */
  lemma Stabilises(base: Nodes, live: set<ConnId>, rounds: seq<seq<Event>>, id: Uuid, n: Ip, k: nat, e: Ip)
    requires WellKept(base) && AllFair(Opening(base, live), rounds)
    requires EndsAt(base, id, n, k, e) && ProxiesIn(base, id, e) && k <= |rounds|
    ensures var after := Rounds(Opening(base, live), rounds).nodes;
            && HoldsIn(after, id, n) && after[n].paths[id].next == base[n].paths[id].next
            && after[n].paths[id].proxyPublic == base[e].publicKey
            && (after[n].paths[id].next.Peer? ==>
                  var q := after[n].paths[id].next.ip;
                  HoldsIn(after, id, q) && after[n].paths[id].next2 == after[q].paths[id].next)
  {
    RoundsSettle(base, live, rounds, id, e);
    SettledIsRight(base, live, Rounds(Opening(base, live), rounds).nodes, id, e, |rounds|, n, k);
  }

  /** k fair rounds and more: when the chain ends at a node that is not a proxy of the tree, a node k hops from that
      end still holds the tree if and only if one of the paths up to the end has no live worker dialled to its next
      hop. */
  lemma OrphansLeaveIff(base: Nodes, live: set<ConnId>, rounds: seq<seq<Event>>, id: Uuid, n: Ip, k: nat, e: Ip)
    requires WellKept(base) && AllFair(Opening(base, live), rounds)
    requires EndsAt(base, id, n, k, e) && !ProxiesIn(base, id, e) && k <= |rounds|
    ensures HoldsIn(Rounds(Opening(base, live), rounds).nodes, id, n) <==> Stuck(base, live, id, n, k)
  {
    RoundsSettle(base, live, rounds, id, e);
    HangingAt(base, live, Rounds(Opening(base, live), rounds).nodes, id, e, |rounds|, n, k);
  }

  // ---- Fair rounds exist ----

  /** Path id of node n is the one that worker w sends for. */
  predicate SendsFor(nodes: Nodes, w: ConnId, n: Ip, id: Uuid) {
    HoldsIn(nodes, id, n) && nodes[n].paths[id].cancel.Some? && nodes[n].paths[id].cancel.value.id == w
  }

  /** A live worker's path is held until the worker leaves. */
  ghost predicate LiveIsHeld(base: Nodes, nodes: Nodes, live: set<ConnId>) {
    forall w, n, id :: w in live && SendsFor(base, w, n, id) ==> HoldsIn(nodes, id, n)
  }

  ghost predicate Sends(base: Nodes, w: ConnId) {
    exists n, id :: SendsFor(base, w, n, id)
  }

  ghost predicate HeardSame(base: Nodes, sc: Scene, m: Ip) {
    m in sc.heard ==> m in sc.nodes && m in sc.heard[m] && SamePaths(base, sc.heard[m])
  }

  ghost predicate Orderly(base: Nodes, sc: Scene) {
    && SamePaths(base, sc.nodes) && sc.told <= sc.live && LiveIsHeld(base, sc.nodes, sc.live)
    && (forall m :: HeardSame(base, sc, m))
    && (forall w :: w in sc.told ==> Sends(base, w))
  }

  lemma CancelledSends(base: Nodes, heard: Nodes, n: Ip, w: ConnId)
    requires SamePaths(base, heard) && n in heard && w in Cancelled(heard, n)
    ensures Sends(base, w)
  {
    var id :| id in heard[n].paths && heard[n].paths[id].cancel.Some? && heard[n].paths[id].cancel.value.id == w;
    assert SamePath(base, heard, id, n);
    assert SendsFor(base, w, n, id);
  }

  lemma OrderlyAsks(base: Nodes, sc: Scene, n: Ip)
    requires Orderly(base, sc) && n in sc.nodes
    ensures Orderly(base, Happen(sc, Asks(n)))
  {
    forall m ensures HeardSame(base, Happen(sc, Asks(n)), m) {
      assert HeardSame(base, sc, m);
    }
  }

  lemma WritingKeepsLive(base: Nodes, heard: Nodes, nodes: Nodes, live: set<ConnId>, n: Ip)
    requires LiveIsHeld(base, nodes, live) && n in heard && n in nodes
    ensures LiveIsHeld(base, nodes[n := Written(nodes[n], heard, n)], live)
  {
    var after := nodes[n := Written(nodes[n], heard, n)];
    assert forall id, m :: HoldsIn(nodes, id, m) ==> HoldsIn(after, id, m);
  }

  lemma OrderlyWrites(base: Nodes, sc: Scene, n: Ip)
    requires Orderly(base, sc) && n in sc.heard
    ensures Orderly(base, Happen(sc, Writes(n)))
  {
    var after, heard := Happen(sc, Writes(n)), sc.heard[n];
    assert HeardSame(base, sc, n);
    WritingKeepsSamePaths(base, heard, sc.nodes, n);
    WritingKeepsLive(base, heard, sc.nodes, sc.live, n);
    forall w | w in after.told ensures Sends(base, w) {
      if w !in sc.told {
        CancelledSends(base, heard, n, w);
      }
    }
    forall m ensures HeardSame(base, after, m) {
      assert HeardSame(base, sc, m);
    }
  }

  lemma OrderlyLeaves(base: Nodes, sc: Scene, n: Ip, k: Uuid)
    requires OwnWorkers(base) && Orderly(base, sc) && CanLeave(sc, n, k)
    ensures Orderly(base, Happen(sc, Leaves(n, k)))
  {
    var after := Happen(sc, Leaves(n, k));
    LeavingKeepsSamePaths(base, sc, n, k);
    forall w, m, id | w in after.live && SendsFor(base, w, m, id) ensures HoldsIn(after.nodes, id, m) {
      assert SamePath(base, sc.nodes, k, n);
      LeavesOwn(sc, n, k, id, m);
    }
    forall m ensures HeardSame(base, after, m) {
      assert HeardSame(base, sc, m);
    }
  }

  lemma OrderlyEvent(base: Nodes, sc: Scene, ev: Event)
    requires OwnWorkers(base) && Orderly(base, sc)
    ensures Orderly(base, Happen(sc, ev))
  {
    match ev
    case Asks(n) =>
      if n in sc.nodes {
        OrderlyAsks(base, sc, n);
      }
    case Writes(n) =>
      if n in sc.heard {
        OrderlyWrites(base, sc, n);
      }
    case Leaves(n, k) =>
      if CanLeave(sc, n, k) {
        OrderlyLeaves(base, sc, n, k);
      }
  }

  lemma {:induction false} OrderlyPlay(base: Nodes, sc: Scene, round: seq<Event>)
    requires OwnWorkers(base) && Orderly(base, sc)
    ensures Orderly(base, Play(sc, round))
    decreases round
  {
    if round != [] {
      OrderlyEvent(base, sc, round[0]);
      OrderlyPlay(base, Happen(sc, round[0]), round[1..]);
    }
  }

  lemma {:induction false} OrderlyRounds(base: Nodes, live: set<ConnId>, rounds: seq<seq<Event>>)
    requires OwnWorkers(base)
    ensures Orderly(base, Rounds(Opening(base, live), rounds).(heard := map[]))
    decreases rounds
  {
    if rounds != [] {
      var n := |rounds| - 1;
      OrderlyRounds(base, live, rounds[..n]);
      OrderlyPlay(base, Rounds(Opening(base, live), rounds[..n]).(heard := map[]), rounds[n]);
    }
  }

  lemma {:induction false} PlayTwo(sc: Scene, first: seq<Event>, second: seq<Event>)
    ensures Play(sc, first + second) == Play(Play(sc, first), second)
    decreases first
  {
    if first == [] {
      assert first + second == second;
    } else {
      assert (first + second)[1..] == first[1..] + second;
      PlayTwo(Happen(sc, first[0]), first[1..], second);
    }
  }

  lemma ThisCanLeave(base: Nodes, sc: Scene, w: ConnId, n: Ip, id: Uuid)
    requires Orderly(base, sc) && w in sc.told && SendsFor(base, w, n, id)
    ensures CanLeave(sc, n, id) && Happen(sc, Leaves(n, id)).told == sc.told - {w}
  {
    assert SamePath(base, sc.nodes, id, n);
  }

  lemma OneCanLeave(base: Nodes, sc: Scene, w: ConnId) returns (exit: Event)
    requires OwnWorkers(base) && Orderly(base, sc) && w in sc.told
    ensures Orderly(base, Happen(sc, exit)) && Happen(sc, exit).told == sc.told - {w}
  {
    assert Sends(base, w);
    var n, id :| SendsFor(base, w, n, id);
    exit := Leaves(n, id);
    ThisCanLeave(base, sc, w, n, id);
    OrderlyEvent(base, sc, exit);
  }

  /** Whatever has happened, the cancelled workers can leave. */
  lemma {:induction false} AllCanLeave(base: Nodes, sc: Scene) returns (exits: seq<Event>)
    requires OwnWorkers(base) && Orderly(base, sc)
    ensures Play(sc, exits).told == {}
    decreases sc.told
  {
    exits := [];
    if sc.told != {} {
      var w :| w in sc.told;
      var exit := OneCanLeave(base, sc, w);
      var rest := AllCanLeave(base, Happen(sc, exit));
      exits := [exit] + rest;
      PlayTwo(sc, [exit], rest);
      PlayOne(sc, exit);
    }
  }

  lemma PlayOne(sc: Scene, ev: Event)
    ensures Play(sc, [ev]) == Happen(sc, ev)
  {
    assert [ev][1..] == [];
  }

  lemma {:induction false} OneEach(ns: set<Ip>) returns (round: seq<Event>)
    ensures Fair(ns, round)
    decreases ns
  {
    round := [];
    if ns != {} {
      var n :| n in ns;
      var rest := OneEach(ns - {n});
      round := [Asks(n), Writes(n)] + rest;
      assert round[0] == Asks(n) && round[1] == Writes(n);
      forall m | m in ns - {n} ensures Completes(round, m) {
        var i, j :| 0 <= i < j < |rest| && rest[i] == Asks(m) && rest[j] == Writes(m);
        assert round[i + 2] == Asks(m) && round[j + 2] == Writes(m);
      }
    }
  }

  lemma LaterIsFair(ns: set<Ip>, before: seq<Event>, round: seq<Event>, more: seq<Event>)
    requires Fair(ns, round)
    ensures Fair(ns, before + round + more)
  {
    var whole, b := before + round + more, |before|;
    forall n | n in ns ensures Completes(whole, n) {
      var i, j :| 0 <= i < j < |round| && round[i] == Asks(n) && round[j] == Writes(n);
      assert whole[b + i] == Asks(n) && whole[b + j] == Writes(n);
    }
  }

  /** However rounds have gone so far and whatever begins the next one, that one can still end as a fair round. */
  lemma RoundCanEnd(base: Nodes, live: set<ConnId>, rounds: seq<seq<Event>>, begun: seq<Event>)
    returns (round: seq<Event>)
    requires WellKept(base) && AllFair(Opening(base, live), rounds)
    ensures begun <= round && AllFair(Opening(base, live), rounds + [round])
  {
    var sc := Rounds(Opening(base, live), rounds).(heard := map[]);
    var passes := OneEach(base.Keys);
    OrderlyRounds(base, live, rounds);
    OrderlyPlay(base, sc, begun + passes);
    var exits := AllCanLeave(base, Play(sc, begun + passes));
    PlayTwo(sc, begun + passes, exits);
    round := begun + passes + exits;
    LaterIsFair(base.Keys, begun, passes, exits);
    assert (rounds + [round])[..|rounds|] == rounds;
  }
}
