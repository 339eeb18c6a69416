/** What joins and repair give together. Whatever a run of fresh joins has built, and whichever nodes have stopped, as
    many fair health rounds as there are nodes set every path that leads to a running proxy right, and remove exactly
    those of the others that cancelling can remove. */
module Recovery {
  import opened Profiles
  import opened NodeSteps
  import opened Overlay
  import opened Permanence
  import opened Acyclicity
  import opened Climbing
  import opened Health
  import opened Links
  import Scenes

  function Running(net: Net, down: set<Ip>): Nodes {
    map n | n in net.nodes && n !in down :: net.nodes[n]
  }

  lemma RunningOwnWorkers(net: Net, down: set<Ip>)
    requires Agreeing(net)
    ensures OwnWorkers(Running(net, down))
  {
    var nodes := Running(net, down);
    forall n, id, m, k |
      HoldsIn(nodes, id, n) && HoldsIn(nodes, k, m) && SameWorker(nodes[n].paths[id], nodes[m].paths[k])
      ensures n == m && id == k
    {
      assert NodeSound(net, n) && NodeSound(net, m);
      assert KeyHeld(net, n, nodes[n].paths[id]) && KeyHeld(net, m, nodes[m].paths[k]);
    }
  }

  lemma RunningIsWellKept(net: Net, down: set<Ip>)
    requires Agreeing(net)
    ensures WellKept(Running(net, down))
  {
    var nodes := Running(net, down);
    RunningOwnWorkers(net, down);
    forall n, id | HoldsIn(nodes, id, n)
      ensures var p := nodes[n].paths[id];
              p.uuid == id && p.next != Nowhere && (p.next == Storage ==> p.proxyPublic == nodes[n].publicKey)
    {
      assert NodeSound(net, n) && HeldSound(net, n, nodes[n].paths[id]);
    }
  }

  /** Every chain ends, after no more hops than there are members that joined the tree before its lower end. */
  lemma {:induction false} ChainEnds(net: Net, down: set<Ip>, id: Uuid, n: Ip) returns (k: nat, e: Ip)
    requires Ranked(net)
    ensures EndsAt(Running(net, down), id, n, k, e) && k <= |Before(net, id, n)|
    decreases |Before(net, id, n)|
  {
    var nodes := Running(net, down);
    k, e := 0, n;
    if HoldsIn(nodes, id, n) && nodes[n].paths[id].next.Peer? {
      var q := nodes[n].paths[id].next.ip;
      assert NodeSound(net, n) && PathFalls(net.rank, n, nodes[n].paths[id]);
      BeforeShrinks(net, id, q, n);
      var j;
      j, e := ChainEnds(net, down, id, q);
      k := j + 1;
    }
  }

  lemma FewBefore(net: Net, id: Uuid, n: Ip)
    requires n in net.nodes
    ensures |Before(net, id, n)| < |net.nodes|
  {
    assert Before(net, id, n) < net.nodes.Keys;
    Smaller(Before(net, id, n), net.nodes.Keys);
  }

  lemma {:induction false} LinkedIsNotStuck(net: Net, down: set<Ip>, id: Uuid, n: Ip, k: nat)
    requires AllLinked(net)
    ensures !Stuck(Running(net, down), net.senders, id, n, k)
    decreases k
  {
    var nodes := Running(net, down);
    if k > 0 && HoldsIn(nodes, id, n) && nodes[n].paths[id].next.Peer? {
      assert PathLinked(net, n, id);
      LinkedIsNotStuck(net, down, id, nodes[n].paths[id].next.ip, k - 1);
    }
  }

  /** The network once the rounds are over. */
  function Recovered(net: Net, down: set<Ip>, rounds: seq<seq<Event>>): Nodes {
    Rounds(Opening(Running(net, down), net.senders), rounds).nodes
  }

  /** e is where n's chain ends when the rounds begin. If e proxies the tree, n holds it afterwards with e's key and the
      next hop of a parent that holds the tree as well. If not, n holds it afterwards exactly when some path of the
      chain is stuck, which no chain is in runs that obey LinkCare. */
  lemma Recovers(d: Discipline, net: Net, down: set<Ip>, rounds: seq<seq<Event>>, n: Ip, id: Uuid)
    returns (k: nat, e: Ip)
    requires d.freshJoins && Reachable(d, net)
    requires HoldsIn(Running(net, down), id, n)
    requires AllFair(Opening(Running(net, down), net.senders), rounds) && |rounds| >= |net.nodes|
    ensures EndsAt(Running(net, down), id, n, k, e) && k < |net.nodes|
    ensures var before, after := Running(net, down), Recovered(net, down, rounds);
            && (HoldsIn(after, id, n) <==> ProxiesIn(before, id, e) || Stuck(before, net.senders, id, n, k))
            && (ProxiesIn(before, id, e) ==>
                  var p := after[n].paths[id];
                  && p.next == before[n].paths[id].next && p.proxyPublic == before[e].publicKey
                  && (p.next.Peer? ==> HoldsIn(after, id, p.next.ip) && p.next2 == after[p.next.ip].paths[id].next))
            && (d.linkCare ==> !Stuck(before, net.senders, id, n, k))
  {
    ReachableIsRanked(d, net);
    ReachableAgrees(d, net);
    RunningIsWellKept(net, down);
    k, e := ChainEnds(net, down, id, n);
    FewBefore(net, id, n);
    if d.linkCare {
      ReachableIsLinked(d, net);
      LinkedIsNotStuck(net, down, id, n, k);
    }
    if ProxiesIn(Running(net, down), id, e) {
      Stabilises(Running(net, down), net.senders, rounds, id, n, k, e);
    } else {
      OrphansLeaveIff(Running(net, down), net.senders, rounds, id, n, k, e);
    }
  }

  // ---- Orphans that stay ----

  const FRESH_JOINS := Discipline(true, false)

  /** A path whose next hop has stopped and whose worker was dialled elsewhere, or has left, outlasts any fair
      rounds. */
  lemma UnattendedOrphanStays(d: Discipline, net: Net, a: Ip, n: Ip, id: Uuid, rounds: seq<seq<Event>>)
    requires Reachable(d, net) && Holds(net, n, id) && PathAt(net, n, id).next == Peer(a) && a != n
    requires !Attended(net.senders, PathAt(net, n, id))
    requires AllFair(Opening(Running(net, {a}), net.senders), rounds) && |rounds| >= 1
    ensures HoldsIn(Recovered(net, {a}, rounds), id, n)
  {
    var nodes := Running(net, {a});
    ReachableAgrees(d, net);
    RunningIsWellKept(net, {a});
    assert Leads(nodes, id, a, a, 0) && EndsAt(nodes, id, n, 1, a);
    assert Stuck(nodes, net.senders, id, n, 1);
    OrphansLeaveIff(nodes, net.senders, rounds, id, n, 1, a);
  }

  /** The code reaches such a state from three nodes that have just started, with fresh joins throughout: c's path leads
      through a on a connection to b, and stays for ever once a stops. */
  lemma MisdialledOrphanStays(draw: Scenes.Draw, start: Net, a: Ip, b: Ip, c: Ip, id: Uuid) returns (net: Net)
    requires Scenes.Started(start, {a, b, c}) && a != b && b != c && a != c
    ensures Reachable(FRESH_JOINS, net) && Holds(net, c, id) && PathAt(net, c, id).next == Peer(a)
    ensures forall rounds :: AllFair(Opening(Running(net, {a}), net.senders), rounds) && |rounds| >= 1 ==>
              HoldsIn(Recovered(net, {a}, rounds), id, c)
  {
    net := Scenes.MisdialledIsReached(FRESH_JOINS, draw, start, a, b, c, id);
    forall rounds | AllFair(Opening(Running(net, {a}), net.senders), rounds) && |rounds| >= 1
      ensures HoldsIn(Recovered(net, {a}, rounds), id, c)
    {
      UnattendedOrphanStays(FRESH_JOINS, net, a, c, id, rounds);
    }
  }

  /** From four nodes it reaches a path that FIX wrote back after its worker had left; that one stays for ever too. */
  lemma DesertedOrphanStays(draw: Scenes.Draw, start: Net, x: Ip, a: Ip, b: Ip, c: Ip, id: Uuid) returns (net: Net)
    requires Scenes.Started(start, {x, a, b, c}) && x != a && x != b && x != c && a != b && a != c && b != c
    ensures Reachable(FRESH_JOINS, net) && Holds(net, c, id) && PathAt(net, c, id).next == Peer(b)
    ensures forall rounds :: AllFair(Opening(Running(net, {b}), net.senders), rounds) && |rounds| >= 1 ==>
              HoldsIn(Recovered(net, {b}, rounds), id, c)
  {
    net := Scenes.DeserterIsReached(FRESH_JOINS, draw, start, x, a, b, c, id);
    forall rounds | AllFair(Opening(Running(net, {b}), net.senders), rounds) && |rounds| >= 1
      ensures HoldsIn(Recovered(net, {b}, rounds), id, c)
    {
      UnattendedOrphanStays(FRESH_JOINS, net, b, c, id, rounds);
    }
  }
}
