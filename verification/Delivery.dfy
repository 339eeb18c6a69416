/** One published message on its way along a chain of cover workers to the proxy. */
module Delivery {
  import opened Profiles
  import opened KeyExchange
  import opened Envelope
  import opened NodeSteps
  import opened Overlay
  import opened Permanence
  import opened Links
  import opened Provenance
  import opened NodeLaws

  /** What the stations of a chain do, one after the other, for as long as the message is forwarded. */
  function Journey(message: AppMessage, chain: seq<Station>): seq<Outcome>
    decreases chain
  {
    if chain == [] then []
    else
      var o := HandleApplicationMessage(message, chain[0]);
      [o] + if o.Forwarded? then Journey(o.message, chain[1..]) else []
  }

  /** The payload a publisher seals for the proxy. */
  function Payload(data: DataMessage, seal: PublicKey): SymInput {
    SymInput(Real, Sealed(seal, Some(data)))
  }

  /** The two ends of every link agree on a usable key, every relay can send and does not own the sealing key, and
      the last station owns it, forwards to storage and can store. */
  predicate Passable(seal: PublicKey, key: Secret, chain: seq<Station>)
    decreases chain
  {
    && chain != [] && UsableKey(key) && chain[0].secretKey == key
    && if |chain| == 1 then
         chain[0].publicKey == seal && chain[0].forwardPath.next == Storage && chain[0].storeOk
       else
         && chain[0].publicKey != seal && chain[0].sendOk
         && Passable(seal, chain[0].forwardPath.symKey, chain[1..])
  }

  /** Every relay forwards the sealed payload as it is, and the last station alone stores exactly the data. */
  predicate Delivers(journey: seq<Outcome>, data: DataMessage, seal: PublicKey, hops: nat) {
    && |journey| == hops > 0 && journey[hops - 1] == Stored(data)
    && (forall i :: 0 <= i < hops - 1 ==> journey[i].Forwarded? && journey[i].message.body == Some(Payload(data, seal)))
  }

  // ---- Whatever the chain ----

  /** Hop i forwards the same sealed payload or ends the journey, and stores only the data, as the seal's owner with
      a path to storage. */
  predicate HopKeeps(journey: seq<Outcome>, chain: seq<Station>, data: DataMessage, seal: PublicKey, i: nat)
    requires i < |journey|
  {
    && i < |chain| && journey[i] != Discarded
    && (journey[i].Forwarded? ==> journey[i].message.body == Some(Payload(data, seal)))
    && (!journey[i].Forwarded? ==> i == |journey| - 1)
    && (journey[i].Stored? ==>
          journey[i].data == data && chain[i].publicKey == seal && chain[i].forwardPath.next == Storage)
  }

  /** On any chain, with any keys and profiles, every hop keeps the payload; so at most one hop stores. */
  lemma {:induction false} PayloadIsKept(message: AppMessage, chain: seq<Station>, data: DataMessage, seal: PublicKey,
                                         i: nat)
    requires message.body == Some(Payload(data, seal)) && i < |Journey(message, chain)|
    ensures HopKeeps(Journey(message, chain), chain, data, seal, i)
    decreases chain
  {
    var o := HandleApplicationMessage(message, chain[0]);
    if i > 0 {
      PayloadIsKept(o.message, chain[1..], data, seal, i - 1);
    }
  }

  // ---- When a message arrives ----

  lemma {:induction false} ArrivesIff(message: AppMessage, chain: seq<Station>, data: DataMessage, seal: PublicKey)
    requires message.body == Some(Payload(data, seal)) && UsableKey(message.key)
    ensures Delivers(Journey(message, chain), data, seal, |chain|) <==> Passable(seal, message.key, chain)
    decreases chain
  {
    if chain != [] {
      var o, journey := HandleApplicationMessage(message, chain[0]), Journey(message, chain);
      if |chain| > 1 && o.Forwarded? {
        var rest := Journey(o.message, chain[1..]);
        ArrivesIff(o.message, chain[1..], data, seal);
        assert journey == [o] + rest;
        if Delivers(journey, data, seal, |chain|) {
          assert forall i :: 0 <= i < |rest| ==> rest[i] == journey[i + 1];
        }
      }
    }
  }

  /** A message is built and stored by the last station, exactly as published and after every relay passed its
      payload on untouched, if and only if the chain is passable for the publisher's key and seal. */
  lemma PublishedIsDeliveredIff(data: DataMessage, seal: PublicKey, key: Secret, chain: seq<Station>)
    ensures (NewRealMessage(data, seal, key).Some?
             && Delivers(Journey(NewRealMessage(data, seal, key).value, chain), data, seal, |chain|))
            <==> Passable(seal, key, chain)
  {
    if UsableKey(key) {
      ArrivesIff(NewRealMessage(data, seal, key).value, chain, data, seal);
    }
  }

  // ---- Chains of a real network ----

  /** Node n's path of tree id is sent on its own connection, dialled to its next hop; the link is live at both ends,
      and the forwarding profile of its worker at the parent is still the parent's current path; its key is usable. */
  ghost predicate LiveLink(net: Net, id: Uuid, n: Ip) {
    && Holds(net, n, id) && PathAt(net, n, id).next.Peer?
    && UsableKey(PathAt(net, n, id).symKey)
    && id in net.nodes[n].conns && PathAt(net, n, id).cancel == Some(net.nodes[n].conns[id])
    && PathAt(net, n, id).next == Peer(net.nodes[n].conns[id].ip)
    && net.nodes[n].conns[id].id in net.senders && net.nodes[n].conns[id].id in net.workers
    && var q := PathAt(net, n, id).next.ip;
       && Holds(net, q, id)
       && net.workers[net.nodes[n].conns[id].id].next == PathAt(net, q, id).next
       && net.workers[net.nodes[n].conns[id].id].symKey == PathAt(net, q, id).symKey
  }

  /** All k links from n up are live and lead to a proxy. */
  ghost predicate LiveChain(net: Net, id: Uuid, n: Ip, k: nat)
    decreases k
  {
    if k == 0 then Proxies(net, n, id)
    else LiveLink(net, id, n) && LiveChain(net, id, PathAt(net, n, id).next.ip, k - 1)
  }

  ghost predicate DistinctKeys(net: Net) {
    forall n, m :: n in net.nodes && m in net.nodes && net.nodes[n].publicKey == net.nodes[m].publicKey ==> n == m
  }

  /** The cover workers that serve the chain from n: each with its parent's own key, the key in the cover entry and
      the forwarding profile it captured. */
  ghost function Stations(net: Net, id: Uuid, n: Ip, k: nat): seq<Station>
    requires LiveChain(net, id, n, k)
    decreases k
  {
    if k == 0 then []
    else
      var q := PathAt(net, n, id).next.ip;
      var cover := if n in net.nodes[q].covers then net.nodes[q].covers[n].secretKey else 0;
      [Station(net.nodes[q].publicKey, cover, net.workers[net.nodes[n].conns[id].id], true, true)]
      + Stations(net, id, q, k - 1)
  }

  /** Of the nodes on a live chain exactly the last owns the seal: it alone founded the tree. */
  lemma SealOpensAtProxy(d: Discipline, net: Net, id: Uuid, n: Ip, q: Ip, k: nat)
    requires Reachable(d, net) && DistinctKeys(net) && Holds(net, n, id) && LiveChain(net, id, q, k)
    ensures Holds(net, q, id) && PathAt(net, q, id).proxyPublic == PathAt(net, n, id).proxyPublic
    ensures net.nodes[q].publicKey == PathAt(net, n, id).proxyPublic <==> k == 0
  {
    ProxyKeyIsTheProxys(d, net, n, id);
    ProxyKeyIsTheProxys(d, net, q, id);
  }

  lemma {:induction false} LiveChainIsPassable(d: Discipline, net: Net, id: Uuid, n: Ip, k: nat)
    requires Reachable(d, net) && DistinctKeys(net) && k > 0 && LiveChain(net, id, n, k)
    ensures |Stations(net, id, n, k)| == k
    ensures Passable(PathAt(net, n, id).proxyPublic, PathAt(net, n, id).symKey, Stations(net, id, n, k))
    decreases k
  {
    var q, chain := PathAt(net, n, id).next.ip, Stations(net, id, n, k);
    LinkEndsAgree(d, net, n, id);
    SealOpensAtProxy(d, net, id, n, q, k - 1);
    if k > 1 {
      LiveChainIsPassable(d, net, id, q, k - 1);
      assert chain[1..] == Stations(net, id, q, k - 1);
    }
  }

  /** In a reachable network of nodes with keys of their own, what node n publishes on tree id is stored by its proxy as
      it is, over any number of live links. */
  lemma PublishReachesProxy(d: Discipline, net: Net, id: Uuid, n: Ip, k: nat, data: DataMessage, jobId: JobId)
    requires Reachable(d, net) && DistinctKeys(net) && k > 0 && LiveChain(net, id, n, k)
    requires |net.nodes[n].covers| >= net.nodes[n].config.coversToPublish
    ensures id in net.founder && Proxies(net, net.founder[id], id)
    ensures var (after, outcome) := NodeSteps.Publish(net.nodes[n], data, true, id, jobId, true, true);
            && outcome.Sent? && outcome.via == net.nodes[n].conns[id]
            && Delivers(Journey(outcome.message, Stations(net, id, n, k)), data,
                        net.nodes[net.founder[id]].publicKey, k)
  {
    var p := PathAt(net, n, id);
    ProxyKeyIsTheProxys(d, net, n, id);
    LiveChainIsPassable(d, net, id, n, k);
    PublishedIsDeliveredIff(data, p.proxyPublic, p.symKey, Stations(net, id, n, k));
    PublishOutcomes(net.nodes[n], data, true, id, jobId, true, true);
  }
}
