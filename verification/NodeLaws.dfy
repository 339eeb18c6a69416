/** What the operations of a node promise, told by the fields of the values before and after. Of module NodeSteps only
    the operations themselves are named, not the parts they are made of. */
module NodeLaws {
  import opened Profiles
  import opened KeyExchange
  import opened Envelope
  import opened NodeSteps

  // ---- Queries ----

  /** The last taken offer of a tree is its half-open entry after the loop. An offer is taken if it was sealed for the
      node, its tree is not held (or it comes from the held path's next-next hop), and its next hop is storage or has
      vouched. */
  lemma {:induction false} LastTakenOfferStays(s: NodeState, ip: Ip, offers: seq<Offer>, vouched: seq<bool>, last: nat)
    requires last < |offers| && offers[last].sealedId.to == s.publicKey
    requires offers[last].sealedId.id in s.paths ==> s.paths[offers[last].sealedId.id].next2 == Peer(ip)
    requires offers[last].nextHop == Storage || (last < |vouched| && vouched[last])
    requires forall i: nat :: last < i < |offers| && offers[i].sealedId == offers[last].sealedId ==>
               offers[i].nextHop != Storage && !(i < |vouched| && vouched[i])
    ensures var o := offers[last];
            var after := RecordAll(s, ip, offers, vouched).halfOpen;
            && o.sealedId.id in after
            && after[o.sealedId.id] == Path(o.sealedId.id, Peer(ip), o.nextHop, o.proxyPublic, 0, 0, 0, None)
  {
    var n := |offers| - 1;
    if last < n {
      LastTakenOfferStays(s, ip, offers[..n], vouched, last);
    }
  }

  /** A tree keeps its half-open entry, or its absence, when each of its offers was sealed for somebody else, is of a
      tree held through another next-next hop, or is vouched for by nobody. */
  lemma {:induction false} UntakenTreeIsUntouched(s: NodeState, ip: Ip, offers: seq<Offer>, vouched: seq<bool>,
                                                  id: Uuid)
    requires forall i: nat :: i < |offers| && offers[i].sealedId == SealedId(s.publicKey, id) ==>
               || (id in s.paths && s.paths[id].next2 != Peer(ip))
               || (offers[i].nextHop != Storage && !(i < |vouched| && vouched[i]))
    ensures var after := RecordAll(s, ip, offers, vouched).halfOpen;
            (id in after <==> id in s.halfOpen) && (id in after ==> after[id] == s.halfOpen[id])
  {
    if offers != [] {
      var n := |offers| - 1;
      UntakenTreeIsUntouched(s, ip, offers[..n], vouched, id);
    }
  }

  /** Beside half-open entries a query leaves the peer's key behind, and nothing else. */
  lemma QueriesTeach(s: NodeState, ip: Ip, reply: QueryReply, vouched: seq<bool>)
    ensures var t := LearnFrom(s, ip, reply, vouched);
            && t == s.(halfOpen := t.halfOpen, peerKeys := s.peerKeys[ip := reply.parentPublicKey])
            && t.halfOpen == RecordAll(s, ip, reply.offers, vouched).halfOpen
  {
    RecordingIgnoresKeys(s, s.peerKeys[ip := reply.parentPublicKey], ip, reply.offers, vouched);
  }

  lemma {:induction false} RecordingIgnoresKeys(s: NodeState, keys: map<Ip, PublicKey>, ip: Ip, offers: seq<Offer>,
                                                vouched: seq<bool>)
    ensures RecordAll(s.(peerKeys := keys), ip, offers, vouched)
         == RecordAll(s, ip, offers, vouched).(peerKeys := keys)
  {
    if offers != [] {
      RecordingIgnoresKeys(s, keys, ip, offers[..|offers| - 1], vouched);
    }
  }

  // ---- Connects ----

  /** `heard` is the node when the answer to its request comes: unchanged if the peer's key and an entry of the tree
      were cached, and otherwise as a query left it. The connect comes through if and only if the query did, if one was
      needed, the peer accepts and an entry of the tree is there; it then becomes the path. */
  lemma ConnectOutcome(s: NodeState, ip: Ip, id: Uuid, d: Dialogue)
    ensures var cached := ip in s.peerKeys && id in s.halfOpen;
            var asked := cached || d.query.Some?;
            var heard := if cached || !asked then s else LearnFrom(s, ip, d.query.value, d.vouched);
            var (t, outcome) := ConnectPath(s, ip, id, d);
            && (outcome == Connected <==> asked && d.reply.Some? && d.reply.value.accepted && id in heard.halfOpen)
            && (outcome == Denied <==> asked && d.reply.Some? && !d.reply.value.accepted)
            && if outcome != Connected then t == heard
               else
                 var e, key := heard.halfOpen[id], GetSymKey(d.reply.value.exchange, d.secret);
                 var dialled := Connection(ip, d.conn);
                 t == heard.(
                   halfOpen := heard.halfOpen - {id},
                   paths := heard.paths[id := Path(e.uuid, e.next, e.next2, e.proxyPublic, key, 0, 0, Some(dialled))],
                   conns := heard.conns[id := dialled])
  {
  }

  /** A parent that holds a tree and a child that does not, with neither entry nor key cached: when the child asks and
      the parent admits it, the child's path leads to the parent, on to the parent's next hop, carries the proxy's key
      as the parent has it, and both ends hold one key. `at` is the place of the tree in the parent's answer. */
  lemma JoinsUnder(s: NodeState, parent: NodeState, me: Ip, ip: Ip, id: Uuid, offers: seq<Offer>, vouched: seq<bool>,
                   at: nat, g: nat, m: nat, mine: Secret, its: Secret, conn: ConnId)
    requires id !in s.paths && !(ip in s.peerKeys && id in s.halfOpen)
    requires Lists(offers, parent.paths, s.publicKey) && forall k :: k in parent.paths ==> parent.paths[k].uuid == k
    requires at < |offers| && offers[at].sealedId.id == id
    requires offers[at].nextHop == Storage || (at < |vouched| && vouched[at])
    requires id in parent.paths && me !in parent.covers && |parent.covers| < parent.config.maxCovers
    ensures LearnFrom(s, ip, QueryReply(parent.publicKey, offers), vouched).peerKeys
         == s.peerKeys[ip := parent.publicKey]
    ensures var query, request := QueryReply(parent.publicKey, offers), NewKeyExchange(g, m, mine);
            var (after, reply) := HandleConnectPath(parent, me, SealedId(parent.publicKey, id), request, its, conn);
            var (t, outcome) := ConnectPath(s, ip, id, Dialogue(Some(query), vouched, reply, mine, conn));
            && outcome == Connected && id in t.paths && me in after.covers
            && t.paths[id].next == Peer(ip) && t.paths[id].next2 == parent.paths[id].next
            && t.paths[id].proxyPublic == parent.paths[id].proxyPublic
            && t.paths[id].symKey == after.covers[me].secretKey && after.covers[me].tree == id
  {
    var query := QueryReply(parent.publicKey, offers);
    OfferIsLearned(s, parent, ip, id, offers, vouched, at);
    var request := NewKeyExchange(g, m, mine);
    ConnectHandled(parent, me, SealedId(parent.publicKey, id), request, its, conn);
    var reply := HandleConnectPath(parent, me, SealedId(parent.publicKey, id), request, its, conn).1;
    ConnectOutcome(s, ip, id, Dialogue(Some(query), vouched, reply, mine, conn));
    Agreement(g, m, mine, its);
  }

  lemma OfferIsLearned(s: NodeState, parent: NodeState, ip: Ip, id: Uuid, offers: seq<Offer>, vouched: seq<bool>,
                       at: nat)
    requires id !in s.paths && id in parent.paths
    requires Lists(offers, parent.paths, s.publicKey) && forall k :: k in parent.paths ==> parent.paths[k].uuid == k
    requires at < |offers| && offers[at].sealedId.id == id
    requires offers[at].nextHop == Storage || (at < |vouched| && vouched[at])
    ensures var t, p := LearnFrom(s, ip, QueryReply(parent.publicKey, offers), vouched), parent.paths[id];
            && t.peerKeys == s.peerKeys[ip := parent.publicKey] && id in t.halfOpen
            && t.halfOpen[id] == Path(id, Peer(ip), p.next, p.proxyPublic, 0, 0, 0, None)
  {
    QueriesTeach(s, ip, QueryReply(parent.publicKey, offers), vouched);
    OfferedOnce(offers, parent.paths, s.publicKey, id, at);
    LastTakenOfferStays(s, ip, offers, vouched, at);
  }

  lemma OfferedOnce(offers: seq<Offer>, paths: map<Uuid, Path>, me: PublicKey, id: Uuid, at: nat)
    requires Lists(offers, paths, me) && forall k :: k in paths ==> paths[k].uuid == k
    requires at < |offers| && offers[at].sealedId.id == id && id in paths
    ensures offers[at] == Offer(SealedId(me, id), paths[id].next, paths[id].next2, paths[id].proxyPublic)
    ensures forall i :: 0 <= i < |offers| && i != at ==> offers[i].sealedId.id != id
  {
    var order :| ListsInOrder(offers, order, paths, me);
    assert order[at] == id;
    forall i | 0 <= i < |offers| && i != at ensures offers[i].sealedId.id != id {
      assert order[i] != order[at];
    }
  }

  /** A proxy's answer is taken if and only if it accepts and the tree id opens; the path then leads to the proxy. */
  lemma CreateProxyOutcome(s: NodeState, ip: Ip, reply: Option<ProxyReply>, secret: Secret, conn: ConnId)
    ensures var (t, outcome) := CreateProxy(s, ip, reply, secret, conn);
            && (outcome == Denied <==> reply.Some? && !reply.value.accepted)
            && (outcome == Connected <==>
                  reply.Some? && reply.value.accepted && reply.value.sealedId.to == s.publicKey)
            && if outcome != Connected then t == s
               else
                 var id, dialled := reply.value.sealedId.id, Connection(ip, conn);
                 var key := GetSymKey(reply.value.exchange, secret);
                 t == s.(
                   paths := s.paths[id := Path(id, Peer(ip), Storage, reply.value.proxyPublic, key, 0, 0,
                                               Some(dialled))],
                   conns := s.conns[id := dialled])
  {
  }

  // ---- Handlers ----

  /** A request that does not open is not answered. Of the others exactly those of a newcomer to a node with room that
      holds the tree are accepted; the newcomer becomes a cover under the key that both ends compute. */
  lemma ConnectHandled(s: NodeState, cover: Ip, sealedId: SealedId, exchange: DHKeyExchange, secret: Secret,
                       worker: ConnId)
    ensures var (t, reply) := HandleConnectPath(s, cover, sealedId, exchange, secret, worker);
            && (reply.None? <==> sealedId.to != s.publicKey)
            && (reply.Some? && reply.value.accepted <==>
                  sealedId.to == s.publicKey && cover !in s.covers && |s.covers| < s.config.maxCovers
                  && sealedId.id in s.paths)
            && if reply.Some? && reply.value.accepted then
                 && reply.value.exchange == GenerateReturn(exchange, secret)
                 && t == s.(covers := s.covers[cover := CoverNode(cover, GetSymKey(exchange, secret), sealedId.id,
                                                                  worker)])
               else t == s
  {
  }

  /** Exactly a newcomer to a node with room that has no path to storage is accepted; the node then founds the fresh
      tree, admits the newcomer to it, and answers with its own key and the tree id sealed for the newcomer. */
  lemma CreateProxyHandled(s: NodeState, cover: Ip, requester: PublicKey, exchange: DHKeyExchange, secret: Secret,
                           freshId: Uuid, worker: ConnId)
    ensures var (t, reply) := HandleCreateProxy(s, cover, requester, exchange, secret, freshId, worker);
            && (reply.accepted <==>
                  cover !in s.covers && |s.covers| < s.config.maxCovers
                  && forall id :: id in s.paths ==> s.paths[id].next != Storage)
            && if reply.accepted then
                 var key := GetSymKey(exchange, secret);
                 && reply.exchange == GenerateReturn(exchange, secret)
                 && reply.proxyPublic == s.publicKey && reply.sealedId == SealedId(requester, freshId)
                 && t == s.(
                      paths := s.paths[freshId := Path(freshId, Storage, Nowhere, s.publicKey, key, 0, 0, None)],
                      covers := s.covers[cover := CoverNode(cover, key, freshId, worker)])
               else t == s
  {
  }

  ghost predicate OneProxyAtMost(s: NodeState) {
    forall id, k :: id in s.paths && k in s.paths && s.paths[id].next == s.paths[k].next == Storage ==> id == k
  }

  /** So a whole HandleCreateProxy does not make a node the proxy of a second tree. */
  lemma NoSecondProxy(s: NodeState, cover: Ip, requester: PublicKey, exchange: DHKeyExchange, secret: Secret,
                      freshId: Uuid, worker: ConnId)
    requires OneProxyAtMost(s)
    ensures OneProxyAtMost(HandleCreateProxy(s, cover, requester, exchange, secret, freshId, worker).0)
  {
    CreateProxyHandled(s, cover, requester, exchange, secret, freshId, worker);
  }

  /** A request to become a proxy adds one path, to storage, with the node's own key and no worker. */
  lemma BecomesProxy(s: NodeState, id: Uuid)
    ensures BecomeProxy(s, id) == s.(paths := s.paths[id := Path(id, Storage, Nowhere, s.publicKey, 0, 0, 0, None)])
  {
  }

  // ---- Clean-up and path health ----

  /** A leaving worker takes its tree's path along if and only if that leads where the worker was dialled to, and a
      leaving cover only its own entry. */
  lemma ExitsTake(s: NodeState, id: Uuid, ip: Ip)
    ensures SenderExit(s, id, ip)
         == if id in s.paths && s.paths[id].next == Peer(ip) then s.(paths := s.paths - {id}) else s
    ensures CoverExit(s, ip) == s.(covers := s.covers - {ip})
  {
  }

  /** The first of the offers that is of the tree and sealed for the node. */
  predicate IsFirst(offers: seq<Offer>, sealedId: SealedId, at: nat) {
    at < |offers| && offers[at].sealedId == sealedId && forall i :: 0 <= i < at ==> offers[i].sealedId != sealedId
  }

  lemma {:induction false} FoundIsFirst(offers: seq<Offer>, me: PublicKey, id: Uuid, at: nat)
    requires IsFirst(offers, SealedId(me, id), at)
    ensures FindOffer(offers, me, id) == Some(offers[at])
  {
    if at > 0 {
      FoundIsFirst(offers[1..], me, id, at - 1);
    }
  }

  /** The next hop's answer offers the tree, first at the given place. */
  predicate Answers(s: NodeState, id: Uuid, answers: map<Ip, QueryReply>, at: nat) {
    && id in s.paths && s.paths[id].next.Peer? && s.paths[id].next.ip in answers
    && IsFirst(answers[s.paths[id].next.ip].offers, SealedId(s.publicKey, id), at)
  }

  /** A path whose next hop answers with its tree stays, takes the next-next hop and the proxy's key from the first such
      offer and changes in nothing else. */
  lemma AnsweredPathFollows(s: NodeState, id: Uuid, answers: map<Ip, QueryReply>, live: set<ConnId>, at: nat)
    requires Answers(s, id, answers, at)
    ensures var p, o := s.paths[id], answers[s.paths[id].next.ip].offers[at];
            var after := HealthPass(s, answers, live).paths;
            id in after && after[id] == Path(p.uuid, p.next, o.nextHop, o.proxyPublic, p.symKey, p.successCount,
                                             p.failureCount, p.cancel)
  {
    FoundIsFirst(answers[s.paths[id].next.ip].offers, s.publicKey, id, at);
  }

  /** Any other path stays as it is, unless it leads to a peer on the connection of a live worker dialled there: then it
      goes. Paths to storage stay. */
  lemma UnansweredPathGoes(s: NodeState, id: Uuid, answers: map<Ip, QueryReply>, live: set<ConnId>)
    requires id in s.paths && forall at: nat :: !Answers(s, id, answers, at)
    ensures var p, after := s.paths[id], HealthPass(s, answers, live).paths;
            && (id in after <==>
                  !(p.next.Peer? && p.cancel.Some? && p.cancel.value.ip == p.next.ip && p.cancel.value.id in live))
            && (id in after ==> after[id] == p)
  {
    var p := s.paths[id];
    if p.next.Peer? && p.next.ip in answers {
      var offers := answers[p.next.ip].offers;
      FindOfferFirst(offers, s.publicKey, id);
      if FindOffer(offers, s.publicKey, id).Some? {
        var at := FirstOf(offers, SealedId(s.publicKey, id));
        assert Answers(s, id, answers, at);
      }
    }
  }

  lemma {:induction false} FirstOf(offers: seq<Offer>, sealedId: SealedId) returns (at: nat)
    requires exists o :: o in offers && o.sealedId == sealedId
    ensures IsFirst(offers, sealedId, at)
  {
    at := 0;
    if offers[0].sealedId != sealedId {
      var later := FirstOf(offers[1..], sealedId);
      at := later + 1;
    }
  }

  /** A health pass touches nothing but paths and adds none. */
  lemma HealthPassIsNarrow(s: NodeState, answers: map<Ip, QueryReply>, live: set<ConnId>)
    ensures var t := HealthPass(s, answers, live);
            t == s.(paths := t.paths) && t.paths.Keys <= s.paths.Keys
  {
  }

  // ---- MoveUp ----

  /** MoveUp stops when there is no next-next hop or that does not answer, succeeds if and only if it is confirmed and
      the connect comes through, and otherwise founds a tree of its own. */
  lemma MoveUpOutcome(s: NodeState, was: Path, confirmed: Option<bool>, d: Dialogue, freshId: Uuid, live: set<ConnId>)
    ensures var (t, outcome) := MoveUp(s, was, confirmed, d, freshId, live);
            && (outcome == Stopped <==> !was.next2.Peer? || confirmed.None?)
            && (outcome == Moved <==>
                  was.next2.Peer? && confirmed == Some(true)
                  && ConnectPath(s, was.next2.ip, was.uuid, d).1 == Connected)
            && (outcome == Stopped ==> t == s)
            && (outcome == Moved ==> t == ConnectPath(s, was.next2.ip, was.uuid, d).0)
            && (outcome == Proxied ==>
                  var tried := if confirmed == Some(true) then ConnectPath(s, was.next2.ip, was.uuid, d).0 else s;
                  && t == tried.(paths := t.paths, covers := t.covers)
                  && t.paths == s.paths[freshId := Path(freshId, Storage, Nowhere, s.publicKey, 0, 0, 0, None)])
  {
    if was.next2.Peer? {
      ConnectOutcome(s, was.next2.ip, was.uuid, d);
    }
  }

  lemma ConnectKeepsCovers(s: NodeState, ip: Ip, id: Uuid, d: Dialogue)
    ensures ConnectPath(s, ip, id, d).0.covers == s.covers
  {
    ConnectOutcome(s, ip, id, d);
  }

  /** In the last resort, and only there, the covers of the tree whose worker lives leave; all others stay. */
  lemma MoveUpCovers(s: NodeState, was: Path, confirmed: Option<bool>, d: Dialogue, freshId: Uuid, live: set<ConnId>,
                     ip: Ip)
    ensures var (t, outcome) := MoveUp(s, was, confirmed, d, freshId, live);
            && (ip in t.covers <==>
                  ip in s.covers
                  && !(outcome == Proxied && s.covers[ip].tree == was.uuid && s.covers[ip].worker in live))
            && (ip in t.covers ==> t.covers[ip] == s.covers[ip])
  {
    if was.next2.Peer? {
      ConnectKeepsCovers(s, was.next2.ip, was.uuid, d);
    }
  }

  // ---- Publishing ----

  /** The conditions are examined in this order; only the last two outcomes change anything, and they record the job,
      pending, on the path it was published on. */
  lemma PublishOutcomes(s: NodeState, data: DataMessage, valid: bool, id: Uuid, jobId: JobId, storeOk: bool,
                        sendOk: bool)
    ensures var (t, outcome) := Publish(s, data, valid, id, jobId, storeOk, sendOk);
            var ready := |s.covers| >= s.config.coversToPublish && s.paths != map[];
            && (outcome == NotReady <==> !ready)
            && (outcome == InvalidKey <==> ready && !valid)
            && (outcome == NoSuchPath <==> ready && valid && id !in s.paths)
            && (ready && valid && id in s.paths ==>
                  var p := s.paths[id];
                  if p.next == Storage then outcome == if storeOk then Kept else NotStored
                  else if !UsableKey(p.symKey) then outcome == NotSealed
                  else if id !in s.conns || !sendOk then outcome == NotSent
                  else outcome == Sent(s.conns[id],
                                       AppMessage(p.symKey, Some(SymInput(Real, Sealed(p.proxyPublic, Some(data)))))))
            && t == if outcome.Kept? || outcome.Sent?
                    then s.(jobs := s.jobs[jobId := Job(data.key, PENDING, s.paths[id].uuid)]) else s
  {
    assert |s.paths| == 0 <==> s.paths == map[];
  }

  /** A job that ends is stored as it ended and counts one success or one failure on its path, if that is held. */
  lemma JobIsCounted(s: NodeState, jobId: JobId, job: Job)
    ensures var t, id := MarkJob(s, jobId, job), job.onPath;
            && t == s.(jobs := s.jobs[jobId := job], paths := t.paths)
            && t.paths.Keys == s.paths.Keys
            && (forall k :: k in s.paths && k != id ==> t.paths[k] == s.paths[k])
            && (id in s.paths ==>
                  var p := s.paths[id];
                  t.paths[id] == p.(successCount := p.successCount + if job.status == SUCCESS then 1 else 0,
                                    failureCount := p.failureCount + if job.status == SUCCESS then 0 else 1))
  {
  }

  /** What a cover worker does with a message: it stores exactly the readable data sealed for its node when it forwards
      to storage, passes every other payload on under the key of its forwarding profile, and drops cover messages. */
  lemma MessageIsHandled(message: AppMessage, at: Station)
    ensures var outcome := HandleApplicationMessage(message, at);
            var opens := UsableKey(at.secretKey) && message.key == at.secretKey && message.body.Some?;
            && (outcome == Discarded <==> opens && message.body.value.kind == Cover)
            && (forall data :: outcome == Stored(data) <==>
                  opens && message.body.value == SymInput(Real, Sealed(at.publicKey, Some(data)))
                  && at.forwardPath.next == Storage && at.storeOk)
            && (forall m :: outcome == Forwarded(m) <==>
                  opens && message.body.value.kind == Real && message.body.value.payload.Sealed?
                  && message.body.value.payload.to != at.publicKey
                  && UsableKey(at.forwardPath.symKey) && at.sendOk
                  && m == AppMessage(at.forwardPath.symKey, message.body))
  {
  }
}
