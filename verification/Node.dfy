/** The node object: its maps as fields, its handlers and workers as methods that change them in place,
    each proved to carry out the step of module NodeSteps on the state of the node. Every map access of
    the original takes that map's lock, so a method is one interleaving of such accesses; the machines of
    the other modules cut the longer ones into their separately locked parts. */
module NodeObject {
  import opened Profiles
  import opened KeyExchange
  import opened Envelope
  import opened NodeSteps

  datatype InvalidPath = InvalidPath(selfProfile: Path, verdict: Verdict)

  /** One order in which an iteration over a map may visit its keys. */
  predicate Visits(order: seq<Uuid>, keys: set<Uuid>) {
    (forall i, j :: 0 <= i < j < |order| ==> order[i] != order[j]) && (set id | id in order) == keys
  }

  /** The entry an iteration in this order reaches after `i` further turns. */
  method Pick<V>(m: map<Uuid, V>, order: seq<Uuid>, i: nat) returns (key: Uuid, value: V)
    requires Visits(order, m.Keys) && i < |order|
    ensures key == order[i] && key in m && value == m[key]
  {
    var left: nat := i;
    for k := 0 to |order|
      invariant k + left == i
    {
      if left == 0 {
        assert order[k] in (set id | id in order);
        return order[k], m[order[k]];
      }
      left := left - 1;
    }
    assert false;
  }

  /** A report on a held path, with the verdict its next hop's answer calls for. */
  ghost predicate IsReport(s: NodeState, answers: map<Ip, QueryReply>, report: InvalidPath) {
    var p := report.selfProfile;
    p.uuid in s.paths && p == s.paths[p.uuid] && report.verdict == Judge(s, p.uuid, answers) != Valid
  }

  class Node {
    const config: Config
    const publicKey: PublicKey
    var paths: map<Uuid, Path>
    var halfOpenPath: map<Uuid, Path>
    var covers: map<Ip, CoverNode>
    var openConnections: map<Uuid, Connection>
    var publishJobs: map<JobId, Job>
    var peerPublicKeys: map<Ip, PublicKey>

    constructor (config: Config, publicKey: PublicKey)
      ensures State() == FreshNode(config, publicKey)
    {
      this.config, this.publicKey := config, publicKey;
      paths, halfOpenPath, covers := map[], map[], map[];
      openConnections, publishJobs, peerPublicKeys := map[], map[], map[];
    }

    ghost function State(): NodeState
      reads this
    {
      NodeState(config, publicKey, paths, halfOpenPath, covers, openConnections, publishJobs, peerPublicKeys)
    }

    /** An unreachable peer is excluded: the closing log line dereferences the missing response. */
    method QueryPath(ip: Ip, reply: QueryReply, vouched: seq<bool>) returns (verified: seq<Path>)
      modifies this
      ensures State() == LearnFrom(old(State()), ip, reply, vouched)
      ensures verified == VerifiedPaths(old(State()), ip, reply.offers, vouched)
    {
      peerPublicKeys := peerPublicKeys[ip := reply.parentPublicKey];
      ghost var start := State();
      verified := [];
      var offers := reply.offers;
      for i := 0 to |offers|
        invariant State() == RecordAll(start, ip, offers[..i], vouched)
        invariant verified == VerifiedPaths(start, ip, offers[..i], vouched)
      {
        assert offers[..i + 1][..i] == offers[..i];
        var o := offers[i];
        if o.sealedId.to != publicKey {
          continue;
        }
        var id := o.sealedId.id;
        if id in paths && paths[id].next2 != Peer(ip) {
          continue;
        }
        var isVerified := o.nextHop == Storage;
        if !isVerified {
          isVerified := i < |vouched| && vouched[i];
        }
        if isVerified {
          verified := verified + [Entry(ip, o)];
          halfOpenPath := halfOpenPath[id := Entry(ip, o)];
        }
      }
      assert offers[..|offers|] == offers;
      VerifiedIgnoresPeerKeys(old(State()), start, ip, offers, vouched);
    }

    /** sendConnectPathRequest up to the point where the request leaves; a query is made only when it has to be. */
    method PrepareConnect(ip: Ip, id: Uuid, d: Dialogue)
      requires Cached(State(), ip, id) || d.query.Some?
      modifies this
      ensures Prepare(old(State()), ip, id, d) == Some(State())
    {
      if ip !in peerPublicKeys || id !in halfOpenPath {
        var _ := QueryPath(ip, d.query.value, d.vouched);
      }
    }

    method ConnectPath(ip: Ip, id: Uuid, d: Dialogue) returns (outcome: ConnectOutcome)
      requires Cached(State(), ip, id) || d.query.Some?
      modifies this
      ensures (State(), outcome) == NodeSteps.ConnectPath(old(State()), ip, id, d)
    {
      PrepareConnect(ip, id, d);
      if d.reply.None? {
        return ConnectError;
      }
      if !d.reply.value.accepted {
        return Denied;
      }
      if id !in halfOpenPath {
        return ConnectError;
      }
      var e := halfOpenPath[id];
      halfOpenPath := halfOpenPath - {id};
      paths := paths[id := Path(e.uuid, e.next, e.next2, e.proxyPublic,
                                GetSymKey(d.reply.value.exchange, d.secret), 0, 0, Some(Connection(ip, d.conn)))];
      openConnections := openConnections[id := Connection(ip, d.conn)];
      return Connected;
    }

    method CreateProxy(ip: Ip, reply: Option<ProxyReply>, secret: Secret, conn: ConnId)
      returns (outcome: ConnectOutcome)
      modifies this
      ensures (State(), outcome) == NodeSteps.CreateProxy(old(State()), ip, reply, secret, conn)
    {
      if reply.None? {
        return ConnectError;
      }
      if !reply.value.accepted {
        return Denied;
      }
      if reply.value.sealedId.to != publicKey {
        return ConnectError;
      }
      var id := reply.value.sealedId.id;
      paths := paths[id := Path(id, Peer(ip), Storage, reply.value.proxyPublic,
                                GetSymKey(reply.value.exchange, secret), 0, 0, Some(Connection(ip, conn)))];
      openConnections := openConnections[id := Connection(ip, conn)];
      return Connected;
    }

    method BecomeProxy(freshId: Uuid)
      modifies this
      ensures State() == NodeSteps.BecomeProxy(old(State()), freshId)
    {
      paths := paths[freshId := Path(freshId, Storage, Nowhere, publicKey, 0, 0, 0, None)];
    }

    method HandleQueryPath(requester: PublicKey) returns (reply: QueryReply)
      ensures reply.parentPublicKey == publicKey && Lists(reply.offers, paths, requester)
    {
      var offers, rest := [], paths.Keys;
      ghost var order := [];
      while rest != {}
        invariant rest <= paths.Keys && |offers| == |order|
        invariant forall id :: id in order <==> id in paths.Keys - rest
        invariant forall i, j :: 0 <= i < j < |order| ==> order[i] != order[j]
        invariant forall i :: 0 <= i < |order| ==> order[i] in paths && offers[i] == OfferOf(paths[order[i]], requester)
      {
        var id :| id in rest;
        assert id !in order;
        rest := rest - {id};
        offers := offers + [OfferOf(paths[id], requester)];
        order := order + [id];
      }
      assert ListsInOrder(offers, order, paths, requester);
      return QueryReply(publicKey, offers);
    }

    method HandleVerifyCover(ip: Ip) returns (isVerified: bool)
      ensures isVerified <==> ip in State().covers
    {
      isVerified := ip in covers;
    }

    method HandleConnectPath(coverIp: Ip, sealedId: SealedId, exchange: DHKeyExchange, secret: Secret, worker: ConnId)
      returns (reply: Option<ConnectReply>)
      modifies this
      ensures (State(), reply) == NodeSteps.HandleConnectPath(old(State()), coverIp, sealedId, exchange, secret, worker)
    {
      if sealedId.to != publicKey {
        return None;
      }
      var id := sealedId.id;
      var alreadyMyCover := coverIp in covers;
      var tooManyCovers := |covers| >= config.maxCovers;
      if alreadyMyCover || tooManyCovers || id !in paths {
        return Some(ConnectReply(false, REFUSED_EXCHANGE));
      }
      covers := covers[coverIp := CoverNode(coverIp, GetSymKey(exchange, secret), id, worker)];
      return Some(ConnectReply(true, GenerateReturn(exchange, secret)));
    }

    method HandleCreateProxy(coverIp: Ip, requester: PublicKey, exchange: DHKeyExchange, secret: Secret,
                             freshId: Uuid, worker: ConnId) returns (reply: ProxyReply)
      modifies this
      ensures (State(), reply)
           == NodeSteps.HandleCreateProxy(old(State()), coverIp, requester, exchange, secret, freshId, worker)
    {
      var isProxyAlready, rest := false, paths.Keys;
      while rest != {}
        invariant rest <= paths.Keys
        invariant isProxyAlready <==> exists id :: id in paths.Keys - rest && paths[id].next == Storage
      {
        var id :| id in rest;
        rest := rest - {id};
        if paths[id].next == Storage {
          isProxyAlready := true;
        }
      }
      if coverIp in covers || |covers| >= config.maxCovers || isProxyAlready {
        return ProxyReply(false, REFUSED_EXCHANGE, 0, SealedId(0, 0));
      }
      var key := GetSymKey(exchange, secret);
      paths := paths[freshId := Path(freshId, Storage, Nowhere, publicKey, key, 0, 0, None)];
      covers := covers[coverIp := CoverNode(coverIp, key, freshId, worker)];
      return ProxyReply(true, GenerateReturn(exchange, secret), publicKey, SealedId(requester, freshId));
    }

    /** The deferred clean-up of sendCoverMessageWorker, its read and its delete taken together. */
    method SendCoverMessageWorkerExit(id: Uuid, target: Ip)
      modifies this
      ensures State() == SenderExit(old(State()), id, target)
    {
      if id in paths && paths[id].next == Peer(target) {
        paths := paths - {id};
      }
    }

    method HandleApplicationMessageWorkerExit(coverIp: Ip)
      modifies this
      ensures State() == CoverExit(old(State()), coverIp)
    {
      covers := covers - {coverIp};
    }

    /** The verdict on one path, found by running through its next hop's offers; `answers` holds the query replies of
        the next hops that could be reached. */
    method JudgePath(id: Uuid, answers: map<Ip, QueryReply>) returns (verdict: Verdict)
      requires id in paths
      ensures verdict == Judge(State(), id, answers)
    {
      var p := paths[id];
      if p.next == Storage {
        return Valid;
      }
      if !p.next.Peer? || p.next.ip !in answers {
        return Clean;
      }
      var offers := answers[p.next.ip].offers;
      for i := 0 to |offers|
        invariant FindOffer(offers, publicKey, id) == FindOffer(offers[i..], publicKey, id)
      {
        if offers[i].sealedId == SealedId(publicKey, id) {
          if p.next2 != offers[i].nextHop || p.proxyPublic != offers[i].proxyPublic {
            return Fix(offers[i]);
          }
          return Valid;
        }
      }
      return Clean;
    }

    method InvalidPathProfiles(answers: map<Ip, QueryReply>) returns (results: seq<InvalidPath>)
      requires forall id :: id in paths ==> paths[id].uuid == id
      ensures forall k :: 0 <= k < |results| ==> IsReport(State(), answers, results[k])
      ensures forall id :: id in paths && Judge(State(), id, answers) != Valid ==>
                exists k :: 0 <= k < |results| && results[k].selfProfile.uuid == id
      ensures forall j, k :: 0 <= j < k < |results| ==> results[j].selfProfile.uuid != results[k].selfProfile.uuid
    {
      results := [];
      var rest := paths.Keys;
      while rest != {}
        invariant rest <= paths.Keys
        invariant forall k :: 0 <= k < |results| ==>
                    IsReport(State(), answers, results[k]) && results[k].selfProfile.uuid !in rest
        invariant forall id :: id in paths.Keys - rest && Judge(State(), id, answers) != Valid ==>
                    exists k :: 0 <= k < |results| && results[k].selfProfile.uuid == id
        invariant forall j, k :: 0 <= j < k < |results| ==> results[j].selfProfile.uuid != results[k].selfProfile.uuid
      {
        var id :| id in rest;
        ghost var before := results;
        var verdict := JudgePath(id, answers);
        if verdict != Valid {
          results := results + [InvalidPath(paths[id], verdict)];
          assert results[|before|].selfProfile.uuid == id;
        }
        rest := rest - {id};
        assert forall k :: 0 <= k < |before| ==> results[k] == before[k];
      }
    }

    /** CLEAN calls the path's cancelFunc, which must not be nil; the exit of its worker, if that is one of the
        `live` ones, is carried out here. */
    method ApplyReport(report: InvalidPath, live: set<ConnId>)
      requires report.verdict != Valid
      requires report.verdict == Clean ==> report.selfProfile.cancel.Some?
      modifies this
      ensures State() == AppliedReport(old(State()), report, live)
    {
      var p := report.selfProfile;
      if report.verdict.Fix? {
        var o := report.verdict.offer;
        paths := paths[p.uuid := p.(next2 := o.nextHop, proxyPublic := o.proxyPublic)];
      } else {
        var worker := p.cancel.value;
        if worker.id in live {
          SendCoverMessageWorkerExit(p.uuid, worker.ip);
        }
      }
    }

    /** The second half of maintainPathsHealthWorker's loop body, with `live` the sending workers that run. */
    method MaintainPathsHealth(answers: map<Ip, QueryReply>, live: set<ConnId>)
      requires forall id :: id in paths ==> paths[id].uuid == id
      requires forall id :: id in paths && paths[id].next != Storage ==> paths[id].cancel.Some?
      modifies this
      ensures State() == HealthPass(old(State()), answers, live)
    {
      ghost var start := State();
      var reports := InvalidPathProfiles(answers);
      ghost var done: set<Uuid> := {};
      for i := 0 to |reports|
        invariant State() == HealedSoFar(start, HealthPass(start, answers, live).paths, done)
        invariant done == set k | 0 <= k < i :: reports[k].selfProfile.uuid
      {
        HealOneMore(start, answers, live, done, reports[i]);
        ApplyReport(reports[i], live);
        done := done + {reports[i].selfProfile.uuid};
      }
      HealedAll(start, answers, live, done);
    }

    method BlacklistPaths() returns (results: seq<Path>)
      requires forall id :: id in paths ==> paths[id].uuid == id
      ensures forall p :: p in results <==> p.uuid in Blacklist(State()) && p == paths[p.uuid]
      ensures forall j, k :: 0 <= j < k < |results| ==> results[j] != results[k]
    {
      results := [];
      var rest := paths.Keys;
      while rest != {}
        invariant rest <= paths.Keys
        invariant forall p :: p in results <==> p.uuid in Blacklist(State()) - rest && p == paths[p.uuid]
        invariant forall j, k :: 0 <= j < k < |results| ==> results[j] != results[k]
      {
        var id :| id in rest;
        rest := rest - {id};
        if paths[id].failureCount >= config.failureThreshold {
          results := results + [paths[id]];
        }
      }
    }

    /** The covers of a tree are cancelled; those with a live worker leave, whose exit is carried out here. */
    method CancelCovers(tree: Uuid, live: set<ConnId>)
      modifies this`covers
      ensures State() == NodeSteps.CancelCovers(old(State()), tree, live)
    {
      ghost var before := covers;
      var rest := covers.Keys;
      while rest != {}
        invariant rest <= before.Keys
        invariant covers == map ip | ip in before
                  && (ip in rest || !(before[ip].tree == tree && before[ip].worker in live))
                                   :: before[ip]
      {
        var ip :| ip in rest;
        rest := rest - {ip};
        if covers[ip].tree == tree && covers[ip].worker in live {
          covers := covers - {ip};
        }
      }
      assert covers == map ip | ip in before && !(before[ip].tree == tree && before[ip].worker in live) :: before[ip];
    }

    method MoveUp(was: Path, confirmed: Option<bool>, d: Dialogue, freshId: Uuid, live: set<ConnId>)
      returns (outcome: MoveOutcome)
      requires was.next2.Peer? && confirmed == Some(true) ==> Cached(State(), was.next2.ip, was.uuid) || d.query.Some?
      modifies this
      ensures (State(), outcome) == NodeSteps.MoveUp(old(State()), was, confirmed, d, freshId, live)
    {
      if !was.next2.Peer? || confirmed.None? {
        return Stopped;
      }
      if confirmed.value {
        var connect := ConnectPath(was.next2.ip, was.uuid, d);
        if connect == Connected {
          return Moved;
        }
      }
      CancelCovers(was.uuid, live);
      BecomeProxy(freshId);
      return Proxied;
    }

    method MarkPublishJobStatus(jobId: JobId, job: Job)
      modifies this
      ensures State() == MarkJob(old(State()), jobId, job)
    {
      publishJobs := publishJobs[jobId := job];
      if job.onPath in paths {
        var path := paths[job.onPath];
        if job.status == SUCCESS {
          path := path.(successCount := path.successCount + 1);
        } else {
          path := path.(failureCount := path.failureCount + 1);
        }
        paths := paths[job.onPath := path];
      }
    }

    /** `target` is None for uuid.Nil: any path, the one an iteration in `order` comes to after `turn` turns. */
    method Publish(data: DataMessage, valid: bool, target: Option<Uuid>, order: seq<Uuid>, turn: nat, jobId: JobId,
                   storeOk: bool, sendOk: bool) returns (outcome: PublishOutcome)
      requires Visits(order, paths.Keys) && (turn < |order| || order == [])
      modifies this
      ensures var id := if target.Some? then target.value else if turn < |order| then order[turn] else 0;
              (State(), outcome) == NodeSteps.Publish(old(State()), data, valid, id, jobId, storeOk, sendOk)
    {
      if |covers| < config.coversToPublish || |paths| == 0 {
        return NotReady;
      }
      if !valid {
        return InvalidKey;
      }
      var pathId, profile;
      if target.None? {
        pathId, profile := Pick(paths, order, turn);
      } else if target.value in paths {
        pathId, profile := target.value, paths[target.value];
      } else {
        return NoSuchPath;
      }
      if profile.next == Storage {
        if !storeOk {
          return NotStored;
        }
        outcome := Kept;
      } else {
        var message := NewRealMessage(data, profile.proxyPublic, profile.symKey);
        if message.None? {
          return NotSealed;
        }
        if pathId !in openConnections || !sendOk {
          return NotSent;
        }
        outcome := Sent(openConnections[pathId], message.value);
      }
      publishJobs := publishJobs[jobId := Job(data.key, PENDING, profile.uuid)];
    }
  }

  ghost function AppliedReport(s: NodeState, report: InvalidPath, live: set<ConnId>): NodeState {
    if report.verdict.Fix? then Repair(s, report.selfProfile, report.verdict.offer)
    else Cancel(s, report.selfProfile, live)
  }

  /** The state after a health pass has dealt with the ids in `done`; `healed` is what it comes to in the end. */
  ghost function HealedSoFar(s: NodeState, healed: map<Uuid, Path>, done: set<Uuid>): NodeState {
    s.(paths := map id | id in s.paths && (id in done ==> id in healed)
                       :: if id in done then healed[id] else s.paths[id])
  }

  lemma HealOneMore(s: NodeState, answers: map<Ip, QueryReply>, live: set<ConnId>, done: set<Uuid>, report: InvalidPath)
    requires var id := report.selfProfile.uuid;
             && id in s.paths && id !in done && s.paths[id] == report.selfProfile
             && report.verdict == Judge(s, id, answers) != Valid
    ensures var healed := HealthPass(s, answers, live).paths;
            HealedSoFar(s, healed, done + {report.selfProfile.uuid})
            == AppliedReport(HealedSoFar(s, healed, done), report, live)
  {
    var healed := HealthPass(s, answers, live).paths;
    if report.verdict.Clean? {
      CleanOneMore(s, healed, live, done, report.selfProfile);
    } else {
      FixOneMore(s, healed, done, report.selfProfile, report.verdict.offer);
    }
  }

  lemma CleanOneMore(s: NodeState, healed: map<Uuid, Path>, live: set<ConnId>, done: set<Uuid>, p: Path)
    requires p.uuid in s.paths && p.uuid !in done && s.paths[p.uuid] == p
    requires (p.uuid in healed <==> !Attended(live, p)) && (p.uuid in healed ==> healed[p.uuid] == p)
    ensures HealedSoFar(s, healed, done + {p.uuid}) == Cancel(HealedSoFar(s, healed, done), p, live)
  {
    var before, after := HealedSoFar(s, healed, done), HealedSoFar(s, healed, done + {p.uuid});
    assert before.paths[p.uuid] == p;
    CancelledLeavesIff(before, p.uuid, live);
    assert after.paths == if Attended(live, p) then before.paths - {p.uuid} else before.paths;
  }

  lemma FixOneMore(s: NodeState, healed: map<Uuid, Path>, done: set<Uuid>, p: Path, o: Offer)
    requires p.uuid in s.paths && p.uuid !in done && p.uuid in healed && healed[p.uuid] == FixedPath(p, o)
    ensures HealedSoFar(s, healed, done + {p.uuid}) == Repair(HealedSoFar(s, healed, done), p, o)
  {
    var before, after := HealedSoFar(s, healed, done), HealedSoFar(s, healed, done + {p.uuid});
    assert after.paths == before.paths[p.uuid := FixedPath(p, o)];
  }

  lemma HealedAll(s: NodeState, answers: map<Ip, QueryReply>, live: set<ConnId>, done: set<Uuid>)
    requires forall id :: id in s.paths && Judge(s, id, answers) != Valid ==> id in done
    ensures HealedSoFar(s, HealthPass(s, answers, live).paths, done) == HealthPass(s, answers, live)
  {
    assert HealedSoFar(s, HealthPass(s, answers, live).paths, done).paths == HealthPass(s, answers, live).paths;
  }

  lemma {:induction false} VerifiedIgnoresPeerKeys(s: NodeState, t: NodeState, ip: Ip, offers: seq<Offer>,
                                                   vouched: seq<bool>)
    requires t == s.(peerKeys := t.peerKeys)
    ensures VerifiedPaths(s, ip, offers, vouched) == VerifiedPaths(t, ip, offers, vouched)
  {
    if offers != [] {
      VerifiedIgnoresPeerKeys(s, t, ip, offers[..|offers| - 1], vouched);
    }
  }
}
