/** What each handler and worker step does to the state of one node, as functions on values.
    Class Node carries the same steps out in place and is proved against these functions. */
module NodeSteps {
  import opened Profiles
  import opened KeyExchange
  import opened Envelope

  datatype ConnectReply = ConnectReply(accepted: bool, exchange: DHKeyExchange)
  datatype ProxyReply = ProxyReply(
    accepted: bool, exchange: DHKeyExchange, proxyPublic: PublicKey, sealedId: SealedId)

  /** Everything the outside world contributes to one ConnectPath call: the reply to a query, the answers
      to its VerifyCover requests (a missing one counts as an error), the reply to the connect request. */
  datatype Dialogue = Dialogue(
    query: Option<QueryReply>, vouched: seq<bool>, reply: Option<ConnectReply>, secret: Secret, conn: ConnId)

  datatype ConnectOutcome = Connected | Denied | ConnectError

  datatype MoveOutcome = Stopped | Moved | Proxied

  datatype Verdict = Valid | Clean | Fix(offer: Offer)

  // ---- QueryPath ----

  predicate Vouches(vouched: seq<bool>, i: nat) {
    i < |vouched| && vouched[i]
  }

  /** An offer is kept when it decrypts, its tree is not held (or comes from the held path's next-next hop),
      and its next hop is storage or vouches for the offering node. */
  predicate Takes(s: NodeState, ip: Ip, o: Offer, vouched: bool) {
    && o.sealedId.to == s.publicKey
    && (o.sealedId.id in s.paths ==> s.paths[o.sealedId.id].next2 == Peer(ip))
    && (o.nextHop == Storage || vouched)
  }

  function Entry(ip: Ip, o: Offer): Path {
    Path(o.sealedId.id, Peer(ip), o.nextHop, o.proxyPublic, 0, 0, 0, None)
  }

  /** One turn of QueryPath's loop. */
  function Record(s: NodeState, ip: Ip, o: Offer, vouched: bool): NodeState {
    if Takes(s, ip, o, vouched) then s.(halfOpen := s.halfOpen[o.sealedId.id := Entry(ip, o)]) else s
  }

  function RecordAll(s: NodeState, ip: Ip, offers: seq<Offer>, vouched: seq<bool>): (r: NodeState)
    ensures r == s.(halfOpen := r.halfOpen)
  {
    if offers == [] then s
    else
      var n := |offers| - 1;
      Record(RecordAll(s, ip, offers[..n], vouched), ip, offers[n], Vouches(vouched, n))
  }

  function VerifiedPaths(s: NodeState, ip: Ip, offers: seq<Offer>, vouched: seq<bool>): seq<Path> {
    if offers == [] then []
    else
      var n := |offers| - 1;
      var before := VerifiedPaths(s, ip, offers[..n], vouched);
      if Takes(s, ip, offers[n], Vouches(vouched, n)) then before + [Entry(ip, offers[n])] else before
  }

  function Learn(s: NodeState, ip: Ip, key: PublicKey): NodeState {
    s.(peerKeys := s.peerKeys[ip := key])
  }

  function LearnFrom(s: NodeState, ip: Ip, reply: QueryReply, vouched: seq<bool>): NodeState {
    RecordAll(Learn(s, ip, reply.parentPublicKey), ip, reply.offers, vouched)
  }

  // ---- ConnectPath, CreateProxy, becoming a proxy ----

  predicate Cached(s: NodeState, ip: Ip, id: Uuid) {
    ip in s.peerKeys && id in s.halfOpen
  }

  /** sendConnectPathRequest queries the peer first unless its key and a half-open entry are cached. */
  function Prepare(s: NodeState, ip: Ip, id: Uuid, d: Dialogue): Option<NodeState> {
    if Cached(s, ip, id) then Some(s)
    else if d.query.None? then None
    else Some(LearnFrom(s, ip, d.query.value, d.vouched))
  }

  function OpenedPath(e: Path, key: Secret, conn: Connection): Path {
    e.(symKey := key, successCount := 0, failureCount := 0, cancel := Some(conn))
  }

  /** The accepted branch of ConnectPath: the half-open entry becomes the path. */
  function CommitPath(s: NodeState, id: Uuid, key: Secret, conn: Connection): NodeState
    requires id in s.halfOpen
  {
    s.(halfOpen := s.halfOpen - {id},
       paths := s.paths[id := OpenedPath(s.halfOpen[id], key, conn)],
       conns := s.conns[id := conn])
  }

  function FinishConnect(s: NodeState, ip: Ip, id: Uuid, d: Dialogue): (NodeState, ConnectOutcome) {
    if d.reply.None? then (s, ConnectError)
    else if !d.reply.value.accepted then (s, Denied)
    else if id !in s.halfOpen then (s, ConnectError)
    else (CommitPath(s, id, GetSymKey(d.reply.value.exchange, d.secret), Connection(ip, d.conn)), Connected)
  }

  function ConnectPath(s: NodeState, ip: Ip, id: Uuid, d: Dialogue): (NodeState, ConnectOutcome) {
    var prepared := Prepare(s, ip, id, d);
    if prepared.None? then (s, ConnectError) else FinishConnect(prepared.value, ip, id, d)
  }

  function CommitProxyPath(s: NodeState, ip: Ip, id: Uuid, proxyPublic: PublicKey, key: Secret,
                           conn: ConnId): NodeState {
    s.(paths := s.paths[id := Path(id, Peer(ip), Storage, proxyPublic, key, 0, 0, Some(Connection(ip, conn)))],
       conns := s.conns[id := Connection(ip, conn)])
  }

  function CreateProxy(s: NodeState, ip: Ip, reply: Option<ProxyReply>, secret: Secret, conn: ConnId)
    : (NodeState, ConnectOutcome)
  {
    if reply.None? then (s, ConnectError)
    else if !reply.value.accepted then (s, Denied)
    else if reply.value.sealedId.to != s.publicKey then (s, ConnectError)
    else (CommitProxyPath(s, ip, reply.value.sealedId.id, reply.value.proxyPublic,
                          GetSymKey(reply.value.exchange, secret), conn), Connected)
  }

  function SelfProxyPath(id: Uuid, publicKey: PublicKey, key: Secret): Path {
    Path(id, Storage, Nowhere, publicKey, key, 0, 0, None)
  }

  function BecomeProxy(s: NodeState, id: Uuid): NodeState {
    s.(paths := s.paths[id := SelfProxyPath(id, s.publicKey, 0)])
  }

  // ---- Handlers ----

  function OfferOf(path: Path, requester: PublicKey): Offer {
    Offer(SealedId(requester, path.uuid), path.next, path.next2, path.proxyPublic)
  }

  /** `offers` lists every held path once, in whatever order the map iteration takes. */
  ghost predicate Lists(offers: seq<Offer>, paths: map<Uuid, Path>, requester: PublicKey) {
    exists order: seq<Uuid> :: ListsInOrder(offers, order, paths, requester)
  }

  ghost predicate ListsInOrder(offers: seq<Offer>, order: seq<Uuid>, paths: map<Uuid, Path>, requester: PublicKey) {
    && |offers| == |order|
    && (forall i, j :: 0 <= i < j < |order| ==> order[i] != order[j])
    && (forall id :: id in paths <==> id in order)
    && (forall i :: 0 <= i < |order| ==> order[i] in paths && offers[i] == OfferOf(paths[order[i]], requester))
  }

  predicate Accepts(s: NodeState, coverIp: Ip, id: Uuid) {
    coverIp !in s.covers && |s.covers| < s.config.maxCovers && id in s.paths
  }

  function AdmitCover(s: NodeState, coverIp: Ip, id: Uuid, key: Secret, worker: ConnId): NodeState {
    s.(covers := s.covers[coverIp := CoverNode(coverIp, key, id, worker)])
  }

  const REFUSED_EXCHANGE := DHKeyExchange(0, 0, 0)

  /** None: the tree id does not decrypt and the connection is closed without a reply. */
  function HandleConnectPath(s: NodeState, coverIp: Ip, sealedId: SealedId, exchange: DHKeyExchange,
                             secret: Secret, worker: ConnId): (NodeState, Option<ConnectReply>)
  {
    if sealedId.to != s.publicKey then (s, None)
    else if Accepts(s, coverIp, sealedId.id) then
      (AdmitCover(s, coverIp, sealedId.id, GetSymKey(exchange, secret), worker),
       Some(ConnectReply(true, GenerateReturn(exchange, secret))))
    else (s, Some(ConnectReply(false, REFUSED_EXCHANGE)))
  }

  predicate IsProxy(s: NodeState) {
    exists id :: id in s.paths && s.paths[id].next == Storage
  }

  predicate AcceptsProxy(s: NodeState, coverIp: Ip) {
    coverIp !in s.covers && |s.covers| < s.config.maxCovers && !IsProxy(s)
  }

  function FoundTree(s: NodeState, id: Uuid, key: Secret): NodeState {
    s.(paths := s.paths[id := SelfProxyPath(id, s.publicKey, key)])
  }

  function HandleCreateProxy(s: NodeState, coverIp: Ip, requester: PublicKey, exchange: DHKeyExchange,
                             secret: Secret, freshId: Uuid, worker: ConnId): (NodeState, ProxyReply)
  {
    if AcceptsProxy(s, coverIp) then
      var key := GetSymKey(exchange, secret);
      (AdmitCover(FoundTree(s, freshId, key), coverIp, freshId, key, worker),
       ProxyReply(true, GenerateReturn(exchange, secret), s.publicKey, SealedId(requester, freshId)))
    else (s, ProxyReply(false, REFUSED_EXCHANGE, 0, SealedId(0, 0)))
  }

  // ---- Worker clean-up ----

  /** The compare half of sendCoverMessageWorker's clean-up. */
  predicate StillMine(s: NodeState, id: Uuid, ip: Ip) {
    id in s.paths && s.paths[id].next == Peer(ip)
  }

  function DropPath(s: NodeState, id: Uuid): NodeState {
    s.(paths := s.paths - {id})
  }

  function SenderExit(s: NodeState, id: Uuid, ip: Ip): NodeState {
    if StillMine(s, id, ip) then DropPath(s, id) else s
  }

  /** A path's own sending worker is among the live ones and was dialled to the path's next hop. */
  predicate Attended(live: set<ConnId>, p: Path) {
    p.cancel.Some? && p.cancel.value.id in live && p.next == Peer(p.cancel.value.ip)
  }

  /** Path p is cancelled: its own worker, if it lives, leaves by its usual exit. Nothing else removes the path. */
  function Cancel(s: NodeState, p: Path, live: set<ConnId>): NodeState {
    if p.cancel.Some? && p.cancel.value.id in live then SenderExit(s, p.uuid, p.cancel.value.ip) else s
  }

  function CoverExit(s: NodeState, ip: Ip): NodeState {
    s.(covers := s.covers - {ip})
  }

  // ---- Path health ----

  function FindOffer(offers: seq<Offer>, me: PublicKey, id: Uuid): Option<Offer> {
    if offers == [] then None
    else if offers[0].sealedId == SealedId(me, id) then Some(offers[0])
    else FindOffer(offers[1..], me, id)
  }

  /** invalidPathProfiles on one path; a next hop without an answer is unreachable. */
  function Judge(s: NodeState, id: Uuid, answers: map<Ip, QueryReply>): Verdict
    requires id in s.paths
  {
    var p := s.paths[id];
    match p.next
    case Storage => Valid
    case Nowhere => Clean
    case Peer(ip) =>
      if ip !in answers then Clean
      else match FindOffer(answers[ip].offers, s.publicKey, id)
        case None => Clean
        case Some(o) => if p.next2 != o.nextHop || p.proxyPublic != o.proxyPublic then Fix(o) else Valid
  }

  function FixedPath(p: Path, o: Offer): Path {
    p.(next2 := o.nextHop, proxyPublic := o.proxyPublic)
  }

  /** FIX writes back the profile it was given, whatever the map holds by then. */
  function Repair(s: NodeState, was: Path, o: Offer): NodeState {
    s.(paths := s.paths[was.uuid := FixedPath(was, o)])
  }

  function HealedPath(p: Path, v: Verdict): Path {
    if v.Fix? then FixedPath(p, v.offer) else p
  }

  /** What one health pass takes away: the paths judged CLEAN whose own worker lives and was dialled to the next hop. */
  predicate Leaves(s: NodeState, id: Uuid, answers: map<Ip, QueryReply>, live: set<ConnId>)
    requires id in s.paths
  {
    Judge(s, id, answers) == Clean && Attended(live, s.paths[id])
  }

  /** One health pass, with `live` the sending workers that run: attended paths judged CLEAN leave with their
      workers, the others are fixed or stay. */
  function HealthPass(s: NodeState, answers: map<Ip, QueryReply>, live: set<ConnId>): NodeState {
    s.(paths := map id | id in s.paths && !Leaves(s, id, answers, live)
                       :: HealedPath(s.paths[id], Judge(s, id, answers)))
  }

  // ---- Move-up ----

  function Blacklist(s: NodeState): set<Uuid> {
    set id | id in s.paths && s.paths[id].failureCount >= s.config.failureThreshold
  }

  /** The covers of a tree are cancelled: those whose worker is among the live ones leave, the others stay. */
  function CancelCovers(s: NodeState, tree: Uuid, live: set<ConnId>): NodeState {
    s.(covers := map ip | ip in s.covers && !(s.covers[ip].tree == tree && s.covers[ip].worker in live) :: s.covers[ip])
  }

  /** MoveUp's last resort: the covers of the tree are cancelled and the node proxies a tree of its own. */
  function FallBack(s: NodeState, id: Uuid, freshId: Uuid, live: set<ConnId>): NodeState {
    BecomeProxy(CancelCovers(s, id, live), freshId)
  }

  /** `confirmed` is the reply of the next-next hop to VerifyCover, None when it cannot be reached; `live` are the
      cover workers that run. */
  function MoveUp(s: NodeState, was: Path, confirmed: Option<bool>, d: Dialogue, freshId: Uuid, live: set<ConnId>)
    : (NodeState, MoveOutcome)
  {
    if !was.next2.Peer? || confirmed.None? then (s, Stopped)
    else if !confirmed.value then (FallBack(s, was.uuid, freshId, live), Proxied)
    else
      var (t, outcome) := ConnectPath(s, was.next2.ip, was.uuid, d);
      if outcome == Connected then (t, Moved) else (FallBack(t, was.uuid, freshId, live), Proxied)
  }

  // ---- Publishing ----

  function CountedPath(p: Path, status: JobStatus): Path {
    if status == SUCCESS then p.(successCount := p.successCount + 1) else p.(failureCount := p.failureCount + 1)
  }

  function MarkJob(s: NodeState, jobId: JobId, job: Job): NodeState {
    s.(jobs := s.jobs[jobId := job],
       paths := if job.onPath in s.paths
                then s.paths[job.onPath := CountedPath(s.paths[job.onPath], job.status)]
                else s.paths)
  }

  predicate CanPublish(s: NodeState) {
    |s.covers| >= s.config.coversToPublish && |s.paths| > 0
  }

  datatype PublishOutcome =
    | NotReady | InvalidKey | NoSuchPath | NotStored | NotSealed | NotSent
    | Kept
    | Sent(via: Connection, message: AppMessage)

  function AddJob(s: NodeState, jobId: JobId, key: seq<bv8>, onPath: Uuid): NodeState {
    s.(jobs := s.jobs[jobId := Job(key, PENDING, onPath)])
  }

  /** `valid` is ValidateKey's answer; `storeOk` and `sendOk` are those of the local storage and the connection. */
  function Publish(s: NodeState, data: DataMessage, valid: bool, id: Uuid, jobId: JobId, storeOk: bool, sendOk: bool)
    : (NodeState, PublishOutcome)
  {
    if !CanPublish(s) then (s, NotReady)
    else if !valid then (s, InvalidKey)
    else if id !in s.paths then (s, NoSuchPath)
    else
      var p := s.paths[id];
      if p.next == Storage then
        if storeOk then (AddJob(s, jobId, data.key, p.uuid), Kept) else (s, NotStored)
      else match NewRealMessage(data, p.proxyPublic, p.symKey)
        case None => (s, NotSealed)
        case Some(message) =>
          if id in s.conns && sendOk then (AddJob(s, jobId, data.key, p.uuid), Sent(s.conns[id], message))
          else (s, NotSent)
  }

  /** A cancelled path leaves if and only if its own worker lives and was dialled to the next hop it holds. */
  lemma CancelledLeavesIff(s: NodeState, id: Uuid, live: set<ConnId>)
    requires id in s.paths && s.paths[id].uuid == id
    ensures id !in Cancel(s, s.paths[id], live).paths <==> Attended(live, s.paths[id])
    ensures Cancel(s, s.paths[id], live) == if Attended(live, s.paths[id]) then DropPath(s, id) else s
  {
  }

  // ---- What a query brings ----

  /** An offer is taken if and only if it was sealed for the node, its tree is not held (or comes from the held path's
      next-next hop), and its next hop is storage or has vouched. `picks` lists the positions of these offers; the
      verified paths are what they say, all of them and in order. */
  lemma {:induction false} VerifiedPathsArePicked(s: NodeState, ip: Ip, offers: seq<Offer>, vouched: seq<bool>)
    returns (picks: seq<nat>)
    ensures |picks| == |VerifiedPaths(s, ip, offers, vouched)|
    ensures forall i, j :: 0 <= i < j < |picks| ==> picks[i] < picks[j]
    ensures forall i :: 0 <= i < |picks| ==>
              && picks[i] < |offers|
              && var o := offers[picks[i]];
                 VerifiedPaths(s, ip, offers, vouched)[i]
                 == Path(o.sealedId.id, Peer(ip), o.nextHop, o.proxyPublic, 0, 0, 0, None)
    ensures forall k: nat :: k < |offers| ==>
              (k in picks <==>
               && offers[k].sealedId.to == s.publicKey
               && (offers[k].sealedId.id in s.paths ==> s.paths[offers[k].sealedId.id].next2 == Peer(ip))
               && (offers[k].nextHop == Storage || (k < |vouched| && vouched[k])))
  {
    picks := [];
    if offers != [] {
      var n := |offers| - 1;
      picks := VerifiedPathsArePicked(s, ip, offers[..n], vouched);
      assert forall k: nat :: k < n ==> offers[..n][k] == offers[k];
      if Takes(s, ip, offers[n], Vouches(vouched, n)) {
        picks := picks + [n];
      }
    }
  }

  /** A parent's answer to a query tells exactly the paths it holds, when each is stored under its own id: its next
      hop, its next-next hop and its proxy's key. */
  lemma AnswerTellsHeldPaths(offers: seq<Offer>, paths: map<Uuid, Path>, me: PublicKey, id: Uuid)
    requires Lists(offers, paths, me)
    requires forall k :: k in paths ==> paths[k].uuid == k
    ensures FindOffer(offers, me, id)
         == if id in paths
            then Some(Offer(SealedId(me, id), paths[id].next, paths[id].next2, paths[id].proxyPublic)) else None
  {
    var order :| ListsInOrder(offers, order, paths, me);
    FindOfferFirst(offers, me, id);
    if id in paths {
      var i :| 0 <= i < |order| && order[i] == id;
      assert offers[i].sealedId == SealedId(me, id);
    }
  }

  lemma {:induction false} FindOfferFirst(offers: seq<Offer>, me: PublicKey, id: Uuid)
    ensures var found := FindOffer(offers, me, id);
            && (found.Some? ==> found.value in offers && found.value.sealedId == SealedId(me, id))
            && (found.None? ==> forall o :: o in offers ==> o.sealedId != SealedId(me, id))
  {
    if offers != [] && offers[0].sealedId != SealedId(me, id) {
      FindOfferFirst(offers[1..], me, id);
    }
  }
}
