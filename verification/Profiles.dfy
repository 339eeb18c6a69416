/** The values a node keeps in its maps, and the node's whole mutable state as one value. */
module Profiles {
  type Ip = string
  type Uuid = nat
  type PublicKey = nat
  /** The big.Int agreed for one link, used as its symmetric key. */
  type Secret = nat
  /** Names one TCP connection together with the worker (and cancel function) that serves it. */
  type ConnId = nat
  type JobId = nat

  datatype Option<+T> = None | Some(value: T)

  /** What a `next` or `next2` string can hold: the "ImmutableStorage" tag, the empty string, or an address. */
  datatype Hop = Storage | Nowhere | Peer(ip: Ip)

  datatype Connection = Connection(ip: Ip, id: ConnId)

  /** `cancel` is what the path's cancelFunc reaches: the sending worker started with the path, named by its
      connection, and the address that connection was dialled to. A self-proxy path has none. */
  datatype Path = Path(
    uuid: Uuid, next: Hop, next2: Hop, proxyPublic: PublicKey, symKey: Secret,
    successCount: nat, failureCount: nat, cancel: Option<Connection>)

  datatype CoverNode = CoverNode(ip: Ip, secretKey: Secret, tree: Uuid, worker: ConnId)

  datatype JobStatus = PENDING | SUCCESS | TIMEOUT

  datatype Job = Job(key: seq<bv8>, status: JobStatus, onPath: Uuid)

  /** A tree id encrypted for one public key; only that key's owner reads it. */
  datatype SealedId = SealedId(to: PublicKey, id: Uuid)

  /** One path as QueryPathResp describes it. */
  datatype Offer = Offer(sealedId: SealedId, nextHop: Hop, nextNextHop: Hop, proxyPublic: PublicKey)

  datatype QueryReply = QueryReply(parentPublicKey: PublicKey, offers: seq<Offer>)

  datatype Config = Config(maxCovers: nat, coversToPublish: nat, failureThreshold: nat)

  datatype NodeState = NodeState(
    config: Config,
    publicKey: PublicKey,
    paths: map<Uuid, Path>,
    halfOpen: map<Uuid, Path>,
    covers: map<Ip, CoverNode>,
    conns: map<Uuid, Connection>,
    jobs: map<JobId, Job>,
    peerKeys: map<Ip, PublicKey>)

  /** A node that has just started: keys and configuration, every map empty. */
  function FreshNode(config: Config, publicKey: PublicKey): NodeState {
    NodeState(config, publicKey, map[], map[], map[], map[], map[], map[])
  }
}
