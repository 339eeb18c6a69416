/** The two-layer application message and the symbolic codec: only the right key opens a layer. */
module Envelope {
  import opened Profiles
  import opened KeyExchange

  datatype DataMessage = DataMessage(key: seq<bv8>, content: seq<bv8>)

  /** Output of AsymmetricEncrypt. `body` is None when the plaintext is not a data message. */
  datatype AsymPayload = Sealed(to: PublicKey, body: Option<DataMessage>) | Damaged

  datatype Kind = Real | Cover | Unknown

  datatype SymInput = SymInput(kind: Kind, payload: AsymPayload)

  /** Output of SymmetricEncrypt. `body` is None when the plaintext does not decode. */
  datatype AppMessage = AppMessage(key: Secret, body: Option<SymInput>)

  datatype Error =
    | BadSymmetricKey | Undecodable | BadKind | BadPayload | Misrouted | BadData
    | StorageDown | NoConnection

  /** What one delivered application message makes its receiver do. */
  datatype Outcome =
    | Discarded
    | Stored(data: DataMessage)
    | Forwarded(message: AppMessage)
    | Failed(error: Error)

  /** A cover worker's fixed context: the receiving node's key, the cover's link key, the forwarding
      profile captured when the worker started, and what the outside world answers. */
  datatype Station = Station(
    publicKey: PublicKey, secretKey: Secret, forwardPath: Path, storeOk: bool, sendOk: bool)

  function SymmetricEncrypt(input: SymInput, key: Secret): Option<AppMessage> {
    if UsableKey(key) then Some(AppMessage(key, Some(input))) else None
  }

  function SymmetricDecrypt(message: AppMessage, key: Secret): Option<Option<SymInput>> {
    if UsableKey(key) && message.key == key then Some(message.body) else None
  }

  function NewMessage(kind: Kind, data: DataMessage, proxyPublic: PublicKey, key: Secret): Option<AppMessage> {
    SymmetricEncrypt(SymInput(kind, Sealed(proxyPublic, Some(data))), key)
  }

  function NewRealMessage(data: DataMessage, proxyPublic: PublicKey, key: Secret): Option<AppMessage> {
    NewMessage(Real, data, proxyPublic, key)
  }

  function NewCoverMessage(filler: DataMessage, proxyPublic: PublicKey, key: Secret): Option<AppMessage> {
    NewMessage(Cover, filler, proxyPublic, key)
  }

  /** Forward: one new symmetric layer round an unchanged payload. */
  function Forward(payload: AsymPayload, at: Station): Outcome {
    match SymmetricEncrypt(SymInput(Real, payload), at.forwardPath.symKey)
    case None => Failed(BadSymmetricKey)
    case Some(message) => if at.sendOk then Forwarded(message) else Failed(NoConnection)
  }

  function HandleRealMessage(payload: AsymPayload, at: Station): Outcome {
    match payload
    case Damaged => Failed(BadPayload)
    case Sealed(to, body) =>
      if to != at.publicKey then Forward(payload, at)
      else if at.forwardPath.next != Storage then Failed(Misrouted)
      else match body
        case None => Failed(BadData)
        case Some(data) => if at.storeOk then Stored(data) else Failed(StorageDown)
  }

  function HandleApplicationMessage(message: AppMessage, at: Station): Outcome {
    match SymmetricDecrypt(message, at.secretKey)
    case None => Failed(BadSymmetricKey)
    case Some(None) => Failed(Undecodable)
    case Some(Some(input)) =>
      match input.kind
      case Cover => Discarded
      case Real => HandleRealMessage(input.payload, at)
      case Unknown => Failed(BadKind)
  }
}
