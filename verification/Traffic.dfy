/** Conservation of messages: real and cover messages on the connections of any network, delivered to workers with
    any keys and any, possibly stale, forwarding profiles. */
module Traffic {
  import opened Profiles
  import opened Envelope
  import opened NodeSteps
  import Delivery
  import KeyExchange

  type MsgId = nat

  datatype Posted = Posted(data: DataMessage, seal: PublicKey)

  datatype StoreCall = StoreCall(id: MsgId, owner: PublicKey, data: DataMessage)

  /** `valid` is what ValidateKey accepts; `posted` and `fillers` name the real and the cover messages ever sent;
      `calls` lists the Store calls in the order in which they were made. */
  datatype World = World(
    valid: set<DataMessage>,
    posted: map<MsgId, Posted>,
    fillers: set<MsgId>,
    flying: map<MsgId, AppMessage>,
    dropped: set<MsgId>,
    calls: seq<StoreCall>)

  datatype Label =
    | Post(id: MsgId, s: NodeState, data: DataMessage, path: Uuid, jobId: JobId, storeOk: bool, sendOk: bool)
    | SendFiller(id: MsgId, filler: DataMessage, seal: PublicKey, key: Secret)
    | Deliver(id: MsgId, at: Station)
    | Lose(id: MsgId)

  predicate Unused(w: World, id: MsgId) {
    id !in w.posted && id !in w.fillers
  }

  predicate Enabled(w: World, l: Label) {
    match l
    case Post(id, _, _, _, _, _, _) => Unused(w, id)
    case SendFiller(id, _, _, _) => Unused(w, id)
    case Deliver(id, _) => id in w.flying
    case Lose(id) => id in w.flying
  }

  function Drop(w: World, id: MsgId): World {
    w.(flying := w.flying - {id}, dropped := w.dropped + {id})
  }

  function Step(w: World, l: Label): World
    requires Enabled(w, l)
  {
    match l
    case Post(id, s, data, path, jobId, storeOk, sendOk) =>
      (match Publish(s, data, data in w.valid, path, jobId, storeOk, sendOk).1
       case Kept =>
         w.(posted := w.posted[id := Posted(data, s.publicKey)], calls := w.calls + [StoreCall(id, s.publicKey, data)])
       case Sent(_, message) =>
         w.(posted := w.posted[id := Posted(data, s.paths[path].proxyPublic)], flying := w.flying[id := message])
       case _ => w)
    case SendFiller(id, filler, seal, key) =>
      (match NewCoverMessage(filler, seal, key)
       case None => w
       case Some(message) => w.(fillers := w.fillers + {id}, flying := w.flying[id := message]))
    case Deliver(id, at) =>
      (match HandleApplicationMessage(w.flying[id], at)
       case Stored(data) => w.(flying := w.flying - {id}, calls := w.calls + [StoreCall(id, at.publicKey, data)])
       case Forwarded(message) => w.(flying := w.flying[id := message])
       case Discarded => Drop(w, id)
       case Failed(_) => Drop(w, id))
    case Lose(id) => Drop(w, id)
  }

  /** A publish that sends puts its message in flight, one that stores makes its Store call, and any other leaves no
      trace; a cover message flies if its key is usable; a lost message is dropped. */
  lemma StepsAreSends(w: World, l: Label)
    requires Enabled(w, l)
    ensures l.Post? ==>
              var outcome := Publish(l.s, l.data, l.data in w.valid, l.path, l.jobId, l.storeOk, l.sendOk).1;
              && (l.id in Step(w, l).posted <==> outcome.Kept? || outcome.Sent?)
              && (outcome.Sent? ==> l.id in Step(w, l).flying && Step(w, l).flying[l.id] == outcome.message)
              && (Step(w, l).calls == if outcome.Kept? then w.calls + [StoreCall(l.id, l.s.publicKey, l.data)]
                                      else w.calls)
    ensures l.SendFiller? ==>
              && (l.id in Step(w, l).fillers <==> KeyExchange.UsableKey(l.key))
              && (l.id in Step(w, l).fillers ==> l.id in Step(w, l).flying && Step(w, l).flying[l.id].key == l.key)
    ensures l.Lose? ==> l.id in Step(w, l).dropped && l.id !in Step(w, l).flying
  {
  }

  ghost predicate Legal(w: World, run: seq<Label>)
    decreases run
  {
    run == [] || (Enabled(w, run[0]) && Legal(Step(w, run[0]), run[1..]))
  }

  ghost function End(w: World, run: seq<Label>): World
    requires Legal(w, run)
    decreases run
  {
    if run == [] then w else End(Step(w, run[0]), run[1..])
  }

  // ---- The invariant ----

  predicate IsStored(w: World, id: MsgId) {
    exists i :: 0 <= i < |w.calls| && w.calls[i].id == id
  }

  /** A known message is in exactly one place; an unknown one is nowhere. */
  predicate OnePlace(w: World, id: MsgId) {
    var known := id in w.posted || id in w.fillers;
    && !(id in w.posted && id in w.fillers)
    && (known <==> id in w.flying || id in w.dropped || IsStored(w, id))
    && !(id in w.flying && id in w.dropped)
    && !(id in w.flying && IsStored(w, id))
    && !(id in w.dropped && IsStored(w, id))
  }

  /** A real message in flight carries the payload it was posted with; a cover message stays one. */
  predicate Unchanged(w: World, id: MsgId) {
    id in w.flying ==>
      && (id in w.posted ==> w.flying[id].body == Some(Delivery.Payload(w.posted[id].data, w.posted[id].seal)))
      && (id in w.fillers ==> w.flying[id].body.Some? && w.flying[id].body.value.kind == Cover)
  }

  /** A Store call is for a posted message, with its data, by the node whose key sealed it. */
  predicate Authorised(w: World, c: StoreCall) {
    c.id in w.posted && c.data == w.posted[c.id].data && c.owner == w.posted[c.id].seal
  }

  ghost predicate Inv(w: World) {
    && (forall id :: OnePlace(w, id))
    && (forall id :: Unchanged(w, id))
    && (forall id :: id in w.posted ==> w.posted[id].data in w.valid)
    && (forall i :: 0 <= i < |w.calls| ==> Authorised(w, w.calls[i]))
    && (forall i, j :: 0 <= i < j < |w.calls| ==> w.calls[i].id != w.calls[j].id)
  }

  lemma StoredGrows(w: World, c: StoreCall, id: MsgId)
    ensures IsStored(w.(calls := w.calls + [c]), id) <==> IsStored(w, id) || id == c.id
  {
    var after := w.calls + [c];
    assert after[|w.calls|] == c;
    assert forall i :: 0 <= i < |w.calls| ==> after[i] == w.calls[i];
  }

  lemma PostKeepsInv(w: World, l: Label)
    requires Inv(w) && Enabled(w, l) && l.Post?
    ensures Inv(Step(w, l))
  {
    var after := Step(w, l);
    var call := StoreCall(l.id, l.s.publicKey, l.data);
    forall id ensures OnePlace(after, id) && Unchanged(after, id) {
      assert OnePlace(w, id) && Unchanged(w, id);
      StoredGrows(w, call, id);
      assert IsStored(after, id) <==> IsStored(w, id) || (after.calls != w.calls && id == l.id);
    }
    assert OnePlace(w, l.id);
  }

  lemma FillerKeepsInv(w: World, l: Label)
    requires Inv(w) && Enabled(w, l) && l.SendFiller?
    ensures Inv(Step(w, l))
  {
    var after := Step(w, l);
    forall id ensures OnePlace(after, id) && Unchanged(after, id) {
      assert OnePlace(w, id) && Unchanged(w, id);
      assert IsStored(after, id) <==> IsStored(w, id);
    }
  }

  lemma DropKeepsInv(w: World, lost: MsgId)
    requires Inv(w) && lost in w.flying
    ensures Inv(Drop(w, lost))
  {
    forall id ensures OnePlace(Drop(w, lost), id) && Unchanged(Drop(w, lost), id) {
      assert OnePlace(w, id) && Unchanged(w, id);
      assert IsStored(Drop(w, lost), id) <==> IsStored(w, id);
    }
  }

  lemma DeliverKeepsInv(w: World, l: Label)
    requires Inv(w) && Enabled(w, l) && l.Deliver?
    ensures Inv(Step(w, l))
  {
    var after := Step(w, l);
    assert OnePlace(w, l.id) && Unchanged(w, l.id);
    match HandleApplicationMessage(w.flying[l.id], l.at)
    case Stored(data) =>
      forall id ensures OnePlace(after, id) && Unchanged(after, id) {
        assert OnePlace(w, id) && Unchanged(w, id);
        StoredGrows(w.(flying := after.flying), StoreCall(l.id, l.at.publicKey, data), id);
        assert IsStored(w.(flying := after.flying), id) <==> IsStored(w, id);
      }
    case Forwarded(message) =>
      forall id ensures OnePlace(after, id) && Unchanged(after, id) {
        assert OnePlace(w, id) && Unchanged(w, id);
        assert IsStored(after, id) <==> IsStored(w, id);
      }
    case Discarded => DropKeepsInv(w, l.id);
    case Failed(_) => DropKeepsInv(w, l.id);
  }

  lemma {:induction false} InvThroughRun(w: World, run: seq<Label>)
    requires Inv(w) && Legal(w, run)
    ensures Inv(End(w, run))
    decreases run
  {
    if run != [] {
      match run[0] {
        case Post(_, _, _, _, _, _, _) => PostKeepsInv(w, run[0]);
        case SendFiller(_, _, _, _) => FillerKeepsInv(w, run[0]);
        case Deliver(_, _) => DeliverKeepsInv(w, run[0]);
        case Lose(id) => DropKeepsInv(w, id);
      }
      InvThroughRun(Step(w, run[0]), run[1..]);
    }
  }

  // ---- Theorems ----

  function Quiet(valid: set<DataMessage>): World {
    World(valid, map[], {}, map[], {}, [])
  }

  /** At all times every message ever sent is in exactly one place: in flight, dropped, or stored by exactly one
      Store call; nothing else is in flight or stored. */
  lemma MessagesAreConserved(valid: set<DataMessage>, run: seq<Label>, id: MsgId)
    requires Legal(Quiet(valid), run)
    ensures OnePlace(End(Quiet(valid), run), id)
    ensures var calls := End(Quiet(valid), run).calls;
            forall i, j :: 0 <= i < j < |calls| ==> calls[i].id != calls[j].id
  {
    InvThroughRun(Quiet(valid), run);
  }

  /** Every Store call is for a message that was published with a valid key, exactly as published, by the owner of
      the key that sealed it; so no cover message is ever stored. */
  lemma OnlyPublishedIsStored(valid: set<DataMessage>, run: seq<Label>, i: nat)
    requires Legal(Quiet(valid), run) && i < |End(Quiet(valid), run).calls|
    ensures var w := End(Quiet(valid), run);
            && Authorised(w, w.calls[i]) && w.calls[i].data in valid && w.calls[i].id !in w.fillers
  {
    InvThroughRun(Quiet(valid), run);
    ValidIsFixed(Quiet(valid), run);
    var w := End(Quiet(valid), run);
    assert Authorised(w, w.calls[i]) && OnePlace(w, w.calls[i].id);
  }

  lemma {:induction false} ValidIsFixed(w: World, run: seq<Label>)
    requires Legal(w, run)
    ensures End(w, run).valid == w.valid
    decreases run
  {
    if run != [] {
      ValidIsFixed(Step(w, run[0]), run[1..]);
    }
  }

  /** The message is handed to the stations of a chain, one after the other, for as long as it is forwarded. */
  function Travel(id: MsgId, message: AppMessage, chain: seq<Station>): seq<Label>
    decreases chain
  {
    if chain == [] then []
    else
      var o := HandleApplicationMessage(message, chain[0]);
      [Deliver(id, chain[0])] + if o.Forwarded? then Travel(id, o.message, chain[1..]) else []
  }

  /** What has become of message id after the given outcome at a node with this key. */
  predicate Becomes(w: World, id: MsgId, owner: PublicKey, outcome: Outcome, after: World) {
    match outcome
    case Forwarded(m) => after == w.(flying := w.flying[id := m])
    case Stored(data) => after == w.(flying := w.flying - {id}, calls := w.calls + [StoreCall(id, owner, data)])
    case _ => after == Drop(w, id)
  }

  lemma BecomesLater(w: World, id: MsgId, message: AppMessage, owner: PublicKey, outcome: Outcome, after: World)
    requires id in w.flying && Becomes(w.(flying := w.flying[id := message]), id, owner, outcome, after)
    ensures Becomes(w, id, owner, outcome, after)
  {
    assert w.flying[id := message] - {id} == w.flying - {id};
  }

  /** A message in flight that is handed along a chain makes the journey of module Delivery, and is in flight, stored
      or dropped at the end as its last hop says. */
  lemma {:induction false} TravelIsJourney(w: World, id: MsgId, chain: seq<Station>)
    requires id in w.flying && chain != []
    ensures var run, journey := Travel(id, w.flying[id], chain), Delivery.Journey(w.flying[id], chain);
            && Legal(w, run) && 0 < |run| == |journey| <= |chain|
            && Becomes(w, id, chain[|run| - 1].publicKey, journey[|run| - 1], End(w, run))
    decreases chain
  {
    var o := HandleApplicationMessage(w.flying[id], chain[0]);
    var next, rest := Step(w, Deliver(id, chain[0])), if o.Forwarded? then Travel(id, o.message, chain[1..]) else [];
    assert ([Deliver(id, chain[0])] + rest)[1..] == rest;
    if o.Forwarded? && |chain| > 1 {
      TravelIsJourney(next, id, chain[1..]);
      var last := Delivery.Journey(o.message, chain[1..])[|rest| - 1];
      BecomesLater(w, id, o.message, chain[|rest|].publicKey, last, End(next, rest));
    }
  }

  /** Delivering a cover message, to any worker at any time of any run, ends it: it is not forwarded. */
  lemma CoverMessagesEnd(valid: set<DataMessage>, run: seq<Label>, id: MsgId, at: Station)
    requires Legal(Quiet(valid), run)
    requires var w := End(Quiet(valid), run);
             id in w.fillers && id in w.flying
    ensures var w := End(Quiet(valid), run);
            Step(w, Deliver(id, at)) == Drop(w, id)
  {
    InvThroughRun(Quiet(valid), run);
    assert Unchanged(End(Quiet(valid), run), id) && OnePlace(End(Quiet(valid), run), id);
  }
}
