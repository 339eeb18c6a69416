# Anonymous-tree overlay: model and proofs

The nodes of this overlay publish through trees. Each tree has an id, its root is a proxy that writes to the
immutable storage, and every member keeps, per tree, its next hop, its next-next hop, the proxy's public key and
the symmetric key of the link to the next hop. Nodes join trees, found trees, repair their remembered hops, leave
dead trees and move up past a failing parent, each acting alone on values that other nodes told it some time ago.
This project models that protocol, the message path on top of it, the key agreement below it, and the job
accounting that triggers move-ups, and proves what holds over all runs.

## The modules

- `Profiles`, `Envelope`, `KeyExchange`: the values, the two-layer message with a symbolic codec, and the
  Diffie-Hellman exchange (shared secret of section 2.1.1 of RFC 2631) with its arithmetic.
- `NodeSteps`: what each handler and worker step does to one node, as functions. `NodeObject`: the class `Node`,
  which keeps the maps as fields and carries the same steps out in place, loops included.
  `NodeLaws` says what those steps promise on the fields of the values alone, without the functions that they are
  made of.
- `Overlay`: the network as a transition system over those steps, with lemmas that its steps are the handlers'.
  `Composites` shows that the longer operations (a query, a connect, MoveUp, a health pass) are runs of it, failed
  queries, lost requests and lost replies included.
  `Provenance` proves where the hops and keys that nodes copy from each other come from.
  `Permanence`, `Acyclicity`, `Climbing`, `Links`, `Rejoin` prove invariants of it, what each takes, and exactly which
  steps break those that the code alone does not keep. `Scenes` builds runs of the code that reach such breaks.
- `Health`, `Recovery`: rounds of health passes, from any well-kept state and from any reachable one.
- `MoveUpRace`, `Admission`: the two places where separately locked accesses interleave, taken apart.
- `Delivery`, `Traffic`: one message along a chain, and all messages of any network.
- `Jobs`, `KeepAlive`: publish jobs with path counters, and the clock of one link.

## Modelling decisions

- **Time and staleness.** Replies in `Overlay` stay in flight and may be used at any later time; what a query told may
  be used again and again. So a connect is cut into request, admission and commit with anything in between; a query is
  cut into the answer, the caching of the peer's key and the recording of each single offer. A connect request needs the
  peer's key, as in the code. A move-up appears in a run as a query, a request and a commit, or else as a newly founded
  tree and the exits of the cancelled cover workers. A FIX is written back only if the answer it rests on differed from
  the path it was given. A publish job of any path may end, and be counted, at any moment.
- **More runs than the code has.** `Overlay` lets a query record some of its offers only and takes any verdict on
  VerifyCover, so what holds in all its runs holds in those of the code. The runs built in `Scenes` are narrower: their
  queries are whole, their verdicts are those of the node that is asked, and their requests leave with the key and the
  entry cached.
- **Workers and cancelling.** A path remembers what its cancelFunc reaches (`Path.cancel`): the sending worker that was
  started with it, and the address that worker's connection was dialled to, which need not be the path's next hop.
  Cancelling removes nothing by itself. The worker leaves, if it still lives, and compares the dialled address with the
  path's next hop before it deletes (p2p/workers.go:431-437). `Overlay.senders` and `Overlay.workers` are the workers
  that live; methods of `Node` that cancel take the living ones as the parameter `live` and carry their exits out on
  the spot, while `Overlay` and `MoveUpRace` let an exit come at any later moment.
- **Assumptions beyond the code** are named and optional (`Discipline`). `FreshJoin`: a node takes an offer of a
  tree only if it never held that tree, or if the offer comes from the next-next hop of a path it held. `LinkCare`:
  a connect reply is used for the peer its half-open entry names, and FIX writes back a path of the current connection
  whose worker lives. Every theorem states which it needs; most need neither. For what each of them is assumed for, the
  exact condition is proved as well, step by step and over runs, and runs of the code that break it are in `Scenes`.
  Tree ids and connection ids are fresh when they are made, nodes are honest, and a node never picks itself.
- **Atomicity.** A method of `Node` and a step of `Overlay` is one interleaving of the separately locked map
  accesses. Clean-up of a sending worker reads and deletes in two accesses (p2p/workers.go:433-437): `MoveUpRace`
  places them anywhere in MoveUp. Admission looks up, counts, inserts and answers (p2p/handlers_tcp.go:181-228):
  `Admission` interleaves any number of handlers. FIX writes back a snapshot (p2p/workers.go:397-400):
  `Overlay.WriteFix` may write back any value the node ever held, and `Jobs` says when that loses a count or brings
  old ones back. A health pass reads at one moment, writes and cancels at a later one, and each cancelled worker
  leaves at a later one still, with events of other passes in between (`Health.Event`).
- **Cryptography** is symbolic: a layer opens with the key that closed it and no other. A symmetric key works when
  its minimal byte form has 16, 24 or 32 bytes, as AES demands, so short agreed keys fail here as they do there.
- **Outside answers** (storage, connections, key validation, peers) are parameters.

## What the code does where one might expect otherwise

- Joins are not kept fresh: the check in QueryPath looks only at what the node holds now (p2p/node.go:293-297).
  From three nodes that have just started the code reaches a cycle of next hops (`Scenes.RejoinReachesCycle`).
- A connect sends no query when the peer's key and a half-open entry of the tree are cached, even an entry recorded for
  another peer (p2p/handlers_tcp.go:53-62). The path then names a next hop that does not know the node
  (`Scenes.MisdialledIsReached`), and once that hop stops no health pass ever removes the path
  (`Recovery.MisdialledOrphanStays`), because the worker compares with the address it was dialled to.
- FIX writes back what the health pass read. If the path's worker has left in between, nothing removes the path any more
  (`Recovery.DesertedOrphanStays`). If the node has connected one hop up in between, FIX sets it back
  (`Scenes.LateFixSetsBack`), and the old time-outs come back with the old hops (`Jobs.OldFailuresComeBack`). At one
  node MoveUp and FIX take turns (p2p/workers.go:387, p2p/workers.go:406), so that
  connect is one of getMorePaths or of a request to connect a path, not of MoveUp.
- A FIX also compares the proxy's key (p2p/workers.go:104). Among honest nodes that never differs: every path of a
  tree carries the key of its founder (`Provenance.ProxyKeyIsTheProxys`), so only the next-next hop is ever corrected.
- The retry in NewKeyExchange compares two pointers and never runs (p2p/codec.go:109-111). Equal primes, and no others,
  make every exchange end in the key zero, which AES refuses (`KeyExchange.EqualPrimesGiveNoKey`).
- QueryPath reads the response in its closing log line even when there is none (p2p/node.go:320). `Node.QueryPath`
  is given a reply; `NodeSteps.Prepare` treats a missing one as an error.
- The blacklist loop calls the cancel function of every blacklisted path (p2p/workers.go:381). A self-proxy path has
  none, and can be blacklisted (`Jobs.SelfProxyCanBeBlacklisted`).
- A move-up with a cached entry for another peer leads there, not one hop up (`MoveUpRace.OneUpIff`,
  `MoveUpRace.MovedElsewhere`).
- A successful move-up loses its path when the cancelled worker reads before the connect and deletes after it, or reads
  after it and was dialled to the new next hop (`MoveUpRace.RaceDecided`, `MoveUpRace.MovedAndLost`).
- MoveUp's last resort cancels the covers of the tree; a cover entry without a worker stays (p2p/workers.go:245-250).
- A handler that cannot send its answer leaves a cover entry without a worker (p2p/handlers_tcp.go:223-228); the
  entry stays for ever and its address is refused for ever (`Admission.AbandonedIsReached`,
  `Admission.AbandonedForEver`).
- Two handlers for one address may both be admitted. Then the bound on covers no longer bounds the workers
  (`Admission.WorkersAreUnbounded`).
- handleRealMessage logs the `Success` flag of the storage's reply and otherwise ignores it, while Publish treats
  it as a failure (p2p/workers.go:195-200, p2p/node.go:461-464). `storeOk` stands for "no error" in the first and
  for both in the second.
- MoveUp.md lets a node with storage as its next-next hop become a proxy, and removes its covers and old path; in
  the code such a move-up simply returns (p2p/workers.go:221-225). The code is followed.

## Model

| member | source | states |
|---|---|---|
| KeyExchange.Agreement | p2p/codec.go:94-132 | child and parent compute the same key, for every generator, modulus and pair of secrets |
| KeyExchange.AgreedKeyBytes | p2p/codec.go:130-141 | with a modulus of 256 bits the key is below it and has at most 32 bytes, exactly 32 when it is at least 2^248 |
| KeyExchange.KeyIsZeroIff | p2p/codec.go:101-132 | for a prime modulus the agreed key is zero if and only if both secrets are positive and the modulus divides the generator |
| KeyExchange.EqualPrimesGiveNoKey | p2p/codec.go:94-117 | for two primes and positive secrets that is exactly the case the retry should have excluded, equality of the two |
| KeyExchange.UsableKeys | p2p/codec.go:130-141 | AES takes exactly the keys from 2^120, 2^184 or 2^248 up to the next power of 256 |
| NodeSteps.VerifiedPathsArePicked | p2p/node.go:286-316 | QueryPath returns exactly the offers that decrypt, are not held (or come from the held path's next-next hop) and lead to storage or to a hop that vouches, all of them, in order, and field by field |
| NodeLaws.LastTakenOfferStays | p2p/node.go:299-315 | of those offers of one tree the last one is the half-open entry afterwards, field by field |
| NodeLaws.UntakenTreeIsUntouched | p2p/node.go:286-316 | a tree whose offers were all sealed for others, held elsewhere or vouched for by nobody keeps its half-open entry, or its absence |
| NodeLaws.QueriesTeach | p2p/node.go:281-285 | besides, a query caches the key that the reply carries, and changes nothing else |
| NodeSteps.AnswerTellsHeldPaths | p2p/handlers_tcp.go:116-130 | searching a parent's answer for a tree finds the next hop, next-next hop and proxy key of the parent's own path of that tree if it holds one, and nothing if it does not, in whatever order the map was walked |
| NodeLaws.ConnectOutcome | p2p/node.go:325-372 | a connect comes through exactly when its query did (if key or entry was not cached), the peer accepts and an entry is there; the path then has the entry's id, hops and proxy key, the agreed key, zero counters and the dialled connection; otherwise nothing but what the query brought changes |
| NodeLaws.JoinsUnder | p2p/node.go:325-372 | parent and child together: a child that queries and is admitted ends up under the parent, with the parent's next hop and proxy key, both ends holding one key |
| NodeLaws.CreateProxyOutcome | p2p/node.go:374-417 | exactly an accepting answer whose tree id opens is taken, and the path leads to the proxy and on to storage under the proxy's key |
| NodeLaws.ConnectHandled | p2p/handlers_tcp.go:159-217 | of the requests that open exactly those of newcomers, below the maximum, for a held tree are accepted; reply, cover and everything else field by field |
| NodeLaws.CreateProxyHandled | p2p/handlers_tcp.go:241-325 | exactly a newcomer to a node with room and without a path to storage is accepted; new path, new cover and reply field by field, and no change otherwise |
| NodeLaws.NoSecondProxy | p2p/handlers_tcp.go:257-266 | a whole create-proxy request never makes a node the proxy of a second tree |
| NodeLaws.BecomesProxy | p2p/handlers_http.go:233-243 | a request to become a proxy adds one path to storage with the node's own key and no worker, and nothing else |
| NodeLaws.ExitsTake | p2p/workers.go:431-437 | a leaving worker takes its path exactly while that leads to the dialled address, a leaving cover its own entry |
| NodeLaws.AnsweredPathFollows | p2p/workers.go:87-118 | in a health pass a path whose next hop offers its tree stays and follows the first such offer in next-next hop and proxy key, and in nothing else |
| NodeLaws.UnansweredPathGoes | p2p/workers.go:390-405 | every other path stays as it is unless it leads to a peer on the connection of a live worker dialled there, and then goes |
| NodeLaws.HealthPassIsNarrow | p2p/workers.go:390-405 | a health pass touches nothing but paths and adds none |
| NodeLaws.MoveUpOutcome | p2p/workers.go:214-263 | when MoveUp stops, succeeds or founds a tree, and what the node's paths are then |
| NodeLaws.MoveUpCovers | p2p/workers.go:244-250 | in the last resort exactly the covers of the tree with a live worker leave; in every other outcome the covers are unchanged |
| NodeLaws.PublishOutcomes | p2p/node.go:420-497 | the exact condition of each outcome, in the order of the checks; the job is recorded on the path used exactly when the message was stored or sent, and nothing changes otherwise |
| NodeLaws.JobIsCounted | p2p/workers.go:49-61 | an ended job is stored and counts one success or failure on its own path and on no other |
| NodeLaws.MessageIsHandled | p2p/workers.go:136-210 | when a cover worker discards, stores or forwards a message, in both directions, and what it forwards |
| NodeObject.Pick | p2p/utils.go:8-21 | counting down over one map iteration returns the entry at the drawn place of that iteration |
| NodeObject.Node.constructor | p2p/node.go:76-111 | a new node's maps are empty |
| NodeObject.Node.QueryPath | p2p/node.go:274-323 | the loop's result is the filter of the offers, the half-open map is overridden by the taken ones, the parent's key is cached and nothing else changes |
| NodeObject.Node.PrepareConnect | p2p/handlers_tcp.go:52-62 | a connect queries the peer first unless its key and a half-open entry are cached, whoever the entry is for |
| NodeObject.Node.ConnectPath | p2p/node.go:325-372 | an accepted connect turns the half-open entry into the path with the agreed key, zero counters and the worker of the connection dialled; refusals, errors and a missing entry leave paths alone |
| NodeObject.Node.CreateProxy | p2p/node.go:374-417 | an accepted request stores the new tree's path with storage as next-next hop, unless the id does not decrypt |
| NodeObject.Node.BecomeProxy | p2p/handlers_http.go:233-243 | a fresh path to storage with the node's own key |
| NodeObject.Node.HandleQueryPath | p2p/handlers_tcp.go:108-130 | the answer lists every held path exactly once, sealed for the requester |
| NodeObject.Node.HandleConnectPath | p2p/handlers_tcp.go:159-217 | admits exactly a requester that is no cover yet, below the maximum, on a held tree, and stores its key; other requests change nothing |
| NodeObject.Node.HandleCreateProxy | p2p/handlers_tcp.go:241-325 | admits exactly a requester that is no cover yet, below the maximum, while the node proxies nothing; stores path and cover under one key |
| NodeObject.Node.SendCoverMessageWorkerExit | p2p/workers.go:431-437 | drops the path only while its next hop is still the worker's target |
| NodeObject.Node.HandleApplicationMessageWorkerExit | p2p/workers.go:495-501 | drops the cover entry of the worker's address and nothing else |
| NodeObject.Node.JudgePath | p2p/workers.go:87-118 | the loop over the next hop's offers comes to the verdict that the first offer of this tree calls for, and CLEAN if there is none |
| NodeObject.Node.InvalidPathProfiles | p2p/workers.go:76-121 | reports each unsound path exactly once, with the verdict CLEAN or FIX that its next hop's answer calls for, and no sound path |
| NodeObject.Node.ApplyReport | p2p/workers.go:394-400 | CLEAN drops the path only through the exit of its own worker, if that lives; FIX writes the corrected snapshot back |
| NodeObject.Node.MaintainPathsHealth | p2p/workers.go:390-405 | one pass removes exactly the paths judged CLEAN whose own worker lives and was dialled to the next hop, and corrects exactly those judged FIX |
| NodeObject.Node.BlacklistPaths | p2p/workers.go:63-74 | returns exactly the paths whose failures reach the threshold, each once |
| NodeObject.Node.CancelCovers | p2p/workers.go:245-250 | exactly the covers of the given tree whose worker lives leave |
| NodeObject.Node.MoveUp | p2p/workers.go:214-263 | stops, connects to the confirmed next-next hop, or cancels the covers of the tree and founds a tree of its own |
| NodeObject.Node.MarkPublishJobStatus | p2p/workers.go:49-61 | records the job and counts it on its path if that is still held |
| NodeObject.Node.Publish | p2p/node.go:420-497 | every way to fail changes nothing; otherwise one pending job, and the message stored directly or sent on the chosen path's connection |
| Composites.ConnectPathIsRun | p2p/node.go:325-372 | from any network a run leads to the one a whole ConnectPath leaves, child and parent as their own step functions say and the rest untouched, whether its query fails, its request or its reply is lost, or the answer arrives |
| Composites.MoveUpIsRun | p2p/workers.go:214-263 | so it is from any reachable network with MoveUp, whatever the next-next hop says and whichever of these becomes of the connect; the last resort cancels the cover workers that live when it comes |
| Composites.HealthPassIsRun | p2p/workers.go:390-405 | and with a health pass, at whatever earlier moments its answers were told |
| Composites.FixIsCalledFor | p2p/workers.go:101-109 | every FIX the network allows is one that the node's health pass calls for on the path it was given |
| Provenance.ProxyKeyIsTheProxys | p2p/node.go:299-305 | in every run, with no discipline assumed, each path of a tree carries the public key of the one node that founded it, which still proxies it |
| Provenance.NextHopHasLedThere | p2p/node.go:299-305 | the next hop of every path has itself held a path of the tree that led to what is the next-next hop, under the same proxy key |
| Provenance.RequestsOpen | p2p/handlers_tcp.go:53-69 | every connect request of a run was sealed with a cached key that is the parent's own, so it opens there and is answered |
| Provenance.WorkersForwardOwnPaths | p2p/handlers_tcp.go:193-228 | every live cover worker forwards by a path of its own tree that its node has held, with the proxy's key |
| Permanence.StoredUnderOwnId | p2p/node.go:340-362 | in every reachable network every path and half-open entry is stored under its own tree id, and exactly the paths to storage have no worker to cancel |
| Permanence.PathFate | p2p/node.go:340-367 | of all steps, a held path is dropped exactly by the exit of a worker of its tree dialled to its current next hop, replaced exactly by a commit or a fix, counted on exactly by the end of one of its jobs, and otherwise unchanged; what it becomes is told field by field |
| Permanence.SelfProxyForEver | p2p/handlers_http.go:233-243 | in every run, with no discipline assumed, a self-proxy path stays, and nothing of it changes but its counters, which only grow |
| Acyclicity.PointersFall | p2p/node.go:299-315 | join ranks fall from a node to its next hop and on to the next-next hop, for paths and half-open entries, however stale |
| Acyclicity.NoCycle | p2p/node.go:352-362 | no node of a network built by fresh joins, move-ups, fixes and drops is its own ancestor |
| Climbing.MoveUpsAreFew | p2p/workers.go:226-242 | a path that is held through peers throughout a run of fresh joins in which no step sets it back is moved up at most n - 2 times among n nodes |
| Climbing.MoveUpsAreBounded | p2p/workers.go:226-242 | in every run of fresh joins the move-ups of a path are at most the members that had joined before its next hop at the start, plus the sum of all that set it back since, new joins included |
| Climbing.HeightRisesIff | p2p/workers.go:397-400 | of all steps, exactly the commits and fixes that name a peer which joined later than the present one set a path back, and every move-up brings it forward |
| Climbing.NeverRisesIff | p2p/workers.go:397-400 | a held path never falls back in a run if and only if no step of the run is such a step |
| Scenes.LateFixSetsBack | p2p/workers.go:397-400 | from four nodes that have just started, by fresh joins, the code reaches a FIX, called for by the health pass, that sets a node back under the peer it has left for its next-next hop, whatever numbers the key exchanges draw |
| Rejoin.TurnClosesCycleIff | p2p/node.go:350-362 | turning one next hop, of a node inside or outside the tree, keeps the tree acyclic if and only if the new parent's chain does not lead to that node |
| Rejoin.StepClosesCycleIff | p2p/node.go:292-297 | of all steps of the network, exactly the commits and fixes that hang a node under a chain leading back to it take a tree's acyclicity away |
| Rejoin.AcyclicThroughoutIff | p2p/node.go:292-297 | a tree is acyclic throughout a run if and only if no step of the run is such a step |
| Scenes.LostParentClosesCycle | p2p/node.go:292-315 | a node that lost a tree while a cover of it still holds the tree joins it again below that cover, and its own answer verifies the offer |
| Scenes.RejoinReachesCycle | p2p/node.go:292-297 | any three nodes that have just started can reach a cycle, whatever numbers the key exchanges draw |
| Links.LinkEndsAgree | p2p/node.go:350-367 | in every run every path through a peer has a link of its own, admitted where it was dialled for this node, tree and key, and while that link's worker lives the parent's cover entry is exactly this; it is a link to the next hop if and only if that was dialled |
| Links.CancellingDropsIff | p2p/workers.go:394-437 | in every reachable network, cancelling a path removes it if and only if its own worker lives and was dialled to the next hop it holds |
| Links.LinkedStepIff | p2p/handlers_tcp.go:53-62 | of all steps, exactly those that obey LinkCare keep every path dialled to its next hop, sent on its own connection and served by a live worker |
| Links.LinkedThroughoutIff | p2p/node.go:340-367 | all paths are so throughout a run if and only if every step of it obeys LinkCare |
| Scenes.MisdialledIsReached | p2p/handlers_tcp.go:53-62 | three nodes that have just started reach, by fresh joins and whole queries, a path whose next hop does not know the node, on a connection to another peer whose key was cached, for every draw of numbers |
| Scenes.DeserterIsReached | p2p/workers.go:397-400 | four nodes reach a path that a FIX, called for by the health pass, wrote back after its worker had left, for every draw of numbers |
| Links.WorkersOwnTheirCovers | p2p/workers.go:493-501 | every live worker's cover entry is its own, one worker per cover and parent, and a worker's exit takes no other worker's entry |
| Health.PassIsHealthPass | p2p/workers.go:76-121 | with truthful answers the node's health pass copies the pointers of a next hop that holds the tree, and lets exactly those other paths go whose own worker lives and was dialled there |
| Health.LeavingAtOnceIsHealed | p2p/workers.go:394-400 | what a pass writes, and the exits of the workers it cancels, amount to that pass when nothing comes in between |
| Health.PassAlone | p2p/workers.go:390-405 | a pass that nothing comes in between works on the network as it is, and cancels exactly the workers of the paths whose next hop does not hold the tree |
| Health.Stabilises | p2p/workers.go:390-406 | after k fair rounds, the reads, writes and worker exits of different passes interleaved in any order within a round, a path k hops from its proxy has that proxy's key and its parent's next hop, and it stays so |
| Health.OrphansLeaveIff | p2p/workers.go:93-117 | after k such rounds a node k hops from a dead end still holds the tree if and only if some path up to that end has no live worker dialled to its next hop |
| Health.RoundCanEnd | p2p/workers.go:390-437 | however fair rounds have gone and whatever events begin the next one, it can be completed to a fair one, after which every cancelled worker has left |
| Recovery.Recovers | p2p/workers.go:370-405 | after any run of fresh joins and any set of crashes, n fair rounds leave a path if and only if its chain ends at a proxy, and then right, or is stuck at a path that cancelling cannot remove, which LinkCare rules out |
| Recovery.MisdialledOrphanStays | p2p/workers.go:433-437 | by fresh joins the code reaches a path that outlasts all health rounds although its next hop has stopped |
| Recovery.DesertedOrphanStays | p2p/workers.go:397-400 | so does a path written back after its worker had left |
| MoveUpRace.RaceDecided | p2p/workers.go:431-437 | for every placement of the worker's read and delete, every address it was dialled to and every cached entry: exactly when a successful move-up keeps its path, and where it leads, exactly when any other outcome keeps the old one, and which covers leave |
| MoveUpRace.OneUpIff | p2p/handlers_tcp.go:53-62 | a path that a move-up keeps is one hop up if and only if the query brought an offer of the tree or the cached entry was recorded for the next-next hop |
| MoveUpRace.MovedAndLost | p2p/workers.go:431-437 | an accepted move-up whose old worker reads before the connect and deletes after it succeeds and loses its path |
| MoveUpRace.MovedElsewhere | p2p/handlers_tcp.go:53-62 | an accepted move-up with a cached entry for another peer succeeds and leads to that peer |
| MoveUpRace.BothHappen | p2p/workers.go:226-242 | an input of each kind |
| MoveUpRace.AtomicCleanUpIff | p2p/workers.go:433-437 | with read and delete in one access and a worker dialled to the old next hop, the tree is held exactly after a successful move-up, unless the clean-up follows a connect whose entry names that hop again |
| Delivery.PayloadIsKept | p2p/workers.go:166-210 | over any chain with any keys and profiles, each hop passes the sealed payload on unchanged or ends the journey, and only the seal's owner with a path to storage stores it |
| Delivery.PublishedIsDeliveredIff | p2p/node.go:504-545 | the last station alone stores exactly what was published if and only if link keys agree and work, relays lack the sealing key and can send, and the end owns it and can store |
| Delivery.PublishReachesProxy | p2p/node.go:466-487 | in any reachable network of nodes with distinct keys, a publish over any number of live links to a proxy is stored by the tree's founder, as published |
| Traffic.MessagesAreConserved | p2p/workers.go:136-210 | in every run every message sent is in exactly one of in flight, dropped and stored, and no message is stored twice |
| Traffic.StepsAreSends | p2p/node.go:443-487 | a message is in flight or stored exactly when a publish sent or stored it, or a cover worker with a usable key sent it |
| Traffic.OnlyPublishedIsStored | p2p/node.go:434-487 | every Store call is for a message published with a valid key, as published, by the owner of the key that sealed it |
| Traffic.TravelIsJourney | p2p/workers.go:136-210 | a message in flight that is handed along a chain of workers makes the journey of `Delivery`, and ends stored, dropped or in flight as its last hop says |
| Traffic.CoverMessagesEnd | p2p/workers.go:153-156 | at any time of any run, delivering a cover message ends it |
| Jobs.CountersAreConserved | p2p/workers.go:323-366 | in every run the counters of a path are its successes and time-outs since installation, a job ends at most once, and the blacklist is exactly the paths with enough time-outs |
| Jobs.StaleFixIsRightIff | p2p/workers.go:397-400 | whatever happens between the read and the write of FIX, the counters are right afterwards if and only if no job of that path has ended since or, when the path was installed anew in between, exactly as many have ended since, successes and time-outs apart, as the old counters say |
| Jobs.OldFailuresComeBack | p2p/workers.go:397-400 | a path with time-outs that is installed anew before FIX writes gets them back though none has happened since, and is blacklisted again if it was |
| Jobs.PathStepsCountNothing | p2p/workers.go:397-400 | a FIX at once and a removal change the path they are for, and count nothing |
| Jobs.PublishedIsCounted | p2p/node.go:488-494 | a message published on a path whose job ends later, whatever comes in between, counts one success or time-out on exactly that path |
| Jobs.TimeOutsBlacklist | p2p/workers.go:63-74 | as many undiscovered publishes as the threshold asks for bring any path that can be published on onto the blacklist |
| Jobs.SelfProxyCanBeBlacklisted | p2p/workers.go:378-381 | undiscovered direct stores bring a self-proxy path, which has no cancel function, onto the blacklist |
| Admission.CoversAreBounded | p2p/handlers_tcp.go:181-211 | with at most k handlers between check and insert, covers and those handlers together never exceed the maximum plus k - 1 |
| Admission.BoundIsReached | p2p/handlers_tcp.go:256-303 | that bound is met with equality, for every maximum and every k |
| Admission.OwnedIff | p2p/handlers_tcp.go:181-211 | all covers belong to their workers throughout a run if and only if no handler inserts at an address another admission uses |
| Admission.UninterruptedIsHandleCreateProxy | p2p/handlers_tcp.go:241-303 | an admission nobody interrupts, by a node without a path to storage, is the whole create-proxy handler |
| Admission.WorkersAreBounded | p2p/workers.go:493-501 | with handlers that take turns there are no more workers than the maximum of covers, each finding its own entry when it leaves |
| Admission.WorkersAreUnbounded | p2p/workers.go:495-501 | with two handlers at once any number of workers can serve one address while the node counts no cover |
| Admission.ServedIff | p2p/handlers_tcp.go:193-228 | every cover entry has a handler or worker serving it throughout a run if and only if no answer is lost whose entry is still the handler's own |
| Admission.AbandonedIsReached | p2p/handlers_tcp.go:223-228 | a node reaches an entry that nobody serves with its very first visitor, handlers taking turns |
| Admission.AbandonedForEver | p2p/handlers_tcp.go:181-185 | no later step removes or replaces such an entry, and its address is never admitted again |
| KeepAlive.NeverTimesOutIff | p2p/workers.go:447-489 | a child that keeps sending is never timed out, whatever the delays within their bounds, if and only if sending interval (or start-up) plus encoding plus travel is below the receiving interval |
| KeepAlive.LastArrives | p2p/workers.go:447-489 | each message is sent when it and all before it are encoded and the intervals between them have passed, and arrives in order |
| KeepAlive.SilenceEnds | p2p/workers.go:508-540 | while the connection stays open, after the last message the cover goes exactly when what is still to be handled of the messages is done and one receiving interval has passed, never before the first interval is over, and an earlier time-out falls exactly where it would have without the message that came too late |
| KeepAlive.NoBacklog | p2p/workers.go:522-528 | when each message is handled before the next comes in, only the last one is still to be handled |

## Left out

- TCP, gob, dialling, connection deadlines and response timeouts: a request ends in a response or an error. The connection deadlines lie a minute beyond the intervals of `KeepAlive`.
- Inside of AES-GCM, ECIES and prime generation: library code, symbolic here. Primality and randomness play no part in the proofs.
- The random choice of peer and path and the timeout in getMorePaths (p2p/workers.go:266-317): `Overlay` lets any node ask any peer at any time.
- The generic MutexMap class: each locked access is one atomic step on a map field. Deadlocks between locks held during network calls are not modelled.
- gRPC clients, HTTP handlers other than "become proxy", JSON, logging and configuration loading: they change no protocol state.
- The polling inside checkPublishJobStatusWorker: a job ends as SUCCESS or TIMEOUT at an arbitrary moment.
- Two create-proxy handlers that both find no proxy path before either founds one: `Admission` interleaves the cover checks, not the proxy check. The network theorems allow a node to proxy several trees.
- Real messages in `KeepAlive`: they restart the parent's timer as cover messages do and only postpone a time-out.
- Removal from openConnections: the code never removes an entry, and neither does the model.
- Climbing.MoveUpsAreFew: speaks of runs in which the path is not dropped and joined anew and no step sets it back, because a late FIX does undo a move-up (`Scenes.LateFixSetsBack`). For all runs there is `Climbing.MoveUpsAreBounded`.
- Delivery.PublishReachesProxy: a live link needs its worker's forwarding profile to be its parent's current path, because the code captures the profile when the worker starts (p2p/workers.go:526-527), and the path to be that of the connection messages are sent on. That nodes draw distinct key pairs is assumed.
- Health.Stabilises: speaks of one tree at a time, so what a pass hears of that tree's next hop is one answer; nothing is said about passes that straddle two rounds, nor about cancelled workers that have not left when a round ends.
- KeepAlive.SilenceEnds: the end of a worker whose connection closes (p2p/workers.go:530) is not timed; it comes at once.
- The blacklist loop's call of a nil cancelFunc: class Node has no method that would make it, and CLEAN reports require a worker to cancel, which every reachable path through a peer has (`Permanence.StoredUnderOwnId`).
