/** Job accounting on one node: publish jobs, the counters of each path, and the blacklist they feed. */
module Jobs {
  import opened Profiles
  import opened Envelope
  import opened NodeSteps
  import opened NodeLaws
  import KeyExchange

  datatype Event = Installed(path: Uuid) | Finished(job: JobId, path: Uuid, status: JobStatus)

  /** `running` are the jobs whose checkPublishJobStatusWorker has not ended; `log` is the history. */
  datatype Book = Book(s: NodeState, running: set<JobId>, log: seq<Event>)

  datatype Label =
    | Start(job: JobId, data: DataMessage, valid: bool, path: Uuid, storeOk: bool, sendOk: bool)
    | Finish(job: JobId, status: JobStatus)
    | Install(entry: Path)
    | Remove(path: Uuid)
    | FixNow(path: Uuid, offer: Offer)

  predicate Enabled(b: Book, l: Label) {
    match l
    case Start(job, _, _, _, _, _) => job !in b.s.jobs
    case Finish(job, status) => job in b.running && job in b.s.jobs && status != PENDING
    case Install(p) => p.successCount == p.failureCount == 0
    case Remove(_) => true
    case FixNow(id, _) => id in b.s.paths
  }

  function Step(b: Book, l: Label): Book
    requires Enabled(b, l)
  {
    match l
    case Start(job, data, valid, path, storeOk, sendOk) =>
      var (t, outcome) := Publish(b.s, data, valid, path, job, storeOk, sendOk);
      b.(s := t, running := if outcome.Kept? || outcome.Sent? then b.running + {job} else b.running)
    case Finish(job, status) =>
      var done := b.s.jobs[job].(status := status);
      Book(MarkJob(b.s, job, done), b.running - {job}, b.log + [Finished(job, done.onPath, status)])
    case Install(p) => b.(s := b.s.(paths := b.s.paths[p.uuid := p]), log := b.log + [Installed(p.uuid)])
    case Remove(id) => b.(s := DropPath(b.s, id))
    case FixNow(id, offer) => b.(s := Repair(b.s, b.s.paths[id], offer))
  }

  /** Every way in which a path is installed is an Install: under its own id, with both counters at zero. */
  lemma InstallsStartAtZero(s: NodeState, id: Uuid, ip: Ip, key: Secret, conn: Connection, proxyPublic: PublicKey)
    requires id in s.halfOpen ==> s.halfOpen[id].uuid == id
    ensures BecomeProxy(s, id).paths == s.paths[id := SelfProxyPath(id, s.publicKey, 0)]
    ensures FoundTree(s, id, key).paths == s.paths[id := SelfProxyPath(id, s.publicKey, key)]
    ensures var p := CommitProxyPath(s, ip, id, proxyPublic, key, conn.id).paths[id];
            && CommitProxyPath(s, ip, id, proxyPublic, key, conn.id).paths == s.paths[p.uuid := p]
            && p.uuid == id && p.successCount == p.failureCount == 0
    ensures id in s.halfOpen ==>
              var p := CommitPath(s, id, key, conn).paths[id];
              && CommitPath(s, id, key, conn).paths == s.paths[p.uuid := p]
              && p.uuid == id && p.successCount == p.failureCount == 0
  {
  }

  /** What happens to paths between jobs counts nothing: a FIX at once turns the held path to the offer's next-next hop
      and key, a removal takes one path away. */
  lemma PathStepsCountNothing(b: Book, id: Uuid, offer: Offer)
    ensures Step(b, Remove(id)) == b.(s := b.s.(paths := b.s.paths - {id}))
    ensures id in b.s.paths && b.s.paths[id].uuid == id ==>
              var was := b.s.paths[id];
              Step(b, FixNow(id, offer))
              == b.(s := b.s.(paths := b.s.paths[id := was.(next2 := offer.nextHop, proxyPublic := offer.proxyPublic)]))
  {
  }

  // ---- What the history says ----

  /** Jobs on the path that ended with the status since the path was last installed. */
  function Tally(log: seq<Event>, id: Uuid, status: JobStatus): nat {
    if log == [] then 0
    else
      var n := |log| - 1;
      match log[n]
      case Installed(p) => if p == id then 0 else Tally(log[..n], id, status)
      case Finished(_, p, st) => (if p == id && st == status then 1 else 0) + Tally(log[..n], id, status)
  }

  function Endings(log: seq<Event>, job: JobId): nat {
    if log == [] then 0
    else
      var n := |log| - 1;
      (if log[n].Finished? && log[n].job == job then 1 else 0) + Endings(log[..n], job)
  }

  predicate CountsRight(p: Path, log: seq<Event>, id: Uuid) {
    p.uuid == id && p.successCount == Tally(log, id, SUCCESS) && p.failureCount == Tally(log, id, TIMEOUT)
  }

  predicate JobRight(b: Book, j: JobId) {
    && (j in b.running <==> j in b.s.jobs && b.s.jobs[j].status == PENDING)
    && Endings(b.log, j) == if j in b.s.jobs && b.s.jobs[j].status != PENDING then 1 else 0
  }

  ghost predicate Inv(b: Book) {
    && (forall id :: id in b.s.paths ==> CountsRight(b.s.paths[id], b.log, id))
    && (forall j :: JobRight(b, j))
  }

  lemma Appended(log: seq<Event>, e: Event)
    ensures (log + [e])[..|log|] == log
  {
  }

  lemma StartKeepsInv(b: Book, l: Label)
    requires Inv(b) && Enabled(b, l) && l.Start?
    ensures Inv(Step(b, l))
  {
    var after := Step(b, l);
    assert JobRight(b, l.job);
    assert after.s.paths == b.s.paths && after.log == b.log;
    forall j ensures JobRight(after, j) {
      assert JobRight(b, j);
    }
  }

  lemma FinishKeepsInv(b: Book, l: Label)
    requires Inv(b) && Enabled(b, l) && l.Finish?
    ensures Inv(Step(b, l))
  {
    var after := Step(b, l);
    var e := Finished(l.job, b.s.jobs[l.job].onPath, l.status);
    Appended(b.log, e);
    forall id | id in after.s.paths ensures CountsRight(after.s.paths[id], after.log, id) {
      assert CountsRight(b.s.paths[id], b.log, id);
    }
    forall j ensures JobRight(after, j) {
      assert JobRight(b, j);
    }
  }

  lemma InstallKeepsInv(b: Book, l: Label)
    requires Inv(b) && Enabled(b, l) && l.Install?
    ensures Inv(Step(b, l))
  {
    var after := Step(b, l);
    Appended(b.log, Installed(l.entry.uuid));
    forall id | id in after.s.paths ensures CountsRight(after.s.paths[id], after.log, id) {
      assert id != l.entry.uuid ==> CountsRight(b.s.paths[id], b.log, id);
    }
    forall j ensures JobRight(after, j) {
      assert JobRight(b, j);
    }
  }

  lemma StepKeepsInv(b: Book, l: Label)
    requires Inv(b) && Enabled(b, l)
    ensures Inv(Step(b, l))
  {
    match l
    case Start(_, _, _, _, _, _) => StartKeepsInv(b, l);
    case Finish(_, _) => FinishKeepsInv(b, l);
    case Install(_) => InstallKeepsInv(b, l);
    case Remove(_) =>
      forall j ensures JobRight(Step(b, l), j) {
        assert JobRight(b, j);
      }
    case FixNow(id, _) =>
      assert CountsRight(b.s.paths[id], b.log, id);
      forall j ensures JobRight(Step(b, l), j) {
        assert JobRight(b, j);
      }
  }

  // ---- Runs ----

  ghost predicate Legal(b: Book, run: seq<Label>)
    decreases run
  {
    run == [] || (Enabled(b, run[0]) && Legal(Step(b, run[0]), run[1..]))
  }

  ghost function End(b: Book, run: seq<Label>): Book
    requires Legal(b, run)
    decreases run
  {
    if run == [] then b else End(Step(b, run[0]), run[1..])
  }

  lemma {:induction false} InvThroughRun(b: Book, run: seq<Label>)
    requires Inv(b) && Legal(b, run)
    ensures Inv(End(b, run))
    decreases run
  {
    if run != [] {
      StepKeepsInv(b, run[0]);
      InvThroughRun(Step(b, run[0]), run[1..]);
    }
  }

  predicate Opening(b: Book) {
    b.s.paths == map[] && b.s.jobs == map[] && b.running == {} && b.log == []
  }

  /** In every run the counters of a held path are the numbers of its jobs that succeeded and timed out since it was
      last installed, each job has ended at most once, and the blacklist holds exactly the paths with at least
      threshold such timeouts. */
  lemma CountersAreConserved(b: Book, run: seq<Label>, id: Uuid, j: JobId)
    requires Opening(b) && Legal(b, run)
    ensures var after := End(b, run);
            && (id in after.s.paths ==>
                  && after.s.paths[id].successCount == Tally(after.log, id, SUCCESS)
                  && after.s.paths[id].failureCount == Tally(after.log, id, TIMEOUT))
            && (id in Blacklist(after.s) <==>
                  id in after.s.paths && Tally(after.log, id, TIMEOUT) >= after.s.config.failureThreshold)
            && Endings(after.log, j) <= 1
            && (Endings(after.log, j) == 1 <==> j in after.s.jobs && after.s.jobs[j].status != PENDING)
  {
    InvThroughRun(b, run);
    var after := End(b, run);
    assert JobRight(after, j);
    assert id in after.s.paths ==> CountsRight(after.s.paths[id], after.log, id);
  }

  // ---- FIX that writes back an old value ----

  predicate Installs(l: Label, id: Uuid) {
    l.Install? && l.entry.uuid == id
  }

  predicate Reinstalls(run: seq<Label>, id: Uuid) {
    exists i :: 0 <= i < |run| && Installs(run[i], id)
  }

  /** A job on this path ends with the status. */
  predicate Ends(b: Book, l: Label, id: Uuid, status: JobStatus) {
    l.Finish? && l.status == status && l.job in b.s.jobs && b.s.jobs[l.job].onPath == id
  }

  /** The jobs on the path that end with the status in the run, after the last installation of the path in it. */
  ghost function Ended(b: Book, run: seq<Label>, id: Uuid, status: JobStatus): nat
    requires Legal(b, run)
    decreases run
  {
    if run == [] then 0
    else
      Ended(Step(b, run[0]), run[1..], id, status)
      + if !Reinstalls(run[1..], id) && Ends(b, run[0], id, status) then 1 else 0
  }

  lemma ReinstallsFrom(run: seq<Label>, id: Uuid)
    requires run != []
    ensures Reinstalls(run, id) <==> Installs(run[0], id) || Reinstalls(run[1..], id)
  {
    if i :| 0 <= i < |run| && Installs(run[i], id) {
      assert i == 0 || run[1..][i - 1] == run[i];
    }
    if i :| 0 <= i < |run[1..]| && Installs(run[1..][i], id) {
      assert run[i + 1] == run[1..][i];
    }
  }

  lemma StepTallies(b: Book, l: Label, id: Uuid, status: JobStatus)
    requires Enabled(b, l)
    ensures Tally(Step(b, l).log, id, status)
         == if Installs(l, id) then 0 else Tally(b.log, id, status) + if Ends(b, l, id, status) then 1 else 0
  {
    if l.Finish? {
      Appended(b.log, Finished(l.job, b.s.jobs[l.job].onPath, l.status));
    } else if l.Install? {
      Appended(b.log, Installed(l.entry.uuid));
    }
  }

  /** What the history says of a path after a run: what it said before, unless the path was installed anew, and what
      ended since. */
  lemma {:induction false} RunTallies(b: Book, run: seq<Label>, id: Uuid, status: JobStatus)
    requires Legal(b, run)
    ensures Tally(End(b, run).log, id, status)
         == Ended(b, run, id, status) + if Reinstalls(run, id) then 0 else Tally(b.log, id, status)
    decreases run
  {
    if run != [] {
      ReinstallsFrom(run, id);
      StepTallies(b, run[0], id, status);
      RunTallies(Step(b, run[0]), run[1..], id, status);
    }
  }

  /** FIX takes a path, anything may happen while it asks the next hop, then it writes the old value back. The counters
      are right afterwards if and only if no job of the path has ended in between or, when the path was installed anew
      in between, as many have ended since, status by status, as the old counters say. */
  lemma StaleFixIsRightIff(b: Book, run: seq<Label>, id: Uuid, offer: Offer)
    requires Inv(b) && id in b.s.paths && Legal(b, run)
    ensures var was, after := b.s.paths[id], End(b, run);
            CountsRight(Repair(after.s, was, offer).paths[id], after.log, id) <==>
              if Reinstalls(run, id)
              then Ended(b, run, id, SUCCESS) == was.successCount && Ended(b, run, id, TIMEOUT) == was.failureCount
              else Ended(b, run, id, SUCCESS) == 0 && Ended(b, run, id, TIMEOUT) == 0
  {
    assert CountsRight(b.s.paths[id], b.log, id);
    RunTallies(b, run, id, SUCCESS);
    RunTallies(b, run, id, TIMEOUT);
  }

  /** A path with time-outs is installed anew while FIX waits: the old time-outs come back, though none has happened
      since, and put the path on the blacklist again if there were enough of them. */
  lemma OldFailuresComeBack(b: Book, id: Uuid, offer: Offer, anew: Path)
    requires Inv(b) && id in b.s.paths && b.s.paths[id].failureCount > 0
    requires anew.uuid == id && anew.successCount == anew.failureCount == 0
    ensures Legal(b, [Install(anew)])
    ensures var was, after := b.s.paths[id], End(b, [Install(anew)]);
            && Tally(after.log, id, TIMEOUT) == 0
            && !CountsRight(Repair(after.s, was, offer).paths[id], after.log, id)
            && (id in Blacklist(b.s) ==> id in Blacklist(Repair(after.s, was, offer)))
  {
    assert CountsRight(b.s.paths[id], b.log, id);
    StepTallies(b, Install(anew), id, TIMEOUT);
    assert [Install(anew)][1..] == [];
  }

  // ---- A published message that times out ----

  /** Node s can publish on this path: the covers suffice, and the path leads to storage or to a connected peer under a
      usable key. */
  predicate CanPublishOn(s: NodeState, id: Uuid) {
    && |s.covers| >= s.config.coversToPublish && id in s.paths
    && (s.paths[id].next == Storage || (KeyExchange.UsableKey(s.paths[id].symKey) && id in s.conns))
  }

  lemma PublishStarts(b: Book, id: Uuid, data: DataMessage, job: JobId) returns (started: Book)
    requires Inv(b) && CanPublishOn(b.s, id) && job !in b.s.jobs
    ensures Enabled(b, Start(job, data, true, id, true, true))
    ensures started == Step(b, Start(job, data, true, id, true, true)) && Inv(started)
    ensures started == b.(s := b.s.(jobs := b.s.jobs[job := Job(data.key, PENDING, id)]), running := b.running + {job})
  {
    assert CountsRight(b.s.paths[id], b.log, id);
    PublishOutcomes(b.s, data, true, id, job, true, true);
    started := Step(b, Start(job, data, true, id, true, true));
    StepKeepsInv(b, Start(job, data, true, id, true, true));
  }

  predicate NoEnd(run: seq<Label>, job: JobId) {
    forall i :: 0 <= i < |run| ==> !(run[i].Finish? && run[i].job == job)
  }

  lemma JobStays(b: Book, l: Label, job: JobId)
    requires Enabled(b, l) && job in b.running && job in b.s.jobs && !(l.Finish? && l.job == job)
    ensures job in Step(b, l).running && job in Step(b, l).s.jobs && Step(b, l).s.jobs[job] == b.s.jobs[job]
  {
    if l.Start? {
      PublishOutcomes(b.s, l.data, l.valid, l.path, l.job, l.storeOk, l.sendOk);
    }
  }

  lemma {:induction false} JobWaits(b: Book, run: seq<Label>, job: JobId)
    requires Legal(b, run) && job in b.running && job in b.s.jobs && NoEnd(run, job)
    ensures var after := End(b, run);
            job in after.running && job in after.s.jobs && after.s.jobs[job] == b.s.jobs[job]
    decreases run
  {
    if run != [] {
      JobStays(b, run[0], job);
      JobWaits(Step(b, run[0]), run[1..], job);
    }
  }

  /** A message is published on path id and its job ends at some later time, whatever has happened in between: one
      success or failure more is counted on path id, if it is still held, and on no other path. */
  lemma PublishedIsCounted(b: Book, id: Uuid, data: DataMessage, job: JobId, run: seq<Label>, status: JobStatus)
    requires Inv(b) && CanPublishOn(b.s, id) && job !in b.s.jobs && status != PENDING
    requires var start := Start(job, data, true, id, true, true);
             Enabled(b, start) && Legal(Step(b, start), run) && NoEnd(run, job)
    ensures var before := End(Step(b, Start(job, data, true, id, true, true)), run);
            && Enabled(before, Finish(job, status))
            && var after := Step(before, Finish(job, status)).s;
               && after.jobs[job] == Job(data.key, status, id) && after.paths.Keys == before.s.paths.Keys
               && (id in before.s.paths ==>
                     var p := before.s.paths[id];
                     after.paths[id] == p.(successCount := p.successCount + if status == SUCCESS then 1 else 0,
                                           failureCount := p.failureCount + if status == TIMEOUT then 1 else 0))
               && (forall k :: k in before.s.paths && k != id ==> after.paths[k] == before.s.paths[k])
  {
    var started := PublishStarts(b, id, data, job);
    JobWaits(started, run, job);
    var before := End(started, run);
    JobIsCounted(before.s, job, before.s.jobs[job].(status := status));
  }

  lemma TimeOut(b: Book, id: Uuid, job: JobId) returns (after: Book)
    requires Inv(b) && job in b.running && job in b.s.jobs && b.s.jobs[job].onPath == id && id in b.s.paths
    ensures after == Step(b, Finish(job, TIMEOUT)) && Inv(after)
    ensures after.s.paths == b.s.paths[id := b.s.paths[id].(failureCount := b.s.paths[id].failureCount + 1)]
    ensures after.s.covers == b.s.covers && after.s.config == b.s.config && after.s.jobs.Keys == b.s.jobs.Keys
    ensures after.s.conns == b.s.conns
  {
    after := Step(b, Finish(job, TIMEOUT));
    StepKeepsInv(b, Finish(job, TIMEOUT));
  }

  /** Enough publishes that are never discovered bring the path they were published on onto the blacklist. */
  lemma {:induction false} TimeOutsBlacklist(b: Book, id: Uuid, data: DataMessage, ids: seq<JobId>)
    returns (run: seq<Label>)
    requires Inv(b) && CanPublishOn(b.s, id)
    requires b.s.paths[id].failureCount + |ids| >= b.s.config.failureThreshold
    requires forall i :: 0 <= i < |ids| ==> ids[i] !in b.s.jobs
    requires forall i, j :: 0 <= i < j < |ids| ==> ids[i] != ids[j]
    ensures Legal(b, run) && id in Blacklist(End(b, run).s)
    ensures End(b, run).s.paths[id].next == b.s.paths[id].next
    decreases ids
  {
    run := [];
    if ids != [] {
      var started := PublishStarts(b, id, data, ids[0]);
      var after := TimeOut(started, id, ids[0]);
      var rest := TimeOutsBlacklist(after, id, data, ids[1..]);
      var start, finish := Start(ids[0], data, true, id, true, true), Finish(ids[0], TIMEOUT);
      run := [start] + ([finish] + rest);
      FirstTwo(b, start, finish, rest);
    }
  }

  /** A self-proxy path has no cancel function, yet the blacklist loop calls it: failureThreshold direct stores that
      are never discovered bring such a path onto the blacklist. */
  lemma SelfProxyCanBeBlacklisted(b: Book, id: Uuid, data: DataMessage, ids: seq<JobId>) returns (run: seq<Label>)
    requires Inv(b) && id in b.s.paths && b.s.paths[id].next == Storage
    requires |b.s.covers| >= b.s.config.coversToPublish
    requires b.s.paths[id].failureCount + |ids| >= b.s.config.failureThreshold
    requires forall i :: 0 <= i < |ids| ==> ids[i] !in b.s.jobs
    requires forall i, j :: 0 <= i < j < |ids| ==> ids[i] != ids[j]
    ensures Legal(b, run) && id in Blacklist(End(b, run).s) && End(b, run).s.paths[id].next == Storage
  {
    run := TimeOutsBlacklist(b, id, data, ids);
  }

  lemma FirstTwo(b: Book, l: Label, l2: Label, rest: seq<Label>)
    requires Enabled(b, l) && Enabled(Step(b, l), l2) && Legal(Step(Step(b, l), l2), rest)
    ensures Legal(b, [l] + ([l2] + rest)) && End(b, [l] + ([l2] + rest)) == End(Step(Step(b, l), l2), rest)
  {
    assert ([l] + ([l2] + rest))[1..] == [l2] + rest && ([l2] + rest)[1..] == rest;
  }
}
