/** Admission of covers at one node with its handlers interleaved. A handler looks the requester up, counts
    the covers, inserts, and answers, each of them one atomic access; in between anything may happen. */
module Admission {
  import opened Profiles
  import NodeSteps
  import KeyExchange

  /** How far a handler has come; after its answer it is the worker that serves the cover. */
  datatype Phase = Looked | Counted | Inserted | Serving

  datatype Handler = Handler(cover: CoverNode, phase: Phase)

  /** `handlers` are the admissions that have not been refused and have not ended, by the id of their
      connection; `used` are all ids there have been. */
  datatype Gate = Gate(covers: map<Ip, CoverNode>, handlers: map<ConnId, Handler>, used: set<ConnId>)

  const CLOSED := Gate(map[], map[], {})

  datatype Label =
    | Look(cover: CoverNode)
    | Count(h: ConnId)
    | Insert(h: ConnId)
    | Answer(h: ConnId, sent: bool)
    | Exit(h: ConnId)

  predicate In(g: Gate, h: ConnId, phase: Phase) {
    h in g.handlers && g.handlers[h].phase == phase
  }

  /** A lookup that finds the requester among the covers ends in a refusal, which changes nothing here. */
  predicate Enabled(g: Gate, l: Label) {
    match l
    case Look(cover) => cover.worker !in g.used && cover.ip !in g.covers
    case Count(h) => In(g, h, Looked)
    case Insert(h) => In(g, h, Counted)
    case Answer(h, _) => In(g, h, Inserted)
    case Exit(h) => In(g, h, Serving)
  }

  function Without(g: Gate, h: ConnId): Gate {
    g.(handlers := g.handlers - {h})
  }

  function Become(g: Gate, h: ConnId, phase: Phase): Gate
    requires h in g.handlers
  {
    g.(handlers := g.handlers[h := g.handlers[h].(phase := phase)])
  }

  function CountStep(g: Gate, max: nat, h: ConnId): Gate
    requires h in g.handlers
  {
    if |g.covers| >= max then Without(g, h) else Become(g, h, Counted)
  }

  function InsertStep(g: Gate, h: ConnId): Gate
    requires h in g.handlers
  {
    var cover := g.handlers[h].cover;
    Become(g, h, Inserted).(covers := g.covers[cover.ip := cover])
  }

  function ExitStep(g: Gate, h: ConnId): Gate
    requires h in g.handlers
  {
    Without(g, h).(covers := g.covers - {g.handlers[h].cover.ip})
  }

  /** An answer that cannot be sent ends the handler, and its entry stays behind without a worker. */
  function Step(g: Gate, max: nat, l: Label): Gate
    requires Enabled(g, l)
  {
    match l
    case Look(cover) =>
      g.(handlers := g.handlers[cover.worker := Handler(cover, Looked)], used := g.used + {cover.worker})
    case Count(h) => CountStep(g, max, h)
    case Insert(h) => InsertStep(g, h)
    case Answer(h, sent) => if sent then Become(g, h, Serving) else Without(g, h)
    case Exit(h) => ExitStep(g, h)
  }

  /** Step i of a run leads from gate i to gate i + 1. */
  ghost predicate StepAt(max: nat, gates: seq<Gate>, labels: seq<Label>, i: nat) {
    i < |labels| < |gates| ==> Enabled(gates[i], labels[i]) && gates[i + 1] == Step(gates[i], max, labels[i])
  }

  ghost predicate Run(max: nat, gates: seq<Gate>, labels: seq<Label>) {
    |gates| == |labels| + 1 && gates[0] == CLOSED && forall i: nat :: StepAt(max, gates, labels, i)
  }

  /** The handlers between their size check and their insert. */
  function AtTheDoor(g: Gate): set<ConnId> {
    set h | h in g.handlers && g.handlers[h].phase == Counted
  }

  ghost predicate CrowdAt(k: nat, gates: seq<Gate>, i: nat) {
    i < |gates| ==> |AtTheDoor(gates[i])| <= k
  }

  /** A gate reached by a run in which at most `k` handlers are ever between their size check and their insert. */
  ghost predicate Reaches(max: nat, k: nat, g: Gate) {
    exists gates, labels :: Run(max, gates, labels) && (forall i: nat :: CrowdAt(k, gates, i)) && gates[|labels|] == g
  }

  // ---- The bound ----

  lemma CrowdStep(g: Gate, max: nat, k: nat, l: Label)
    requires k >= 1 && Enabled(g, l)
    requires |AtTheDoor(Step(g, max, l))| <= k
    requires |g.covers| + |AtTheDoor(g)| <= max + k - 1
    ensures var after := Step(g, max, l); |after.covers| + |AtTheDoor(after)| <= max + k - 1
  {
    var after := Step(g, max, l);
    match l
    case Look(cover) =>
      NoneComes(g, after);
    case Count(h) =>
      if |g.covers| >= max {
        NoneComes(g, after);
      }
    case Insert(h) =>
      var ip := g.handlers[h].cover.ip;
      assert AtTheDoor(after) == AtTheDoor(g) - {h};
      assert after.covers.Keys == g.covers.Keys + {ip};
      assert |after.covers.Keys| <= |g.covers.Keys| + 1;
    case Answer(h, sent) =>
      NoneComes(g, after);
    case Exit(h) =>
      NoneComes(g, after);
      FewerEntries(g.covers, g.handlers[h].cover.ip);
  }

  lemma NoneComes(g: Gate, after: Gate)
    requires AtTheDoor(after) <= AtTheDoor(g)
    ensures |AtTheDoor(after)| <= |AtTheDoor(g)|
  {
    SubsetIsSmaller(AtTheDoor(after), AtTheDoor(g));
  }

  lemma {:induction false} SubsetIsSmaller<T>(a: set<T>, b: set<T>)
    requires a <= b
    ensures |a| <= |b|
  {
    assert b == a + (b - a);
  }

  lemma FewerEntries<T>(m: map<Ip, T>, ip: Ip)
    ensures |m - {ip}| <= |m|
  {
    assert (m - {ip}).Keys <= m.Keys;
    SubsetIsSmaller((m - {ip}).Keys, m.Keys);
    assert |(m - {ip}).Keys| == |m - {ip}| && |m.Keys| == |m|;
  }

  predicate Bounded(g: Gate, max: nat, k: nat) {
    |g.covers| + |AtTheDoor(g)| <= max + k - 1
  }

  lemma ClosedIsBounded(max: nat, k: nat, g: Gate)
    requires k >= 1 && g == CLOSED
    ensures Bounded(g, max, k)
  {
    assert AtTheDoor(g) == {};
  }

  lemma MoveKeepsBounded(g: Gate, max: nat, k: nat, l: Label, after: Gate)
    requires k >= 1 && Bounded(g, max, k) && Enabled(g, l) && after == Step(g, max, l) && |AtTheDoor(after)| <= k
    ensures Bounded(after, max, k)
  {
    CrowdStep(g, max, k, l);
  }

  lemma BoundedOn(max: nat, k: nat, gates: seq<Gate>, labels: seq<Label>, i: nat)
    requires k >= 1 && Run(max, gates, labels) && 0 < i <= |labels|
    requires CrowdAt(k, gates, i) && Bounded(gates[i - 1], max, k)
    ensures Bounded(gates[i], max, k)
  {
    assert StepAt(max, gates, labels, i - 1);
    MoveKeepsBounded(gates[i - 1], max, k, labels[i - 1], gates[i]);
  }

  lemma {:induction false} BoundedThroughRun(max: nat, k: nat, gates: seq<Gate>, labels: seq<Label>, i: nat)
    requires k >= 1 && Run(max, gates, labels) && i <= |labels|
    requires forall j: nat :: CrowdAt(k, gates, j)
    ensures Bounded(gates[i], max, k)
  {
    if i == 0 {
      ClosedIsBounded(max, k, gates[0]);
    } else {
      BoundedThroughRun(max, k, gates, labels, i - 1);
      BoundedOn(max, k, gates, labels, i);
    }
  }

  /** With at most `k` handlers between check and insert, the covers never exceed the maximum by more than
      k - 1: not at all when handlers take turns. */
  lemma CoversAreBounded(max: nat, k: nat, g: Gate)
    requires k >= 1 && Reaches(max, k, g)
    ensures |g.covers| + |AtTheDoor(g)| <= max + k - 1
  {
    var gates, labels :| Run(max, gates, labels) && (forall i: nat :: CrowdAt(k, gates, i)) && gates[|labels|] == g;
    BoundedThroughRun(max, k, gates, labels, |labels|);
  }

  // ---- The bound is reached ----

  function Address(n: nat): (ip: Ip)
    ensures |ip| == n
  {
    seq(n, i => '1')
  }

  function Visitor(n: nat): CoverNode {
    CoverNode(Address(n), 0, 0, n)
  }

  lemma Extend(max: nat, k: nat, g: Gate, l: Label)
    requires Reaches(max, k, g) && Enabled(g, l) && |AtTheDoor(Step(g, max, l))| <= k
    ensures Reaches(max, k, Step(g, max, l))
  {
    var gates, labels :| Run(max, gates, labels) && (forall i: nat :: CrowdAt(k, gates, i)) && gates[|labels|] == g;
    var gates', labels' := gates + [Step(g, max, l)], labels + [l];
    forall i: nat ensures StepAt(max, gates', labels', i) && CrowdAt(k, gates', i) {
      assert StepAt(max, gates, labels, i) && CrowdAt(k, gates, i);
    }
    assert Run(max, gates', labels') && gates'[|labels'|] == Step(g, max, l);
  }

  lemma ClosedIsReached(max: nat, k: nat)
    ensures Reaches(max, k, CLOSED)
  {
    assert AtTheDoor(CLOSED) == {};
    var labels: seq<Label> := [];
    assert Run(max, [CLOSED], labels) && forall i: nat :: CrowdAt(k, [CLOSED], i);
    assert [CLOSED][|labels|] == CLOSED;
  }

  function PhaseOf(h: ConnId, door: nat, inside: nat): Phase {
    if h < inside then Inserted else if h < door then Counted else Looked
  }

  /** The gate after `inside` visitors have been admitted and `door` more have passed their check. */
  ghost predicate Queue(g: Gate, looking: nat, door: nat, inside: nat) {
    && inside <= door <= looking
    && g.used == g.handlers.Keys
    && (forall h: nat :: h in g.handlers <==> h < looking)
    && (forall h :: h in g.handlers ==> g.handlers[h] == Handler(Visitor(h), PhaseOf(h, door, inside)))
    && g.covers.Keys == (set h: nat | h < inside :: Address(h))
  }

  lemma {:induction false} Numbers(n: nat) returns (all: set<Ip>)
    ensures all == (set h: nat | h < n :: Address(h)) && |all| == n
  {
    all := {};
    if n > 0 {
      var before := Numbers(n - 1);
      assert forall a <- before :: |a| < n - 1;
      all := before + {Address(n - 1)};
    }
  }

  ghost predicate Line(max: nat, k: nat, g: Gate, looking: nat, door: nat, inside: nat) {
    Reaches(max, k, g) && Queue(g, looking, door, inside)
  }

  function Span(from: nat, to: nat): (r: set<nat>)
    requires from <= to
    ensures |r| == to - from && forall h: nat :: h in r <==> from <= h < to
  {
    if from < to then Span(from, to - 1) + {to - 1} else {}
  }

  lemma Waiting(g: Gate, looking: nat, door: nat, inside: nat)
    requires Queue(g, looking, door, inside)
    ensures |AtTheDoor(g)| == door - inside && |g.covers| == inside
  {
    var all := Numbers(inside);
    assert |g.covers.Keys| == inside;
    assert AtTheDoor(g) == Span(inside, door);
  }

  lemma LookIntoQueue(g: Gate, max: nat, n: nat, door: nat, inside: nat)
    requires Queue(g, n, door, inside)
    ensures Enabled(g, Look(Visitor(n)))
    ensures Queue(Step(g, max, Look(Visitor(n))), n + 1, door, inside)
  {
    assert forall ip <- g.covers :: |ip| < n;
    var after := Step(g, max, Look(Visitor(n)));
    assert after.handlers == g.handlers[n := Handler(Visitor(n), Looked)];
  }

  lemma CountIntoQueue(g: Gate, max: nat, looking: nat, door: nat, inside: nat)
    requires Queue(g, looking, door, inside) && door < looking && inside < max
    ensures Enabled(g, Count(door))
    ensures Queue(Step(g, max, Count(door)), looking, door + 1, inside)
  {
    Waiting(g, looking, door, inside);
    var after := Step(g, max, Count(door));
    assert after.handlers == g.handlers[door := Handler(Visitor(door), Counted)];
  }

  lemma InsertIntoQueue(g: Gate, max: nat, looking: nat, door: nat, inside: nat)
    requires Queue(g, looking, door, inside) && inside < door
    ensures Enabled(g, Insert(inside))
    ensures Queue(Step(g, max, Insert(inside)), looking, door, inside + 1)
  {
    var after := Step(g, max, Insert(inside));
    assert after.handlers == g.handlers[inside := Handler(Visitor(inside), Inserted)];
    assert (set h: nat | h < inside + 1 :: Address(h)) == (set h: nat | h < inside :: Address(h)) + {Address(inside)};
  }

  lemma LookOne(max: nat, k: nat, g: Gate, n: nat, door: nat, inside: nat) returns (after: Gate)
    requires Line(max, k, g, n, door, inside) && door - inside <= k
    ensures Line(max, k, after, n + 1, door, inside)
  {
    after := Step(g, max, Look(Visitor(n)));
    LookIntoQueue(g, max, n, door, inside);
    Waiting(after, n + 1, door, inside);
    Extend(max, k, g, Look(Visitor(n)));
  }

  lemma CountOne(max: nat, k: nat, g: Gate, looking: nat, door: nat, inside: nat) returns (after: Gate)
    requires Line(max, k, g, looking, door, inside)
    requires door < looking && inside < max && door - inside < k
    ensures Line(max, k, after, looking, door + 1, inside)
  {
    after := Step(g, max, Count(door));
    CountIntoQueue(g, max, looking, door, inside);
    Waiting(after, looking, door + 1, inside);
    Extend(max, k, g, Count(door));
  }

  lemma InsertOne(max: nat, k: nat, g: Gate, looking: nat, door: nat, inside: nat) returns (after: Gate)
    requires Line(max, k, g, looking, door, inside) && inside < door <= inside + k
    ensures Line(max, k, after, looking, door, inside + 1)
  {
    after := Step(g, max, Insert(inside));
    InsertIntoQueue(g, max, looking, door, inside);
    Waiting(after, looking, door, inside + 1);
    Extend(max, k, g, Insert(inside));
  }

  lemma NobodyYet(max: nat, k: nat)
    ensures Line(max, k, CLOSED, 0, 0, 0)
  {
    ClosedIsReached(max, k);
    assert CLOSED.covers.Keys == (set h: nat | h < 0 :: Address(h));
  }

  lemma ComeToTheDoor(max: nat, k: nat, g: Gate, door: nat, inside: nat) returns (after: Gate)
    requires Line(max, k, g, door, door, inside) && inside <= door < inside + k && inside < max
    ensures Line(max, k, after, door + 1, door + 1, inside)
  {
    after := LookOne(max, k, g, door, door, inside);
    after := CountOne(max, k, after, door + 1, door, inside);
  }

  lemma ComeIn(max: nat, k: nat, g: Gate, inside: nat) returns (after: Gate)
    requires k >= 1 && inside < max && Line(max, k, g, inside, inside, inside)
    ensures Line(max, k, after, inside + 1, inside + 1, inside + 1)
  {
    after := ComeToTheDoor(max, k, g, inside, inside);
    after := InsertOne(max, k, after, inside + 1, inside + 1, inside);
  }

  /** `n` visitors admitted one after the other. */
  lemma {:induction false} FillUp(max: nat, k: nat, n: nat) returns (g: Gate)
    requires k >= 1 && n <= max
    ensures Line(max, k, g, n, n, n)
  {
    if n == 0 {
      g := CLOSED;
      NobodyYet(max, k);
    } else {
      var m := n - 1;
      g := FillUp(max, k, m);
      g := ComeIn(max, k, g, m);
    }
  }

  /** `more` further visitors pass the check before any of them inserts. */
  lemma {:induction false} Gather(max: nat, k: nat, inside: nat, more: nat) returns (g: Gate)
    requires k >= 1 && inside < max && more <= k
    ensures Line(max, k, g, inside + more, inside + more, inside)
  {
    if more == 0 {
      g := FillUp(max, k, inside);
    } else {
      g := Gather(max, k, inside, more - 1);
      g := ComeToTheDoor(max, k, g, inside + more - 1, inside);
    }
  }

  lemma {:induction false} LetIn(max: nat, k: nat, g: Gate, door: nat, inside: nat) returns (after: Gate)
    requires Line(max, k, g, door, door, inside) && door <= inside + k
    ensures Line(max, k, after, door, door, door)
    decreases door - inside
  {
    after := g;
    if inside < door {
      after := InsertOne(max, k, after, door, door, inside);
      after := LetIn(max, k, after, door, inside + 1);
    }
  }

  /** The bound is tight: for every maximum and every `k` some run with at most `k` at the door reaches it. */
  lemma BoundIsReached(max: nat, k: nat) returns (g: Gate)
    requires max >= 1 && k >= 1
    ensures Reaches(max, k, g) && |g.covers| == max + k - 1
  {
    var all := max - 1 + k;
    g := Gather(max, k, max - 1, k);
    g := LetIn(max, k, g, all, max - 1);
    Waiting(g, all, all, all);
  }

  // ---- Ownership ----

  predicate Live(g: Gate, h: ConnId) {
    In(g, h, Inserted) || In(g, h, Serving)
  }

  /** Admissions and entries carry the names they are stored under. */
  ghost predicate Named(g: Gate) {
    && (forall h :: h in g.handlers ==> g.handlers[h].cover.worker == h && h in g.used)
    && (forall ip :: ip in g.covers ==> g.covers[ip].ip == ip)
  }

  /** Every admission that has inserted finds its own profile under its address. */
  ghost predicate Owned(g: Gate) {
    forall h :: Live(g, h) ==> HasEntry(g, g.handlers[h].cover)
  }

  predicate HasEntry(g: Gate, cover: CoverNode) {
    cover.ip in g.covers && g.covers[cover.ip] == cover
  }

  /** An address that some admission is already using. */
  ghost predicate Taken(g: Gate, ip: Ip) {
    exists h :: Live(g, h) && g.handlers[h].cover.ip == ip
  }

  ghost predicate Overwrites(g: Gate, l: Label) {
    l.Insert? && In(g, l.h, Counted) && Taken(g, g.handlers[l.h].cover.ip)
  }

  lemma InsertOwnsIff(g: Gate, h: ConnId)
    requires In(g, h, Counted) && Named(g) && Owned(g)
    ensures Owned(InsertStep(g, h)) <==> !Taken(g, g.handlers[h].cover.ip)
  {
    var after, cover := InsertStep(g, h), g.handlers[h].cover;
    assert after.covers == g.covers[cover.ip := cover];
    if Taken(g, cover.ip) {
      var i :| Live(g, i) && g.handlers[i].cover.ip == cover.ip;
      assert Live(after, i) && after.handlers[i].cover.worker == i;
      assert !HasEntry(after, after.handlers[i].cover);
    } else {
      forall i | Live(after, i) ensures HasEntry(after, after.handlers[i].cover) {
        assert i != h ==> Live(g, i);
      }
    }
  }

  lemma ExitOwns(g: Gate, h: ConnId)
    requires In(g, h, Serving) && Named(g) && Owned(g)
    ensures Owned(ExitStep(g, h))
  {
    var after, cover := ExitStep(g, h), g.handlers[h].cover;
    forall i | Live(after, i) ensures HasEntry(after, after.handlers[i].cover) {
      assert Live(g, i) && Live(g, h) && HasEntry(g, cover) && g.handlers[i].cover != cover;
    }
  }

  lemma QuietStepOwns(g: Gate, max: nat, l: Label)
    requires Enabled(g, l) && Owned(g) && !l.Insert? && !l.Exit?
    ensures Owned(Step(g, max, l))
  {
    var after := Step(g, max, l);
    assert after.covers == g.covers;
    forall h | Live(after, h) ensures HasEntry(after, after.handlers[h].cover) {
      assert Live(g, h) && HasEntry(g, g.handlers[h].cover);
    }
  }

  lemma NamedStep(g: Gate, max: nat, l: Label)
    requires Enabled(g, l) && Named(g)
    ensures Named(Step(g, max, l))
  {
  }

  lemma OwnedStepIff(g: Gate, max: nat, l: Label)
    requires Enabled(g, l) && Named(g) && Owned(g)
    ensures Owned(Step(g, max, l)) <==> !Overwrites(g, l)
  {
    if l.Insert? {
      InsertOwnsIff(g, l.h);
      assert Step(g, max, l) == InsertStep(g, l.h);
    } else if l.Exit? {
      ExitOwns(g, l.h);
      assert Step(g, max, l) == ExitStep(g, l.h);
    } else {
      QuietStepOwns(g, max, l);
    }
  }

  lemma {:induction false} NamesAreKept(max: nat, gates: seq<Gate>, labels: seq<Label>, i: nat)
    requires Run(max, gates, labels) && i <= |labels|
    ensures Named(gates[i])
  {
    if i > 0 {
      NamesAreKept(max, gates, labels, i - 1);
      assert StepAt(max, gates, labels, i - 1);
      NamedStep(gates[i - 1], max, labels[i - 1]);
    }
  }

  ghost predicate OwnedThroughout(gates: seq<Gate>) {
    forall i :: 0 <= i < |gates| ==> Owned(gates[i])
  }

  ghost predicate NeverOverwrites(gates: seq<Gate>, labels: seq<Label>) {
    forall i :: 0 <= i < |labels| < |gates| ==> !Overwrites(gates[i], labels[i])
  }

  lemma {:induction false} OwnedUpTo(max: nat, gates: seq<Gate>, labels: seq<Label>, i: nat)
    requires Run(max, gates, labels) && i <= |labels| && NeverOverwrites(gates, labels)
    ensures Owned(gates[i])
  {
    if i > 0 {
      OwnedUpTo(max, gates, labels, i - 1);
      NamesAreKept(max, gates, labels, i - 1);
      assert StepAt(max, gates, labels, i - 1);
      OwnedStepIff(gates[i - 1], max, labels[i - 1]);
    }
  }

  /** Covers belong to their workers all through a run exactly when no handler inserts at an address that
      another admission already uses. */
  lemma OwnedIff(max: nat, gates: seq<Gate>, labels: seq<Label>)
    requires Run(max, gates, labels)
    ensures OwnedThroughout(gates) <==> NeverOverwrites(gates, labels)
  {
    if NeverOverwrites(gates, labels) {
      forall i | 0 <= i < |gates| ensures Owned(gates[i]) {
        OwnedUpTo(max, gates, labels, i);
      }
    } else {
      var i :| 0 <= i < |labels| && Overwrites(gates[i], labels[i]);
      NamesAreKept(max, gates, labels, i);
      assert StepAt(max, gates, labels, i);
      if Owned(gates[i]) {
        OwnedStepIff(gates[i], max, labels[i]);
        assert !Owned(gates[i + 1]);
      }
    }
  }

  // ---- Handlers that take turns ----

  predicate Undecided(g: Gate, h: ConnId) {
    In(g, h, Looked) || In(g, h, Counted)
  }

  ghost predicate TurnAt(gates: seq<Gate>, i: nat) {
    i < |gates| ==> forall h, h' :: Undecided(gates[i], h) && Undecided(gates[i], h') ==> h == h'
  }

  /** A run in which each admission is decided and inserted before the next one starts. */
  ghost predicate Turns(max: nat, gates: seq<Gate>, labels: seq<Label>) {
    Run(max, gates, labels) && forall i: nat :: TurnAt(gates, i)
  }

  lemma TurnsAreNoCrowd(gates: seq<Gate>, i: nat)
    requires TurnAt(gates, i)
    ensures CrowdAt(1, gates, i)
  {
    if i < |gates| {
      var door := AtTheDoor(gates[i]);
      if h :| h in door {
        assert forall h' <- door :: Undecided(gates[i], h');
        assert door == {h};
      }
    }
  }

  ghost predicate Untaken(g: Gate) {
    forall h :: Undecided(g, h) ==> g.handlers[h].cover.ip !in g.covers
  }

  lemma TurnStep(g: Gate, max: nat, l: Label)
    requires Enabled(g, l) && Named(g) && Owned(g) && Untaken(g)
    requires forall h, i :: Undecided(g, h) && Undecided(g, i) ==> h == i
    ensures Owned(Step(g, max, l)) && Untaken(Step(g, max, l))
  {
    if l.Insert? {
      assert Undecided(g, l.h);
    }
    OwnedStepIff(g, max, l);
    var after := Step(g, max, l);
    forall h | Undecided(after, h)
      ensures after.handlers[h].cover.ip !in after.covers
    {
      assert l.Look? || Undecided(g, h);
    }
  }

  lemma {:induction false} TurnsKeepOwners(max: nat, gates: seq<Gate>, labels: seq<Label>, i: nat)
    requires Turns(max, gates, labels) && i <= |labels|
    ensures Owned(gates[i]) && Untaken(gates[i])
  {
    if i > 0 {
      TurnsKeepOwners(max, gates, labels, i - 1);
      NamesAreKept(max, gates, labels, i - 1);
      assert StepAt(max, gates, labels, i - 1) && TurnAt(gates, i - 1);
      TurnStep(gates[i - 1], max, labels[i - 1]);
    }
  }

  function LiveOnes(g: Gate): set<ConnId> {
    set h | h in g.handlers && Live(g, h)
  }

  lemma {:induction false} DistinctAddresses(g: Gate, ids: set<ConnId>)
    requires Named(g) && Owned(g) && ids <= LiveOnes(g)
    ensures |ids| == |set h | h in ids :: g.handlers[h].cover.ip|
    decreases ids
  {
    if h :| h in ids {
      DistinctAddresses(g, ids - {h});
      var ip := g.handlers[h].cover.ip;
      var others := set i | i in ids - {h} :: g.handlers[i].cover.ip;
      if ip in others {
        assert false;
      }
      assert (set i | i in ids :: g.handlers[i].cover.ip) == others + {ip};
    }
  }

  lemma LiveOnesAreFew(g: Gate)
    requires Named(g) && Owned(g)
    ensures |LiveOnes(g)| <= |g.covers|
  {
    DistinctAddresses(g, LiveOnes(g));
    var addresses := set h | h in LiveOnes(g) :: g.handlers[h].cover.ip;
    assert addresses <= g.covers.Keys;
    SubsetIsSmaller(addresses, g.covers.Keys);
  }

  /** When handlers take turns, there are never more workers than the configured maximum of covers, and each of
      them finds its own entry under its address. */
  lemma WorkersAreBounded(max: nat, gates: seq<Gate>, labels: seq<Label>, i: nat)
    requires Turns(max, gates, labels) && i <= |labels|
    ensures |LiveOnes(gates[i])| <= |gates[i].covers| <= max
    ensures forall h :: In(gates[i], h, Serving) ==>
              HasEntry(gates[i], gates[i].handlers[h].cover) && gates[i].handlers[h].cover.worker == h
  {
    TurnsKeepOwners(max, gates, labels, i);
    NamesAreKept(max, gates, labels, i);
    LiveOnesAreFew(gates[i]);
    forall j: nat ensures CrowdAt(1, gates, j) {
      assert TurnAt(gates, j);
      TurnsAreNoCrowd(gates, j);
    }
    BoundedThroughRun(max, 1, gates, labels, i);
    assert forall h :: In(gates[i], h, Serving) ==> Live(gates[i], h);
  }

  // ---- Answers that cannot be sent ----

  /** An entry that no admission uses or is about to replace. */
  ghost predicate Abandoned(g: Gate, ip: Ip) {
    ip in g.covers && forall h :: h in g.handlers ==> g.handlers[h].cover.ip != ip
  }

  lemma AbandonedStep(g: Gate, max: nat, l: Label, ip: Ip)
    requires Enabled(g, l) && Abandoned(g, ip)
    ensures Abandoned(Step(g, max, l), ip) && Step(g, max, l).covers[ip] == g.covers[ip]
  {
  }

  predicate ServedEntry(g: Gate, ip: Ip)
    requires ip in g.covers
  {
    var cover := g.covers[ip];
    Live(g, cover.worker) && g.handlers[cover.worker].cover == cover
  }

  /** Every entry belongs to an admission that is serving it, or still on its way to. */
  ghost predicate Served(g: Gate) {
    forall ip :: ip in g.covers ==> ServedEntry(g, ip)
  }

  /** An answer that cannot be sent, while the entry is still the handler's own. */
  predicate LosesServer(g: Gate, l: Label) {
    l.Answer? && !l.sent && In(g, l.h, Inserted) && HasEntry(g, g.handlers[l.h].cover)
  }

  lemma ExitKeepsServed(g: Gate, h: ConnId)
    requires In(g, h, Serving) && Named(g) && Served(g)
    ensures Served(ExitStep(g, h))
  {
    var after := ExitStep(g, h);
    forall ip | ip in after.covers ensures ServedEntry(after, ip) {
      assert ServedEntry(g, ip);
    }
  }

  lemma AnswerServesIff(g: Gate, max: nat, h: ConnId, sent: bool)
    requires In(g, h, Inserted) && Named(g) && Served(g)
    ensures Served(Step(g, max, Answer(h, sent))) <==> !LosesServer(g, Answer(h, sent))
  {
    var after, cover := Step(g, max, Answer(h, sent)), g.handlers[h].cover;
    if LosesServer(g, Answer(h, sent)) {
      assert cover.ip in after.covers && !ServedEntry(after, cover.ip);
    } else {
      forall ip | ip in after.covers ensures ServedEntry(after, ip) {
        assert ServedEntry(g, ip);
      }
    }
  }

  /** Of all steps, exactly these leave an entry that nobody serves. */
  lemma ServedStepIff(g: Gate, max: nat, l: Label)
    requires Enabled(g, l) && Named(g) && Served(g)
    ensures Served(Step(g, max, l)) <==> !LosesServer(g, l)
  {
    if l.Answer? {
      AnswerServesIff(g, max, l.h, l.sent);
    } else if l.Exit? {
      ExitKeepsServed(g, l.h);
      assert Step(g, max, l) == ExitStep(g, l.h);
    } else {
      var after := Step(g, max, l);
      forall ip | ip in after.covers ensures ServedEntry(after, ip) {
        assert ip in g.covers ==> ServedEntry(g, ip);
      }
    }
  }

  ghost predicate LosesAt(gates: seq<Gate>, labels: seq<Label>, i: nat) {
    i < |labels| < |gates| && LosesServer(gates[i], labels[i])
  }

  ghost predicate ServedAt(gates: seq<Gate>, i: nat) {
    i < |gates| ==> Served(gates[i])
  }

  lemma {:induction false} ServedUpTo(max: nat, gates: seq<Gate>, labels: seq<Label>, i: nat)
    requires Run(max, gates, labels) && i <= |labels| && forall j: nat :: !LosesAt(gates, labels, j)
    ensures Served(gates[i])
  {
    if i > 0 {
      ServedUpTo(max, gates, labels, i - 1);
      NamesAreKept(max, gates, labels, i - 1);
      assert StepAt(max, gates, labels, i - 1) && !LosesAt(gates, labels, i - 1);
      ServedStepIff(gates[i - 1], max, labels[i - 1]);
    }
  }

  /** Every entry has somebody to serve it throughout a run exactly when no answer of the run is lost whose entry is
      still the handler's own. */
  lemma ServedIff(max: nat, gates: seq<Gate>, labels: seq<Label>)
    requires Run(max, gates, labels)
    ensures (forall i: nat :: ServedAt(gates, i)) <==> (forall i: nat :: !LosesAt(gates, labels, i))
  {
    if forall i: nat :: !LosesAt(gates, labels, i) {
      forall i: nat ensures ServedAt(gates, i) {
        if i < |gates| {
          ServedUpTo(max, gates, labels, i);
        }
      }
    } else {
      var i: nat :| LosesAt(gates, labels, i);
      NamesAreKept(max, gates, labels, i);
      assert StepAt(max, gates, labels, i);
      if ServedAt(gates, i) {
        ServedStepIff(gates[i], max, labels[i]);
        assert !ServedAt(gates, i + 1);
      }
    }
  }

  /** The first visitor of a node may already be lost in this way. */
  lemma AbandonedIsReached(max: nat, k: nat) returns (g: Gate, ip: Ip)
    requires max >= 1 && k >= 1
    ensures Reaches(max, k, g) && Abandoned(g, ip)
  {
    var inside := FillUp(max, k, 1);
    Waiting(inside, 1, 1, 1);
    g, ip := Step(inside, max, Answer(0, false)), Address(0);
    assert ip in inside.covers.Keys;
    assert g.handlers.Keys == {} && AtTheDoor(g) == {};
    Extend(max, k, inside, Answer(0, false));
  }

  /** No later step removes or replaces an abandoned entry: it takes one of the node's places for ever, and
      its address is refused for ever. */
  lemma {:induction false} AbandonedForEver(max: nat, gates: seq<Gate>, labels: seq<Label>, i: nat, j: nat, ip: Ip)
    requires Run(max, gates, labels) && i <= j <= |labels| && Abandoned(gates[i], ip)
    ensures Abandoned(gates[j], ip) && gates[j].covers[ip] == gates[i].covers[ip]
    ensures forall cover: CoverNode :: cover.ip == ip ==> !Enabled(gates[j], Look(cover))
  {
    if i < j {
      AbandonedForEver(max, gates, labels, i, j - 1, ip);
      assert StepAt(max, gates, labels, j - 1);
      AbandonedStep(gates[j - 1], max, labels[j - 1], ip);
    }
  }

  // ---- Two handlers for one address ----

  function Twin(n: nat): CoverNode {
    CoverNode("1", 0, 0, n)
  }

  function Odds(n: nat): set<ConnId> {
    if n == 0 then {} else Odds(n - 1) + {2 * n - 1}
  }

  lemma {:induction false} OddsAreFew(n: nat)
    ensures |Odds(n)| == n && forall h :: h in Odds(n) ==> h < 2 * n
  {
    if n > 0 {
      OddsAreFew(n - 1);
    }
  }

  /** No cover at all, and the workers of `n` connections from one address. */
  ghost predicate Haunted(g: Gate, n: nat) {
    && g.covers == map[]
    && (forall h :: h in g.used ==> h < 2 * n)
    && g.handlers.Keys == Odds(n)
    && (forall h :: h in g.handlers ==> g.handlers[h] == Handler(Twin(h), Serving))
  }

  /** Two steps in a row that leave nobody but `a` and `b` at the door. */
  ghost predicate Moves(g: Gate, max: nat, l: Label, l2: Label, a: ConnId, b: ConnId, after: Gate) {
    && Enabled(g, l) && AtTheDoor(Step(g, max, l)) <= {a, b}
    && Enabled(Step(g, max, l), l2) && Step(Step(g, max, l), max, l2) == after && AtTheDoor(after) <= {a, b}
  }

  lemma Both(g: Gate, max: nat, l: Label, l2: Label, a: ConnId, b: ConnId, after: Gate)
    requires Reaches(max, 2, g) && Moves(g, max, l, l2, a, b, after)
    ensures Reaches(max, 2, after)
  {
    var between := Step(g, max, l);
    SubsetIsSmaller(AtTheDoor(between), {a, b});
    SubsetIsSmaller(AtTheDoor(after), {a, b});
    Extend(max, 2, g, l);
    Extend(max, 2, between, l2);
  }

  /** The twins' gate: both handlers in phases of their own beside those of `g`. */
  function Twins(g: Gate, covers: map<Ip, CoverNode>, a: ConnId, first: Phase, b: ConnId, second: Phase): Gate {
    Gate(covers, g.handlers[a := Handler(Twin(a), first)][b := Handler(Twin(b), second)], g.used + {a, b})
  }

  ghost predicate Quiet(g: Gate, a: ConnId, b: ConnId) {
    g.covers == map[] && AtTheDoor(g) == {} && a != b && a !in g.used && b !in g.used
  }

  lemma LookBoth(g: Gate, max: nat, a: ConnId, b: ConnId)
    requires Quiet(g, a, b)
    ensures Moves(g, max, Look(Twin(a)), Look(Twin(b)), a, b, Twins(g, map[], a, Looked, b, Looked))
  {
    var between := Step(g, max, Look(Twin(a)));
    assert between.handlers == g.handlers[a := Handler(Twin(a), Looked)];
  }

  lemma CountBoth(g: Gate, max: nat, a: ConnId, b: ConnId)
    requires Quiet(g, a, b) && max >= 1
    ensures Moves(Twins(g, map[], a, Looked, b, Looked), max, Count(a), Count(b), a, b,
                  Twins(g, map[], a, Counted, b, Counted))
  {
    var between := Step(Twins(g, map[], a, Looked, b, Looked), max, Count(a));
    assert between == Twins(g, map[], a, Counted, b, Looked);
  }

  lemma InsertBoth(g: Gate, max: nat, a: ConnId, b: ConnId)
    requires Quiet(g, a, b)
    ensures Moves(Twins(g, map[], a, Counted, b, Counted), max, Insert(a), Insert(b), a, b,
                  Twins(g, map["1" := Twin(b)], a, Inserted, b, Inserted))
  {
    var between := Step(Twins(g, map[], a, Counted, b, Counted), max, Insert(a));
    assert between == Twins(g, map["1" := Twin(a)], a, Inserted, b, Counted);
  }

  lemma AnswerBoth(g: Gate, max: nat, a: ConnId, b: ConnId, covers: map<Ip, CoverNode>)
    requires Quiet(g, a, b)
    ensures Moves(Twins(g, covers, a, Inserted, b, Inserted), max, Answer(a, true), Answer(b, true), a, b,
                  Twins(g, covers, a, Serving, b, Serving))
  {
    var between := Step(Twins(g, covers, a, Inserted, b, Inserted), max, Answer(a, true));
    assert between == Twins(g, covers, a, Serving, b, Inserted);
  }

  lemma ExitFirst(g: Gate, max: nat, a: ConnId, b: ConnId)
    requires Quiet(g, a, b) && a !in g.handlers
    requires Reaches(max, 2, Twins(g, map["1" := Twin(b)], a, Serving, b, Serving))
    ensures Reaches(max, 2, Gate(map[], g.handlers[b := Handler(Twin(b), Serving)], g.used + {a, b}))
  {
    var before := Twins(g, map["1" := Twin(b)], a, Serving, b, Serving);
    var after := ExitStep(before, a);
    assert after.handlers == g.handlers[b := Handler(Twin(b), Serving)];
    assert AtTheDoor(after) == {};
    Extend(max, 2, before, Exit(a));
  }

  /** Two handlers for one address that interleave leave a worker behind that no cover entry counts. */
  lemma Haunt(g: Gate, max: nat, n: nat) returns (after: Gate)
    requires max >= 1 && Reaches(max, 2, g) && Haunted(g, n)
    ensures Reaches(max, 2, after) && Haunted(after, n + 1)
  {
    var a, b := 2 * n, 2 * n + 1;
    OddsAreFew(n);
    assert Quiet(g, a, b);
    InterleaveTwins(g, max, a, b);
    ExitFirst(g, max, a, b);
    after := Gate(map[], g.handlers[b := Handler(Twin(b), Serving)], g.used + {a, b});
    OneMoreHaunts(g, n, a, b, after);
  }

  lemma OneMoreHaunts(g: Gate, n: nat, a: ConnId, b: ConnId, after: Gate)
    requires Haunted(g, n) && a == 2 * n && b == 2 * n + 1
    requires after == Gate(map[], g.handlers[b := Handler(Twin(b), Serving)], g.used + {a, b})
    ensures Haunted(after, n + 1)
  {
    assert after.handlers.Keys == g.handlers.Keys + {b};
  }

  lemma InterleaveTwins(g: Gate, max: nat, a: ConnId, b: ConnId)
    requires max >= 1 && Reaches(max, 2, g) && Quiet(g, a, b)
    ensures Reaches(max, 2, Twins(g, map["1" := Twin(b)], a, Serving, b, Serving))
  {
    var looked, counted := Twins(g, map[], a, Looked, b, Looked), Twins(g, map[], a, Counted, b, Counted);
    var entry := map["1" := Twin(b)];
    var inserted, serving := Twins(g, entry, a, Inserted, b, Inserted), Twins(g, entry, a, Serving, b, Serving);
    LookBoth(g, max, a, b);
    Both(g, max, Look(Twin(a)), Look(Twin(b)), a, b, looked);
    CountBoth(g, max, a, b);
    Both(looked, max, Count(a), Count(b), a, b, counted);
    InsertBoth(g, max, a, b);
    Both(counted, max, Insert(a), Insert(b), a, b, inserted);
    AnswerBoth(g, max, a, b, entry);
    Both(inserted, max, Answer(a, true), Answer(b, true), a, b, serving);
  }

  /** As soon as two handlers may interleave, no bound on the covers bounds the workers: any number of them
      may serve one address while the node counts no cover at all. */
  lemma WorkersAreUnbounded(max: nat, n: nat) returns (g: Gate)
    requires max >= 1
    ensures Reaches(max, 2, g) && g.covers == map[] && |LiveOnes(g)| == n
  {
    g := Haunting(max, n);
    HauntedCount(g, n);
  }

  lemma HauntedCount(g: Gate, n: nat)
    requires Haunted(g, n)
    ensures |LiveOnes(g)| == n
  {
    OddsAreFew(n);
    assert LiveOnes(g) == Odds(n);
  }

  lemma {:induction false} Haunting(max: nat, n: nat) returns (g: Gate)
    requires max >= 1
    ensures Reaches(max, 2, g) && Haunted(g, n)
  {
    if n > 0 {
      g := Haunting(max, n - 1);
      g := Haunt(g, max, n - 1);
    } else {
      g := CLOSED;
      ClosedIsReached(max, 2);
    }
  }

  // ---- One admission without interruption ----

  /** An admission nobody interrupts passes exactly when HandleConnectPath accepts, and inserts what it does. */
  lemma UninterruptedIsHandleConnectPath(g: Gate, s: NodeState, tree: Uuid, exchange: KeyExchange.DHKeyExchange,
                                         secret: Secret, cover: CoverNode)
    requires g.covers == s.covers && cover.worker !in g.used && tree in s.paths
    requires cover == CoverNode(cover.ip, KeyExchange.GetSymKey(exchange, secret), tree, cover.worker)
    ensures var max := s.config.maxCovers;
            var (after, reply) :=
              NodeSteps.HandleConnectPath(s, cover.ip, SealedId(s.publicKey, tree), exchange, secret, cover.worker);
            && reply.Some?
            && (reply.value.accepted <==>
                Enabled(g, Look(cover))
                && Enabled(CountStep(Step(g, max, Look(cover)), max, cover.worker), Insert(cover.worker)))
            && (reply.value.accepted ==>
                var counted := CountStep(Step(g, max, Look(cover)), max, cover.worker);
                InsertStep(counted, cover.worker).covers == after.covers)
  {
  }
  /** The same of HandleCreateProxy, which accepts only while no path leads to storage. */
  lemma UninterruptedIsHandleCreateProxy(g: Gate, s: NodeState, requester: PublicKey,
                                         exchange: KeyExchange.DHKeyExchange, secret: Secret, cover: CoverNode)
    requires g.covers == s.covers && cover.worker !in g.used
    requires cover == CoverNode(cover.ip, KeyExchange.GetSymKey(exchange, secret), cover.tree, cover.worker)
    ensures var max := s.config.maxCovers;
            var (after, reply) := NodeSteps.HandleCreateProxy(s, cover.ip, requester, exchange, secret, cover.tree,
                                                              cover.worker);
            && (reply.accepted <==>
                (forall id :: id in s.paths ==> s.paths[id].next != Storage)
                && Enabled(g, Look(cover))
                && Enabled(CountStep(Step(g, max, Look(cover)), max, cover.worker), Insert(cover.worker)))
            && (reply.accepted ==>
                var counted := CountStep(Step(g, max, Look(cover)), max, cover.worker);
                InsertStep(counted, cover.worker).covers == after.covers)
  {
  }
}
