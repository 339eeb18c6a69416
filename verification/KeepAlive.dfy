/** The clock of one link: the child's worker sends a cover message, sleeps for the sending interval and sends
    again; the parent's worker waits for one message at a time and gives up after the receiving interval. */
module KeepAlive {

  /** `start` is the time from the parent's worker starting to the child's first message being encoded. */
  datatype Clock = Clock(start: nat, sending: nat, receiving: nat)

  /** One cover message: how long it takes to encode, to travel and to be handled, and whether it is seen
      first when it arrives in the very moment the parent's timer fires. */
  datatype Beat = Beat(encode: nat, travel: nat, handling: nat, first: bool)

  datatype Worker = Listening(since: nat) | TimedOut(at: nat)

  /** `due`: when the child starts on its next message; `arrived`: when its last one came in. */
  datatype Link = Link(due: nat, arrived: nat, worker: Worker)

  function Hear(c: Clock, w: Worker, arrival: nat, b: Beat): Worker {
    match w
    case TimedOut(_) => w
    case Listening(since) =>
      if arrival < since + c.receiving || (arrival == since + c.receiving && b.first)
      then Listening((if arrival < since then since else arrival) + b.handling)
      else TimedOut(since + c.receiving)
  }

  /** Messages of one connection arrive in the order in which they were sent. */
  function Beats(c: Clock, beats: seq<Beat>): Link {
    if beats == [] then Link(c.start, 0, Listening(0))
    else
      var link := Beats(c, beats[..|beats| - 1]);
      var b := beats[|beats| - 1];
      var sent := link.due + b.encode;
      var arrival := if sent + b.travel < link.arrived then link.arrived else sent + b.travel;
      Link(sent + c.sending, arrival, Hear(c, link.worker, arrival, b))
  }

  ghost predicate Within(beats: seq<Beat>, encode: nat, travel: nat) {
    forall i :: 0 <= i < |beats| ==> beats[i].encode <= encode && beats[i].travel <= travel
  }

  /** However the messages are delayed within the bounds, the parent keeps the cover. */
  ghost predicate NeverTimesOut(c: Clock, encode: nat, travel: nat) {
    forall beats :: Within(beats, encode, travel) ==> Beats(c, beats).worker.Listening?
  }

  lemma {:induction false} StaysAwake(c: Clock, encode: nat, travel: nat, beats: seq<Beat>)
    requires c.start + encode + travel < c.receiving && c.sending + encode + travel < c.receiving
    requires Within(beats, encode, travel)
    ensures var link := Beats(c, beats);
            && link.worker.Listening? && link.arrived <= link.worker.since
            && link.due + encode + travel < link.worker.since + c.receiving
  {
    if beats != [] {
      StaysAwake(c, encode, travel, beats[..|beats| - 1]);
    }
  }

  /** A child that keeps sending is never timed out exactly when the longest silence its delays allow, before
      the first message and between two messages, is shorter than the receiving interval. */
  lemma NeverTimesOutIff(c: Clock, encode: nat, travel: nat)
    ensures NeverTimesOut(c, encode, travel) <==>
              c.start + encode + travel < c.receiving && c.sending + encode + travel < c.receiving
  {
    if c.start + encode + travel < c.receiving && c.sending + encode + travel < c.receiving {
      forall beats | Within(beats, encode, travel)
        ensures Beats(c, beats).worker.Listening?
      {
        StaysAwake(c, encode, travel, beats);
      }
    } else {
      var slow := Beat(encode, travel, 0, false);
      if c.start + encode + travel >= c.receiving {
        assert Within([slow], encode, travel);
        assert [slow][..0] == [];
        assert Beats(c, [slow]).worker.TimedOut?;
      } else {
        var quick := Beat(0, 0, 0, false);
        assert Within([quick, slow], encode, travel);
        assert [quick, slow][..1] == [quick] && [quick][..0] == [];
        assert Beats(c, [quick]) == Link(c.start + c.sending, c.start, Listening(c.start));
        assert Beats(c, [quick, slow]).worker.TimedOut?;
      }
    }
  }

  // ---- When messages come in ----

  /** Message i is on its way when it is encoded, which begins one sending interval after the message before it. */
  function SentAt(c: Clock, beats: seq<Beat>, i: nat): nat
    requires i < |beats|
  {
    beats[i].encode + if i == 0 then c.start else SentAt(c, beats, i - 1) + c.sending
  }

  lemma {:induction false} SentBefore(c: Clock, beats: seq<Beat>, n: nat, i: nat)
    requires i < n <= |beats|
    ensures SentAt(c, beats[..n], i) == SentAt(c, beats, i)
  {
    if i > 0 {
      SentBefore(c, beats, n, i - 1);
    }
  }

  lemma {:induction false} NextIsDue(c: Clock, beats: seq<Beat>)
    requires beats != []
    ensures Beats(c, beats).due == SentAt(c, beats, |beats| - 1) + c.sending
  {
    var n := |beats| - 1;
    if n > 0 {
      NextIsDue(c, beats[..n]);
      SentBefore(c, beats, n, n - 1);
    }
  }

  /** The last message to come in. */
  predicate IsLatest(c: Clock, beats: seq<Beat>, arrived: nat, latest: nat) {
    && latest < |beats| && arrived == SentAt(c, beats, latest) + beats[latest].travel
    && forall i :: 0 <= i < |beats| ==> SentAt(c, beats, i) + beats[i].travel <= arrived
  }

  lemma OneMoreArrives(c: Clock, beats: seq<Beat>, n: nat, arrived: nat, earlier: nat) returns (latest: nat)
    requires |beats| == n + 1 && IsLatest(c, beats[..n], arrived, earlier)
    ensures var own := SentAt(c, beats, n) + beats[n].travel;
            IsLatest(c, beats, if own < arrived then arrived else own, latest)
  {
    latest := if SentAt(c, beats, n) + beats[n].travel < arrived then earlier else n;
    forall i | 0 <= i < n ensures SentAt(c, beats, i) + beats[i].travel <= arrived {
      SentBefore(c, beats, n, i);
      assert beats[..n][i] == beats[i];
    }
    SentBefore(c, beats, n, earlier);
  }

  /** Messages are sent by that schedule; the last one comes in when it has travelled, or together with the latest of
      those before it. */
  lemma {:induction false} LastArrives(c: Clock, beats: seq<Beat>) returns (latest: nat)
    requires beats != []
    ensures IsLatest(c, beats, Beats(c, beats).arrived, latest)
  {
    var n := |beats| - 1;
    latest := n;
    if n > 0 {
      var earlier := LastArrives(c, beats[..n]);
      NextIsDue(c, beats[..n]);
      SentBefore(c, beats, n, n - 1);
      latest := OneMoreArrives(c, beats, n, Beats(c, beats[..n]).arrived, earlier);
    }
  }

  // ---- Silence ----

  function GoneAt(c: Clock, w: Worker): (gone: nat) {
    match w
    case TimedOut(at) => at
    case Listening(since) => since + c.receiving
  }

  /** How much handling is still to be done when the last message comes in, that message included: what was left when
      the message before came in, less the time that has passed since. */
  function Backlog(c: Clock, beats: seq<Beat>): nat {
    if beats == [] then 0
    else
      var before := beats[..|beats| - 1];
      var left, gap := Backlog(c, before), Beats(c, beats).arrived - Beats(c, before).arrived;
      (if gap < left then left - gap else 0) + beats[|beats| - 1].handling
  }

  /** When the child falls silent the parent lets the cover go exactly one receiving interval after it is through with
      what had come in; a parent that gives up earlier does so before the last message, at the moment at which it would
      have without that message, and never before the first receiving interval is over. */
  lemma {:induction false} SilenceEnds(c: Clock, beats: seq<Beat>)
    ensures var link := Beats(c, beats);
            && c.receiving <= GoneAt(c, link.worker)
            && (link.worker.Listening? ==> GoneAt(c, link.worker) == link.arrived + Backlog(c, beats) + c.receiving)
            && (link.worker.TimedOut? ==>
                  && beats != [] && GoneAt(c, link.worker) <= link.arrived
                  && GoneAt(c, link.worker) == GoneAt(c, Beats(c, beats[..|beats| - 1]).worker))
  {
    if beats != [] {
      SilenceEnds(c, beats[..|beats| - 1]);
    }
  }

  /** Each message but the last is handled before the next one comes in. */
  predicate Unhurried(c: Clock, beats: seq<Beat>) {
    |beats| <= 1 ||
    (var before := beats[..|beats| - 1];
     Unhurried(c, before) && before[|before| - 1].handling <= Beats(c, beats).arrived - Beats(c, before).arrived)
  }

  /** Then only the last message is left to be handled when it comes in. */
  lemma {:induction false} NoBacklog(c: Clock, beats: seq<Beat>)
    requires beats != [] && Unhurried(c, beats)
    ensures Backlog(c, beats) == beats[|beats| - 1].handling
  {
    if |beats| > 1 {
      NoBacklog(c, beats[..|beats| - 1]);
    }
  }
}
