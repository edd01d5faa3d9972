/**
 * What the engine does with gaps over whole runs. A gap is identified by its index in the run,
 * so two gaps with the same position stay distinct. Nothing here looks inside the engine: open
 * and settled gaps are defined from the calls and the returned actions alone.
 */
module RecoveryGaps {
  import opened Prelude
  import opened RecoverySpec
  import opened RecoveryRuns

  ghost predicate GapOn(run: seq<Step>, i: int, c: string) {
    0 <= i < |run| && run[i].event.Gap? && run[i].event.channel == c
  }

  ghost predicate SendsReplay(s: Step, c: string) {
    exists p :: SendReplay(c, p) in s.actions
  }

  ghost predicate ReportsLoss(s: Step, c: string) {
    exists r :: RecoveryReason(r) && RaiseRecoveryInterrupted(c, r) in s.actions
  }

  // The call takes every gap seen so far on `c` off the engine's hands.
  ghost predicate Settles(s: Step, c: string) {
    SendsReplay(s, c) || ReportsLoss(s, c) || s.event.NotAvailable?
  }

  ghost predicate Undisturbed(run: seq<Step>, i: int, j: int, c: string) {
    0 <= i && j <= |run| && forall k | i <= k < j :: !Settles(run[k], c)
  }

  ghost predicate OpenGap(run: seq<Step>, i: int, c: string) {
    GapOn(run, i, c) && Undisturbed(run, i, |run|, c)
  }

  ghost predicate FirstOpenGap(run: seq<Step>, i: int, c: string) {
    OpenGap(run, i, c) && forall k | 0 <= k < i :: !OpenGap(run, k, c)
  }

  // The position the record holds for the next replay.
  function Pending(rec: Rec): Option<string> {
    match rec.phase
    case Idle => None
    case FloorWait => rec.anchor
    case Replaying => rec.followup
  }

  function PosOf(run: seq<Step>, i: int): string {
    if 0 <= i < |run| && run[i].event.Gap? then run[i].event.lastPos else ""
  }

  // ---------------------------------------------------------------- the stored anchor

  function SeenBy(rec: Rec, ev: Event, c: string): Option<string> {
    if ev.Gap? && ev.channel == c && Pending(rec).None? then Some(ev.lastPos) else Pending(rec)
  }

  lemma PendingStep(e: Engine, now: real, ev: Event, c: string)
    requires RecInv(e, RecOf(e, c))
    ensures var (rec', out) := ChanStep(e, now, ev, c);
            && (Pending(rec') == if out != Quiet || ev.NotAvailable? then None
                                 else SeenBy(RecOf(e, c), ev, c))
            && (out.Replay? ==> SeenBy(RecOf(e, c), ev, c) == Some(out.fromPos) && !ev.NotAvailable?)
            && (out.Report? ==> RecoveryReason(out.reason) && !ev.NotAvailable?)
  {
    hide FloorOpen, Earliest;
  }

  lemma SettlesIsOutcome(s: Step, c: string, out: Outcome)
    requires ShowsOutcome(s.actions, c, out)
    requires out.Report? ==> RecoveryReason(out.reason)
    ensures SendsReplay(s, c) <==> out.Replay?
    ensures ReportsLoss(s, c) <==> out.Report?
    ensures Settles(s, c) <==> out != Quiet || s.event.NotAvailable?
  {
    hide ShowsOutcome;
    ShownMembers(s.actions, c, out);
    if out.Replay? {
      assert SendReplay(c, out.fromPos) in s.actions;
    }
    if out.Report? {
      assert RaiseRecoveryInterrupted(c, out.reason) in s.actions;
    }
  }

  // One call of a run, in the terms of this file.
  lemma GapStep(init: Engine, run: seq<Step>, k: nat, c: string)
    requires IsRun(init, run) && k < |run|
    ensures var seen := SeenBy(RecOf(Before(init, run, k), c), run[k].event, c);
            && Pending(RecOf(run[k].post, c)) == (if Settles(run[k], c) then None else seen)
            && (forall p | SendReplay(c, p) in run[k].actions :: seen == Some(p))
            && !(SendsReplay(run[k], c) && ReportsLoss(run[k], c))
            && !(SendsReplay(run[k], c) && run[k].event.NotAvailable?)
            && !(ReportsLoss(run[k], c) && run[k].event.NotAvailable?)
  {
    hide StepOf, ChanStep, RecOf, Inv, RecInv, SeenBy, Pending;
    StepProjection(init, run, k, c);
    var e, now, ev := Before(init, run, k), run[k].now, run[k].event;
    PendingStep(e, now, ev, c);
    hide ShowsOutcome;
    ShownMembers(run[k].actions, c, ChanStep(e, now, ev, c).1);
    SettlesIsOutcome(run[k], c, ChanStep(e, now, ev, c).1);
  }

  lemma OpenGapStep(run: seq<Step>, i: int, c: string)
    requires run != []
    ensures var n := |run| - 1;
            OpenGap(run, i, c) <==>
            !Settles(run[n], c) && (OpenGap(run[..n], i, c) || (i == n && GapOn(run, n, c)))
  {
    hide Settles;
    var n := |run| - 1;
    if OpenGap(run, i, c) && i < n {
      assert forall k | i <= k < n :: run[..n][k] == run[k];
    }
    if OpenGap(run[..n], i, c) {
      assert forall k | i <= k < n :: run[..n][k] == run[k];
    }
  }

  // In every run, the position a channel's record holds is the position of the oldest gap that
  // is still open on that channel, and there is none exactly when no gap is open.
  lemma {:induction false} AnchorIsFirstOpenGap(init: Engine, run: seq<Step>, c: string)
    requires IsRun(init, run)
    ensures var pending := Pending(RecOf(Before(init, run, |run|), c));
            && (pending.None? <==> forall i :: !OpenGap(run, i, c))
            && (pending.Some? ==> exists i :: FirstOpenGap(run, i, c) && PosOf(run, i) == pending.value)
  {
    hide IsRun, RecOf, Settles;
    if run == [] {
      NothingPendingAtStart(init, run, c);
    } else {
      var n := |run| - 1;
      RunPrefix(init, run, n);
      AnchorIsFirstOpenGap(init, run[..n], c);
      assert Before(init, run[..n], n) == Before(init, run, n);
      GapStep(init, run, n, c);
      forall i ensures OpenGap(run, i, c) <==>
          !Settles(run[n], c) && (OpenGap(run[..n], i, c) || (i == n && GapOn(run, n, c)))
      {
        OpenGapStep(run, i, c);
      }
      hide OpenGap;
      var before := Pending(RecOf(Before(init, run, n), c));
      if !Settles(run[n], c) && before.Some? {
        var i :| FirstOpenGap(run[..n], i, c) && PosOf(run[..n], i) == before.value;
        OpenGapInRange(run[..n], i, c);
        assert FirstOpenGap(run, i, c) && PosOf(run, i) == before.value;
      } else if !Settles(run[n], c) && GapOn(run, n, c) {
        assert FirstOpenGap(run, n, c);
      }
    }
  }

  lemma NothingPendingAtStart(init: Engine, run: seq<Step>, c: string)
    requires IsRun(init, run) && run == []
    ensures Pending(RecOf(Before(init, run, 0), c)).None?
    ensures forall i :: !OpenGap(run, i, c)
  {
  }

  lemma OpenGapInRange(run: seq<Step>, i: int, c: string)
    requires OpenGap(run, i, c)
    ensures 0 <= i < |run| && GapOn(run, i, c)
  {
  }

  // ---------------------------------------------------------------- replays

  // Gap `i` is the oldest gap on `c` that is open when call `j` is made (its own gap included).
  ghost predicate AnchorOf(run: seq<Step>, j: int, i: int, c: string) {
    && GapOn(run, i, c) && i <= j < |run| && Undisturbed(run, i, j, c)
    && (forall k | 0 <= k < i && GapOn(run, k, c) :: !Undisturbed(run, k, j, c))
  }

  // Every replay the engine ever asks for starts at the position of the oldest open gap.
  lemma ReplayStartsAtOldestOpenGap(init: Engine, run: seq<Step>, j: nat, c: string, p: string)
    requires IsRun(init, run) && j < |run| && SendReplay(c, p) in run[j].actions
    ensures exists i :: AnchorOf(run, j, i, c) && PosOf(run, i) == p
  {
    hide IsRun, RecOf, Settles, OpenGap, AnchorOf, Before;
    RunPrefix(init, run, j);
    AnchorIsFirstOpenGap(init, run[..j], c);
    GapStep(init, run, j, c);
    assert |run[..j]| == j && Before(init, run[..j], j) == Before(init, run, j);
    forall k ensures OpenGap(run[..j], k, c) <==> k < j && GapOn(run, k, c) && Undisturbed(run, k, j, c) {
      OpenGapBefore(run, j, k, c);
    }
    hide Undisturbed;
    var before := Pending(RecOf(Before(init, run, j), c));
    if before.Some? {
      var i :| FirstOpenGap(run[..j], i, c) && PosOf(run[..j], i) == before.value;
      OldestIsAnchor(run, j, i, c);
      assert PosOf(run, i) == p;
    } else {
      OldestIsAnchor(run, j, j, c);
      assert PosOf(run, j) == p;
    }
  }

  lemma OpenGapBefore(run: seq<Step>, j: nat, k: int, c: string)
    requires j <= |run|
    ensures OpenGap(run[..j], k, c) <==> k < j && GapOn(run, k, c) && Undisturbed(run, k, j, c)
  {
    hide Settles;
    assert forall x | 0 <= x < j :: run[..j][x] == run[x];
  }

  lemma OldestIsAnchor(run: seq<Step>, j: nat, i: int, c: string)
    requires j < |run| && i <= j && GapOn(run, i, c)
    requires i == j || Undisturbed(run, i, j, c)
    requires forall k | 0 <= k < i && GapOn(run, k, c) :: !Undisturbed(run, k, j, c)
    ensures AnchorOf(run, j, i, c)
  {
    hide Settles;
  }

  // Between two replays lies the anchor of the second.
  lemma AnchorsIncrease(run: seq<Step>, j1: nat, i1: nat, j2: nat, i2: nat, c: string)
    requires j1 < j2 < |run| && SendsReplay(run[j1], c)
    requires AnchorOf(run, j1, i1, c) && AnchorOf(run, j2, i2, c)
    ensures i1 <= j1 < i2 <= j2
  {
    if i2 <= j1 {
      assert Settles(run[j1], c);
    }
  }

  // One replay that was sent: by which call, and from where.
  datatype Sent = Sent(call: nat, pos: string)

  // Every replay asked for on `c` by one call, and by a whole run, in order.
  function SentIn(actions: seq<Action>, call: nat, c: string): seq<Sent> {
    if actions == [] then []
    else
      var n := |actions| - 1;
      var a := actions[n];
      SentIn(actions[..n], call, c) + if a.SendReplay? && a.channel == c then [Sent(call, a.fromPos)] else []
  }

  function Sends(run: seq<Step>, c: string): seq<Sent> {
    if run == [] then []
    else
      var n := |run| - 1;
      Sends(run[..n], c) + SentIn(run[n].actions, n, c)
  }

  lemma {:induction false} SentInShare(actions: seq<Action>, call: nat, c: string)
    ensures SentIn(actions, call, c) == SentIn(Share(actions, c, Recovery), call, c)
    decreases |actions|
  {
    if actions != [] {
      var n := |actions| - 1;
      var earlier := Share(actions[..n], c, Recovery);
      SentInShare(actions[..n], call, c);
      if About(actions[n], c, Recovery) {
        assert (earlier + [actions[n]])[..|earlier|] == earlier;
      } else {
        assert earlier + [] == earlier;
        assert SentIn(actions[..n], call, c) + [] == SentIn(actions[..n], call, c);
      }
    }
  }

  // A call sends at most one replay on a channel: the one its step asks for.
  lemma SentInStep(init: Engine, run: seq<Step>, k: nat, c: string)
    requires IsRun(init, run) && k < |run|
    ensures var sent := SentIn(run[k].actions, k, c);
            && |sent| <= 1
            && (sent != [] <==> SendsReplay(run[k], c))
            && (sent != [] ==> sent[0].call == k && SendReplay(c, sent[0].pos) in run[k].actions)
  {
    hide IsRun, RecOf, Inv, RecInv, ChanStep, Before, Share, SendsReplay, ReportsLoss;
    StepProjection(init, run, k, c);
    var out := ChanStep(Before(init, run, k), run[k].now, run[k].event, c).1;
    OutcomeOfChannel(Before(init, run, k), run[k].now, run[k].event, c);
    SentInShare(run[k].actions, k, c);
    SentInOutcome(out, k, c);
    SettlesIsOutcome(run[k], c, out);
    ShownMembers(run[k].actions, c, out);
  }

  lemma OutcomeOfChannel(e: Engine, now: real, ev: Event, c: string)
    ensures var out := ChanStep(e, now, ev, c).1;
            out.Report? ==> RecoveryReason(out.reason)
  {
    hide FloorOpen, Earliest, RecOf;
  }

  lemma SentInOutcome(out: Outcome, call: nat, c: string)
    ensures SentIn(ToActions(c, out), call, c) == if out.Replay? then [Sent(call, out.fromPos)] else []
  {
    if out.Replay? {
      assert [SendReplay(c, out.fromPos)][..0] == [];
    }
  }

  // The sends belong to strictly increasing calls, and each is among its call's actions.
  ghost predicate Ordered(run: seq<Step>, sends: seq<Sent>, c: string) {
    && (forall x | 0 <= x < |sends| ::
          sends[x].call < |run| && SendReplay(c, sends[x].pos) in run[sends[x].call].actions)
    && (forall x, y | 0 <= x < y < |sends| :: sends[x].call < sends[y].call)
  }

  lemma OrderedStep(run: seq<Step>, earlier: seq<Sent>, last: seq<Sent>, c: string)
    requires run != [] && Ordered(run[..|run| - 1], earlier, c) && |last| <= 1
    requires last != [] ==>
               last[0].call == |run| - 1 && SendReplay(c, last[0].pos) in run[|run| - 1].actions
    ensures Ordered(run, earlier + last, c)
  {
    var n := |run| - 1;
    forall x | 0 <= x < |earlier|
      ensures earlier[x].call < n && run[..n][earlier[x].call] == run[earlier[x].call] {}
  }

  // The replays on a channel are sent by strictly increasing calls: no call sends two.
  lemma {:induction false} SendsAreOrdered(init: Engine, run: seq<Step>, c: string)
    requires IsRun(init, run)
    ensures Ordered(run, Sends(run, c), c)
  {
    hide IsRun, SentIn, Ordered;
    if run == [] {
      assert Ordered(run, [], c) by { NoneSent(c); }
    } else {
      var n := |run| - 1;
      RunPrefix(init, run, n);
      SendsAreOrdered(init, run[..n], c);
      SentInStep(init, run, n, c);
      OrderedStep(run, Sends(run[..n], c), SentIn(run[n].actions, n, c), c);
    }
  }

  lemma NoneSent(c: string)
    ensures Ordered([], [], c)
  {
  }

  lemma SendAt(init: Engine, run: seq<Step>, c: string, x: nat)
    requires IsRun(init, run) && x < |Sends(run, c)|
    ensures var sent := Sends(run, c)[x];
            sent.call < |run| && SendReplay(c, sent.pos) in run[sent.call].actions && SendsReplay(run[sent.call], c)
    ensures x > 0 ==> Sends(run, c)[x - 1].call < Sends(run, c)[x].call
  {
    hide IsRun, Sends;
    SendsAreOrdered(init, run, c);
  }

  // Send number `k` takes its position from gap `anchors[k]`, the oldest gap open at that call.
  ghost predicate Anchored(run: seq<Step>, sends: seq<Sent>, anchors: seq<int>, c: string) {
    |anchors| == |sends|
    && forall k | 0 <= k < |sends| ::
         AnchorOf(run, sends[k].call, anchors[k], c) && PosOf(run, anchors[k]) == sends[k].pos
  }

  // In every run the list of all positions ever sent on a channel is read off strictly increasing
  // gaps: each send starts at the oldest gap then open, and no gap is used twice.
  lemma SentPositionsAreGapPositions(init: Engine, run: seq<Step>, c: string) returns (anchors: seq<int>)
    requires IsRun(init, run)
    ensures Anchored(run, Sends(run, c), anchors, c)
    ensures forall x | 0 <= x < |anchors| :: GapOn(run, anchors[x], c)
    ensures forall x, y | 0 <= x < y < |anchors| :: anchors[x] < anchors[y]
  {
    hide IsRun, AnchorOf, Sends, SendsReplay;
    var sends := Sends(run, c);
    anchors := AnchorsOfSends(init, run, c, |sends|);
    forall x, y | 0 <= x < y < |anchors| ensures anchors[x] < anchors[y] {
      SendsAreOrdered(init, run, c);
      SendAt(init, run, c, x);
      AnchorBounds(run, sends[x].call, anchors[x], c);
      AnchorBounds(run, sends[y].call, anchors[y], c);
      AnchorsIncrease(run, sends[x].call, anchors[x], sends[y].call, anchors[y], c);
    }
    forall x | 0 <= x < |anchors| ensures GapOn(run, anchors[x], c) {
      AnchorBounds(run, sends[x].call, anchors[x], c);
    }
  }

  lemma AnchorBounds(run: seq<Step>, j: int, i: int, c: string)
    requires AnchorOf(run, j, i, c)
    ensures GapOn(run, i, c) && 0 <= i <= j < |run|
  {
  }

  lemma {:induction false} AnchorsOfSends(init: Engine, run: seq<Step>, c: string, n: nat) returns (anchors: seq<int>)
    requires IsRun(init, run) && n <= |Sends(run, c)|
    ensures Anchored(run, Sends(run, c)[..n], anchors, c)
  {
    hide IsRun, AnchorOf, Sends, SendsReplay;
    anchors := [];
    if n > 0 {
      anchors := AnchorsOfSends(init, run, c, n - 1);
      var sent := Sends(run, c)[n - 1];
      SendAt(init, run, c, n - 1);
      ReplayStartsAtOldestOpenGap(init, run, sent.call, c, sent.pos);
      var i :| AnchorOf(run, sent.call, i, c) && PosOf(run, i) == sent.pos;
      anchors := anchors + [i];
    }
  }

  // ---------------------------------------------------------------- nothing is forgotten

  // Call `j` is the first call at or after gap `i` that settles it.
  ghost predicate SettledBy(run: seq<Step>, i: int, j: int, c: string) {
    GapOn(run, i, c) && i <= j < |run| && Settles(run[j], c) && Undisturbed(run, i, j, c)
  }

  lemma {:induction false} FirstSettler(run: seq<Step>, i: nat, j: nat, c: string) returns (k: nat)
    requires GapOn(run, i, c) && i <= j < |run| && Settles(run[j], c)
    ensures SettledBy(run, i, k, c) && k <= j
    decreases j
  {
    hide Settles;
    if m :| i <= m < j && Settles(run[m], c) {
      k := FirstSettler(run, i, m, c);
    } else {
      k := j;
    }
  }

  // Each gap of each run is in exactly one class: still open, in which case the record holds a
  // position for it, or settled by one call, which is exactly one of a replay, a reported loss,
  // or the Direct degrade.
  lemma EveryGapIsAccountedFor(init: Engine, run: seq<Step>, i: nat, c: string)
    requires IsRun(init, run) && GapOn(run, i, c)
    ensures OpenGap(run, i, c) <==> !exists j :: SettledBy(run, i, j, c)
    ensures OpenGap(run, i, c) ==> Pending(RecOf(Before(init, run, |run|), c)).Some?
    ensures forall j, k | SettledBy(run, i, j, c) && SettledBy(run, i, k, c) :: j == k
    ensures forall j | SettledBy(run, i, j, c) ::
              var (replayed, reported, wiped) :=
                (SendsReplay(run[j], c), ReportsLoss(run[j], c), run[j].event.NotAvailable?);
              && (replayed || reported || wiped)
              && !(replayed && reported) && !(replayed && wiped) && !(reported && wiped)
  {
    OpenGapIsStored(init, run, i, c);
    if !OpenGap(run, i, c) {
      var j :| i <= j < |run| && Settles(run[j], c);
      var k := FirstSettler(run, i, j, c);
      assert SettledBy(run, i, k, c);
    }
    forall j | SettledBy(run, i, j, c)
      ensures !(SendsReplay(run[j], c) && ReportsLoss(run[j], c))
      ensures !(SendsReplay(run[j], c) && run[j].event.NotAvailable?)
      ensures !(ReportsLoss(run[j], c) && run[j].event.NotAvailable?)
    {
      hide IsRun, SendsReplay, ReportsLoss;
      GapStep(init, run, j, c);
    }
  }

  lemma OpenGapIsStored(init: Engine, run: seq<Step>, i: nat, c: string)
    requires IsRun(init, run)
    ensures OpenGap(run, i, c) ==> Pending(RecOf(Before(init, run, |run|), c)).Some?
  {
    hide IsRun, OpenGap, RecOf;
    AnchorIsFirstOpenGap(init, run, c);
  }

  // A Direct degrade tells the consumer about a wiped gap exactly when the gap's channel is
  // among the resubscribed ones, and says one thing for each of these, in order.
  lemma WipedGapIsSignalled(init: Engine, run: seq<Step>, i: nat, j: nat, c: string)
    requires IsRun(init, run) && SettledBy(run, i, j, c) && run[j].event.NotAvailable?
    ensures EmitPossibleGap(c) in run[j].actions <==> c in run[j].event.resubscribed
    ensures |run[j].actions| == |run[j].event.resubscribed|
    ensures forall x | 0 <= x < |run[j].actions| ::
              run[j].actions[x] == EmitPossibleGap(run[j].event.resubscribed[x])
  {
    assert j < |run|;
    hide SettledBy;
    DegradeActions(Before(init, run, j), run[j], c);
  }

  lemma DegradeActions(e: Engine, s: Step, c: string)
    requires StepOf(e, s) && s.event.NotAvailable?
    ensures EmitPossibleGap(c) in s.actions <==> c in s.event.resubscribed
    ensures |s.actions| == |s.event.resubscribed|
    ensures forall x | 0 <= x < |s.actions| :: s.actions[x] == EmitPossibleGap(s.event.resubscribed[x])
  {
    var told := s.event.resubscribed;
    assert s.actions == PossibleGaps(told);
    if c in told {
      var k :| 0 <= k < |told| && told[k] == c;
      assert s.actions[k] == EmitPossibleGap(c);
    }
  }

  // ---------------------------------------------------------------- replays in flight

  // The call ends the replay in flight on `c`: it completes, is reported as lost, or is wiped.
  ghost predicate EndsReplay(s: Step, c: string) {
    s.event == ReplayComplete(c) || ReportsLoss(s, c) || s.event.NotAvailable?
  }

  lemma PhaseStep(e: Engine, now: real, ev: Event, c: string)
    requires RecInv(e, RecOf(e, c))
    ensures var (rec', out) := ChanStep(e, now, ev, c);
            && (rec'.phase == Replaying <==>
                  out.Replay?
                  || (RecOf(e, c).phase == Replaying
                      && !(ev == ReplayComplete(c) || out.Report? || ev.NotAvailable?)))
            && !(ev == ReplayComplete(c) && out.Report?)
  {
    hide FloorOpen, Earliest;
  }

  lemma PhaseStepInRun(init: Engine, run: seq<Step>, k: nat, c: string)
    requires IsRun(init, run) && k < |run|
    ensures RecOf(run[k].post, c).phase == Replaying <==>
              SendsReplay(run[k], c)
              || (RecOf(Before(init, run, k), c).phase == Replaying && !EndsReplay(run[k], c))
    ensures !(run[k].event == ReplayComplete(c) && ReportsLoss(run[k], c))
  {
    hide IsRun, ChanStep, RecOf, Inv, RecInv, Before, ShowsOutcome, SendsReplay, ReportsLoss;
    StepProjection(init, run, k, c);
    var e, now, ev := Before(init, run, k), run[k].now, run[k].event;
    OutcomeOfChannel(e, now, ev, c);
    SettlesIsOutcome(run[k], c, ChanStep(e, now, ev, c).1);
    PhaseStep(e, now, ev, c);
  }

  // Call `j` sent a replay on `c` that no later call has ended.
  ghost predicate Unended(run: seq<Step>, j: int, c: string) {
    0 <= j < |run| && SendsReplay(run[j], c) && forall m | j < m < |run| :: !EndsReplay(run[m], c)
  }

  lemma UnendedStep(run: seq<Step>, j: int, c: string)
    requires run != []
    ensures var n := |run| - 1;
            Unended(run, j, c) <==> (j == n && SendsReplay(run[n], c))
                                    || (Unended(run[..n], j, c) && !EndsReplay(run[n], c))
  {
    hide SendsReplay, EndsReplay;
    assert forall m | 0 <= m < |run| - 1 :: run[..|run| - 1][m] == run[m];
  }

  // In every run a channel is in mid-replay exactly when some replay it sent has not ended.
  lemma {:induction false} ReplayingIffUnended(init: Engine, run: seq<Step>, c: string)
    requires IsRun(init, run)
    ensures RecOf(Before(init, run, |run|), c).phase == Replaying <==> exists j :: Unended(run, j, c)
  {
    hide IsRun, RecOf, SendsReplay, EndsReplay;
    if run == [] {
      IdleAtStart(init, run, c);
    } else {
      var n := |run| - 1;
      RunPrefix(init, run, n);
      ReplayingIffUnended(init, run[..n], c);
      assert Before(init, run[..n], n) == Before(init, run, n);
      PhaseStepInRun(init, run, n, c);
      forall j ensures Unended(run, j, c) <==> (j == n && SendsReplay(run[n], c))
                                               || (Unended(run[..n], j, c) && !EndsReplay(run[n], c)) {
        UnendedStep(run, j, c);
      }
      hide Unended;
      if SendsReplay(run[n], c) {
        assert Unended(run, n, c);
      }
    }
  }

  lemma IdleAtStart(init: Engine, run: seq<Step>, c: string)
    requires IsRun(init, run) && run == []
    ensures RecOf(Before(init, run, 0), c).phase == Idle
  {
  }

  // Call `m` is the first after `j` that ends the replay sent by `j`.
  ghost predicate EndedBy(run: seq<Step>, j: int, m: int, c: string) {
    0 <= j < m < |run| && SendsReplay(run[j], c) && EndsReplay(run[m], c)
    && forall k | j < k < m :: !EndsReplay(run[k], c)
  }

  lemma {:induction false} FirstEnd(run: seq<Step>, j: nat, m: nat, c: string) returns (k: nat)
    requires j < m < |run| && SendsReplay(run[j], c) && EndsReplay(run[m], c)
    ensures EndedBy(run, j, k, c)
    decreases m
  {
    hide EndsReplay, SendsReplay;
    if x :| j < x < m && EndsReplay(run[x], c) {
      k := FirstEnd(run, j, x, c);
    } else {
      k := m;
    }
  }

  // Every replay ever sent is still in flight, with the channel in mid-replay, or was ended by
  // exactly one of its completion, a report and the Direct degrade; and the degrade, which reports
  // nothing about it, announces a possible gap exactly if its channel is resubscribed. Until it
  // ends, the channel stays in mid-replay.
  lemma EveryReplayIsAccountedFor(init: Engine, run: seq<Step>, j: nat, c: string)
    requires IsRun(init, run) && j < |run| && SendsReplay(run[j], c)
    ensures Unended(run, j, c) <==> !exists m :: EndedBy(run, j, m, c)
    ensures Unended(run, j, c) ==> RecOf(Before(init, run, |run|), c).phase == Replaying
    ensures forall m | EndedBy(run, j, m, c) ::
              var (completed, reported, wiped) :=
                (run[m].event == ReplayComplete(c), ReportsLoss(run[m], c), run[m].event.NotAvailable?);
              && RecOf(Before(init, run, m), c).phase == Replaying
              && !(completed && reported) && !(completed && wiped) && !(reported && wiped)
              && (wiped ==> (EmitPossibleGap(c) in run[m].actions <==> c in run[m].event.resubscribed))
  {
    hide IsRun, RecOf, SendsReplay, ReportsLoss;
    ReplayingIffUnended(init, run, c);
    if !Unended(run, j, c) {
      var m :| j < m < |run| && EndsReplay(run[m], c);
      var k := FirstEnd(run, j, m, c);
    }
    forall m | EndedBy(run, j, m, c)
      ensures RecOf(Before(init, run, m), c).phase == Replaying
      ensures !(run[m].event == ReplayComplete(c) && ReportsLoss(run[m], c))
      ensures !(ReportsLoss(run[m], c) && run[m].event.NotAvailable?)
      ensures run[m].event.NotAvailable? ==> (EmitPossibleGap(c) in run[m].actions <==> c in run[m].event.resubscribed)
    {
      EndOfReplay(init, run, j, m, c);
    }
  }

  lemma EndOfReplay(init: Engine, run: seq<Step>, j: nat, m: nat, c: string)
    requires IsRun(init, run) && EndedBy(run, j, m, c)
    ensures m < |run| && RecOf(Before(init, run, m), c).phase == Replaying
    ensures !(run[m].event == ReplayComplete(c) && ReportsLoss(run[m], c))
    ensures !(ReportsLoss(run[m], c) && run[m].event.NotAvailable?)
    ensures run[m].event.NotAvailable? ==> (EmitPossibleGap(c) in run[m].actions <==> c in run[m].event.resubscribed)
  {
    hide IsRun, RecOf, SendsReplay, ReportsLoss, EndsReplay, StepOf, Settles;
    RunPrefix(init, run, m);
    assert forall k | 0 <= k < m :: run[..m][k] == run[k];
    assert Unended(run[..m], j, c);
    ReplayingIffUnended(init, run[..m], c);
    assert |run[..m]| == m && Before(init, run[..m], m) == Before(init, run, m);
    PhaseStepInRun(init, run, m, c);
    GapStep(init, run, m, c);
    StepAt(init, run, m);
    if run[m].event.NotAvailable? {
      DegradeActions(Before(init, run, m), run[m], c);
    }
  }

  // ---------------------------------------------------------------- the conservative anchor

  // A server numbers its records. `rank` reads the number off an opaque position, which the
  // engine never does. `lost(i)` are the records that gap `i` announces as missing.
  datatype Server = Server(rank: string -> int, lost: int -> set<int>)

  // Gap positions on `c` never decrease in arrival order, and a gap loses only records after its
  // own position.
  ghost predicate Serves(server: Server, run: seq<Step>, c: string) {
    && (forall i, k | i <= k && GapOn(run, i, c) && GapOn(run, k, c) ::
          server.rank(PosOf(run, i)) <= server.rank(PosOf(run, k)))
    && (forall i, r | GapOn(run, i, c) && r in server.lost(i) :: server.rank(PosOf(run, i)) < r)
  }

  // A replay from `p` delivers every record after `p`.
  predicate Redelivers(server: Server, p: string, record: int) {
    server.rank(p) < record
  }

  // Whatever a gap lost is redelivered by the replay that settles it; and while the gap is open,
  // the stored anchor is one whose replay would redeliver it.
  lemma LostRecordsAreCovered(init: Engine, run: seq<Step>, server: Server, i: nat, c: string, record: int)
    requires IsRun(init, run) && Serves(server, run, c)
    requires GapOn(run, i, c) && record in server.lost(i)
    ensures forall j, p | SettledBy(run, i, j, c) && SendReplay(c, p) in run[j].actions ::
              Redelivers(server, p, record)
    ensures OpenGap(run, i, c) ==>
              var pending := Pending(RecOf(Before(init, run, |run|), c));
              pending.Some? && Redelivers(server, pending.value, record)
  {
    hide IsRun, RecOf, Settles;
    forall j, p | SettledBy(run, i, j, c) && SendReplay(c, p) in run[j].actions
      ensures Redelivers(server, p, record)
    {
      ReplayStartsAtOldestOpenGap(init, run, j, c, p);
      var a :| AnchorOf(run, j, a, c) && PosOf(run, a) == p;
      assert a <= i;
    }
    if OpenGap(run, i, c) {
      AnchorIsFirstOpenGap(init, run, c);
      var pending := Pending(RecOf(Before(init, run, |run|), c));
      var a :| FirstOpenGap(run, a, c) && PosOf(run, a) == pending.value;
      assert a <= i;
    }
  }

  // ---------------------------------------------------------------- the replay floor

  ghost predicate NoWipe(run: seq<Step>, j: int, k: int) {
    0 <= j && k <= |run|
    && forall x | j <= x < k :: !run[x].event.Disconnect? && !run[x].event.NotAvailable?
  }

  lemma FloorStep(e: Engine, now: real, ev: Event, c: string)
    requires RecInv(e, RecOf(e, c)) && !ev.Disconnect? && !ev.NotAvailable?
    ensures var (rec, out) := ChanStep(e, now, ev, c);
            && rec.lastReplayAt == (if out.Replay? then Some(now) else RecOf(e, c).lastReplayAt)
            && (out.Replay? ==> FloorOpen(RecOf(e, c), now, e.floor))
  {
  }

  lemma FloorStepInRun(init: Engine, run: seq<Step>, k: nat, c: string)
    requires IsRun(init, run) && k < |run| && NoWipe(run, k, k + 1)
    ensures var last, last' :=
              RecOf(Before(init, run, k), c).lastReplayAt, RecOf(run[k].post, c).lastReplayAt;
            && last' == (if SendsReplay(run[k], c) then Some(run[k].now) else last)
            && (SendsReplay(run[k], c) && last.Some? ==> run[k].now >= last.value + init.floor)
  {
    var e, now, ev := Before(init, run, k), run[k].now, run[k].event;
    hide StepOf, ChanStep, RecOf, Inv, RecInv;
    StepProjection(init, run, k, c);
    Reachable(init, run, k);
    FloorStep(e, now, ev, c);
    var out := ChanStep(e, now, ev, c).1;
    hide ShowsOutcome;
    ShownMembers(run[k].actions, c, out);
    if out.Replay? {
      assert SendReplay(c, out.fromPos) in run[k].actions;
    }
  }

  // After a replay, and until the channel table is wiped, the record remembers a replay time at
  // least that late.
  lemma {:induction false} ReplayIsRemembered(init: Engine, run: seq<Step>, j: nat, k: nat, c: string)
    requires IsRun(init, run) && j < k <= |run| && SendsReplay(run[j], c) && NoWipe(run, j, k)
    ensures var last := RecOf(Before(init, run, k), c).lastReplayAt;
            last.Some? && run[j].now <= last.value
  {
    hide StepOf, RecOf, SendsReplay;
    FloorStepInRun(init, run, k - 1, c);
    if j < k - 1 {
      ReplayIsRemembered(init, run, j, k - 1, c);
    }
  }

  lemma CallsRespectTheFloor(init: Engine, run: seq<Step>, j: nat, k: nat, c: string)
    requires IsRun(init, run) && j < k < |run|
    requires SendsReplay(run[j], c) && SendsReplay(run[k], c) && NoWipe(run, j, k + 1)
    ensures run[k].now - run[j].now >= init.floor
  {
    hide IsRun, RecOf, SendsReplay;
    ReplayIsRemembered(init, run, j, k, c);
    FloorStepInRun(init, run, k, c);
  }

  // The time of send number `x` on `c`.
  function SentAt(run: seq<Step>, c: string, x: int): real {
    if 0 <= x < |Sends(run, c)| && Sends(run, c)[x].call < |run| then run[Sends(run, c)[x].call].now else 0.0
  }

  // The channel table was not wiped between send `x` and send `y`.
  ghost predicate NoWipeBetween(run: seq<Step>, c: string, x: int, y: int) {
    0 <= x <= y < |Sends(run, c)| && NoWipe(run, Sends(run, c)[x].call, Sends(run, c)[y].call + 1)
  }

  // Any two replays on a channel are at least the floor apart unless the table was wiped between
  // them, through completions, follow-ups, deadline expiries and failures alike.
  lemma ReplaysRespectTheFloor(init: Engine, run: seq<Step>, c: string, x: nat, y: nat)
    requires IsRun(init, run) && x < y && NoWipeBetween(run, c, x, y)
    ensures SentAt(run, c, y) - SentAt(run, c, x) >= init.floor
  {
    hide IsRun, Sends, SendsReplay, NoWipe;
    SendsAreOrdered(init, run, c);
    SendAt(init, run, c, x);
    SendAt(init, run, c, y);
    CallsRespectTheFloor(init, run, Sends(run, c)[x].call, Sends(run, c)[y].call, c);
  }

  function Times(n: int, d: real): real {
    n as real * d
  }

  lemma TimesStep(n: int, d: real)
    ensures Times(n, d) == Times(n - 1, d) + d && Times(0, d) == 0.0
  {
  }

  lemma {:induction false} ReplaysSpread(init: Engine, run: seq<Step>, c: string, x: nat, y: nat)
    requires IsRun(init, run) && NoWipeBetween(run, c, x, y)
    ensures SentAt(run, c, y) - SentAt(run, c, x) >= Times(y - x, init.floor)
    decreases y
  {
    hide IsRun, Times, SentAt, NoWipeBetween, Sends;
    assert x <= y by { WindowBounds(run, c, x, y); }
    if x == y {
      TimesStep(1, init.floor);
    } else {
      WindowSplits(init, run, c, x, y);
      ReplaysSpread(init, run, c, x, y - 1);
      ReplaysRespectTheFloor(init, run, c, y - 1, y);
      TimesStep(y - x, init.floor);
    }
  }

  lemma WindowBounds(run: seq<Step>, c: string, x: int, y: int)
    requires NoWipeBetween(run, c, x, y)
    ensures 0 <= x <= y < |Sends(run, c)|
  {
  }

  lemma WindowSplits(init: Engine, run: seq<Step>, c: string, x: nat, y: nat)
    requires IsRun(init, run) && x < y && NoWipeBetween(run, c, x, y)
    ensures NoWipeBetween(run, c, x, y - 1) && NoWipeBetween(run, c, y - 1, y)
  {
    hide IsRun, Sends;
    SendsAreOrdered(init, run, c);
    SendAt(init, run, c, y);
    var sends := Sends(run, c);
    assert sends[x].call <= sends[y - 1].call < sends[y].call;
  }

  // All the replays on a channel within a window of length `span` without a wipe, numbers `x` to
  // `y` of the list of sends, are at most floor(span / floor) + 1.
  lemma ReplayRateIsBounded(init: Engine, run: seq<Step>, c: string, x: nat, y: nat, span: real)
    requires IsRun(init, run) && NoWipeBetween(run, c, x, y)
    requires init.floor > 0.0 && SentAt(run, c, y) - SentAt(run, c, x) <= span
    ensures y - x + 1 <= (span / init.floor).Floor + 1
  {
    hide *;
    ReplaysSpread(init, run, c, x, y);
    DivideBound(y - x, init.floor, span);
  }

  lemma DivideBound(n: int, d: real, span: real)
    requires d > 0.0 && Times(n, d) <= span
    ensures n <= (span / d).Floor
  {
    var q := span / d;
    assert q * d == span;
    assert (n as real - q) * d <= 0.0;
    assert n as real <= q;
  }

  // ---------------------------------------------------------------- the reconnect payload

  // The last position noted for `c` since the last Direct degrade.
  function LastNoted(run: seq<Step>, c: string): Option<string> {
    if run == [] then None
    else
      var s := run[|run| - 1];
      if s.event.NotAvailable? then None
      else if s.event.NotePos? && s.event.channel == c && s.event.pos.Some? then s.event.pos
      else LastNoted(run[..|run| - 1], c)
  }

  ghost predicate Seen(run: seq<Step>, ev: Event -> bool) {
    exists i :: 0 <= i < |run| && ev(run[i].event)
  }

  lemma PosStep(e: Engine, now: real, ev: Event, c: string)
    ensures var e' := Apply(e, now, ev).0;
            && (if c in e'.pos then Some(e'.pos[c]) else None)
               == (if ev.NotAvailable? then None
                   else if ev.NotePos? && ev.channel == c && ev.pos.Some? then ev.pos
                   else if c in e.pos then Some(e.pos[c]) else None)
            && (e'.connectedOnce <==> e.connectedOnce || ev.MarkConnected?)
  {
    hide GapRec, CompleteRec, MessageRec, DueChannels, DueHistory, DueChannelActions, DueHistoryActions;
  }

  lemma {:induction false} PositionsAreTheLastNoted(init: Engine, run: seq<Step>, c: string)
    requires IsRun(init, run)
    ensures var e := Before(init, run, |run|);
            && (if c in e.pos then Some(e.pos[c]) else None) == LastNoted(run, c)
            && (e.direct <==> Seen(run, (ev: Event) => ev.NotAvailable?))
            && (e.connectedOnce <==> Seen(run, (ev: Event) => ev.MarkConnected?))
  {
    hide *;
    if run == [] {
      NothingNotedAtStart(init, run, c);
    } else {
      var n := |run| - 1;
      RunPrefix(init, run, n);
      assert |run[..n]| == n;
      PositionsAreTheLastNoted(init, run[..n], c);
      StepAt(init, run, n);
      ConfigurationAt(init, run, n);
      PosStepAt(Before(init, run, n), run[n], c);
      LastNotedStep(run, c);
      SeenStep(run, (ev: Event) => ev.NotAvailable?);
      SeenStep(run, (ev: Event) => ev.MarkConnected?);
    }
  }

  lemma NothingNotedAtStart(init: Engine, run: seq<Step>, c: string)
    requires IsRun(init, run) && run == []
    ensures var e := Before(init, run, 0);
            e.pos == map[] && !e.direct && !e.connectedOnce && LastNoted(run, c).None?
    ensures forall ev: Event -> bool :: !Seen(run, ev)
  {
  }

  lemma LastNotedStep(run: seq<Step>, c: string)
    requires run != []
    ensures var (ev, earlier) := (run[|run| - 1].event, LastNoted(run[..|run| - 1], c));
            LastNoted(run, c) == if ev.NotAvailable? then None
                                 else if ev.NotePos? && ev.channel == c && ev.pos.Some? then ev.pos
                                 else earlier
  {
  }

  lemma PosStepAt(e: Engine, s: Step, c: string)
    requires StepOf(e, s)
    ensures (if c in s.post.pos then Some(s.post.pos[c]) else None)
            == (if s.event.NotAvailable? then None
                else if s.event.NotePos? && s.event.channel == c && s.event.pos.Some? then s.event.pos
                else if c in e.pos then Some(e.pos[c]) else None)
    ensures s.post.connectedOnce <==> e.connectedOnce || s.event.MarkConnected?
  {
    hide Apply;
    PosStep(e, s.now, s.event, c);
  }

  lemma SeenStep(run: seq<Step>, ev: Event -> bool)
    requires run != []
    ensures Seen(run, ev) <==> Seen(run[..|run| - 1], ev) || ev(run[|run| - 1].event)
  {
    var n := |run| - 1;
    if i :| 0 <= i < n && ev(run[i].event) {
      assert run[..n][i] == run[i];
    }
    if ev(run[n].event) {
      assert Seen(run, ev);
    }
  }

  // A reconnect resumes every channel from the last position noted on it and names no other
  // channel; with nothing noted it probes once a connection has existed; after a Direct degrade
  // it is never sent again.
  lemma ReconnectResumesFromLastNoted(init: Engine, run: seq<Step>, j: nat)
    requires IsRun(init, run) && j < |run| && run[j].event.BuildReconnect?
    ensures Seen(run[..j], (ev: Event) => ev.NotAvailable?) ==> run[j].actions == []
    ensures !Seen(run[..j], (ev: Event) => ev.NotAvailable?) ==>
              if (exists c :: LastNoted(run[..j], c).Some?) || Seen(run[..j], (ev: Event) => ev.MarkConnected?)
              then |run[j].actions| == 1 && run[j].actions[0].SendReconnect?
                   && run[j].actions[0].clientId == init.clientId
                   && forall c :: LastNoted(run[..j], c)
                        == var m := run[j].actions[0].lastPos; if c in m then Some(m[c]) else None
              else run[j].actions == []
  {
    RunPrefix(init, run, j);
    Reachable(init, run, j);
    var e := Before(init, run, j);
    assert StepOf(e, run[j]);
    assert run[j].actions == Reconnect(e);
    assert Before(init, run[..j], j) == e;
    PositionsAreTheLastNoted(init, run[..j], "");
    forall c ensures (if c in e.pos then Some(e.pos[c]) else None) == LastNoted(run[..j], c) {
      hide *;
      PositionsAreTheLastNoted(init, run[..j], c);
    }
    hide IsRun, Inv, LastNoted, Seen;
    if |e.pos| > 0 {
      assert e.pos.Keys != {};
      var c :| c in e.pos;
      assert LastNoted(run[..j], c).Some?;
    } else {
      assert e.pos == map[];
    }
  }
}
