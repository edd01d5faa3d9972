/**
 * Exactly when a call sends a replay, reports a loss or opens and closes a history request, read
 * off the calls and the returned actions alone.
 */
module RecoveryCalls {
  import opened Prelude
  import opened RecoverySpec
  import opened RecoveryRuns
  import opened RecoveryGaps
  import opened RecoveryTimers

  // ---------------------------------------------------------------- the time of the last replay

  // Call `j` sent the latest replay on `c` before call `n`, and nothing has wiped it since.
  ghost predicate SentSince(run: seq<Step>, j: int, n: int, c: string) {
    0 <= j < n <= |run| && SendsReplay(run[j], c) && NoWipe(run, j, n)
  }

  // The stored replay time is that of a replay that was really sent.
  lemma {:induction false} LastReplayWasSent(init: Engine, run: seq<Step>, n: nat, c: string)
    requires IsRun(init, run) && n <= |run| && RecOf(Before(init, run, n), c).lastReplayAt.Some?
    ensures exists j :: SentSince(run, j, n, c) && run[j].now == RecOf(Before(init, run, n), c).lastReplayAt.value
  {
    hide IsRun, RecOf, SendsReplay;
    if n == 0 {
      NoReplayAtStart(init, run, c);
    } else if run[n - 1].event.Disconnect? || run[n - 1].event.NotAvailable? {
      WipedRecord(init, run, n - 1, c);
    } else {
      FloorStepInRun(init, run, n - 1, c);
      if SendsReplay(run[n - 1], c) {
        assert SentSince(run, n - 1, n, c);
      } else {
        LastReplayWasSent(init, run, n - 1, c);
        var j :| SentSince(run, j, n - 1, c)
                 && run[j].now == RecOf(Before(init, run, n - 1), c).lastReplayAt.value;
        assert SentSince(run, j, n, c);
      }
    }
  }

  lemma NoReplayAtStart(init: Engine, run: seq<Step>, c: string)
    requires IsRun(init, run)
    ensures RecOf(Before(init, run, 0), c).lastReplayAt.None?
  {
  }

  lemma WipedRecord(init: Engine, run: seq<Step>, k: nat, c: string)
    requires IsRun(init, run) && k < |run| && (run[k].event.Disconnect? || run[k].event.NotAvailable?)
    ensures RecOf(run[k].post, c) == FRESH && RecOf(run[k].post, c).lastReplayAt.None?
  {
    hide IsRun, RecOf, Inv, RecInv, Before, ShowsOutcome;
    StepProjection(init, run, k, c);
  }

  // No replay sent on `c` since the last wipe is younger than the floor.
  ghost predicate FloorClear(init: Engine, run: seq<Step>, n: int, now: real, c: string) {
    forall j | SentSince(run, j, n, c) :: now >= run[j].now + init.floor
  }

  lemma FloorClearIsOpen(init: Engine, run: seq<Step>, n: nat, now: real, c: string)
    requires IsRun(init, run) && n <= |run|
    ensures FloorClear(init, run, n, now, c) <==> FloorOpen(RecOf(Before(init, run, n), c), now, init.floor)
  {
    hide IsRun, RecOf, SendsReplay;
    var last := RecOf(Before(init, run, n), c).lastReplayAt;
    if last.Some? {
      LastReplayWasSent(init, run, n, c);
    }
    forall j | SentSince(run, j, n, c) ensures last.Some? && run[j].now <= last.value {
      ReplayIsRemembered(init, run, j, n, c);
    }
  }

  // ---------------------------------------------------------------- what the channel is doing

  ghost predicate InFlight(run: seq<Step>, c: string) {
    exists j :: Unended(run, j, c)
  }

  ghost predicate HasOpenGap(run: seq<Step>, c: string) {
    exists i :: OpenGap(run, i, c)
  }

  // The phase of a record, in terms of the calls so far.
  lemma PhaseIs(init: Engine, run: seq<Step>, n: nat, c: string)
    requires IsRun(init, run) && n <= |run|
    ensures var rec := RecOf(Before(init, run, n), c);
            && (rec.phase == Replaying <==> InFlight(run[..n], c))
            && (rec.phase == FloorWait <==> !InFlight(run[..n], c) && HasOpenGap(run[..n], c))
            && (rec.phase == Replaying ==> (rec.followup.Some? <==> HasOpenGap(run[..n], c)))
            && RecInv(Before(init, run, n), rec) && Before(init, run, n).floor == init.floor
  {
    RunPrefix(init, run, n);
    assert |run[..n]| == n && Before(init, run[..n], n) == Before(init, run, n);
    hide IsRun, RecOf, Unended, OpenGap;
    ReplayingIffUnended(init, run[..n], c);
    AnchorIsFirstOpenGap(init, run[..n], c);
    Reachable(init, run, n);
    RecOfInv(Before(init, run, n), c);
    hide Inv;
    var pending := Pending(RecOf(Before(init, run, n), c));
    assert pending.Some? ==> HasOpenGap(run[..n], c) by {
      if pending.Some? {
        var i :| FirstOpenGap(run[..n], i, c) && PosOf(run[..n], i) == pending.value;
        assert OpenGap(run[..n], i, c);
      }
    }
  }

  // ---------------------------------------------------------------- exactly when a replay is sent

  // What asks for a replay: a gap on a quiet channel, the completion of a replay with a gap open
  // behind it, or the timer while a gap waits.
  ghost predicate WantsReplay(run: seq<Step>, k: int, c: string)
    requires 0 <= k < |run|
  {
    var (flying, open) := (InFlight(run[..k], c), HasOpenGap(run[..k], c));
    || (run[k].event.Gap? && run[k].event.channel == c && !flying && !open)
    || (run[k].event == ReplayComplete(c) && flying && open)
    || (run[k].event.Due? && !flying && open)
  }

  lemma StepSendsWhen(e: Engine, now: real, ev: Event, c: string)
    requires RecInv(e, RecOf(e, c))
    ensures var rec := RecOf(e, c);
            ChanStep(e, now, ev, c).1.Replay? <==>
              FloorOpen(rec, now, e.floor) &&
              (|| (ev.Gap? && ev.channel == c && rec.phase == Idle)
               || (ev == ReplayComplete(c) && rec.phase == Replaying && rec.followup.Some?)
               || (ev.Due? && rec.phase == FloorWait))
  {
  }

  // In every run, a call sends a replay on a channel if and only if it asks for one and no replay
  // sent since the last wipe is younger than the floor.
  lemma ReplaySentExactlyWhen(init: Engine, run: seq<Step>, k: nat, c: string)
    requires IsRun(init, run) && k < |run|
    ensures SendsReplay(run[k], c) <==> WantsReplay(run, k, c) && FloorClear(init, run, k, run[k].now, c)
  {
    var e, now, ev := Before(init, run, k), run[k].now, run[k].event;
    hide IsRun, RecOf, SendsReplay, ReportsLoss, InFlight, HasOpenGap, FloorClear, FloorOpen, ChanStep, ShowsOutcome;
    hide Inv, RecInv, Before;
    PhaseIs(init, run, k, c);
    FloorClearIsOpen(init, run, k, now, c);
    StepProjection(init, run, k, c);
    OutcomeOfChannel(e, now, ev, c);
    SettlesIsOutcome(run[k], c, ChanStep(e, now, ev, c).1);
    StepSendsWhen(e, now, ev, c);
    hide *;
    PhaseCases(RecOf(e, c).phase);
  }

  lemma PhaseCases(phase: Phase)
    ensures phase == Idle <==> phase != Replaying && phase != FloorWait
  {
  }

  // A gap that finds neither a replay in flight nor an open gap is replayed by that very call, from
  // its own position, if and only if the floor is clear.
  lemma GapIsReplayedAtOnceIff(init: Engine, run: seq<Step>, k: nat, c: string, p: string)
    requires IsRun(init, run) && k < |run| && run[k].event == Gap(c, p)
    requires !InFlight(run[..k], c) && !HasOpenGap(run[..k], c)
    ensures SendReplay(c, p) in run[k].actions <==> FloorClear(init, run, k, run[k].now, c)
  {
    hide IsRun, RecOf, InFlight, HasOpenGap, FloorClear, Settles, RecInv, ReportsLoss, Before;
    ReplaySentExactlyWhen(init, run, k, c);
    PhaseIs(init, run, k, c);
    GapStep(init, run, k, c);
  }

  // The completion of a replay with a gap open behind it starts the next one at once, from the
  // oldest open gap, if and only if the floor is clear; with no gap open it sends nothing.
  lemma CompletionFollowsUpIff(init: Engine, run: seq<Step>, k: nat, c: string)
    requires IsRun(init, run) && k < |run| && run[k].event == ReplayComplete(c) && InFlight(run[..k], c)
    ensures (exists i, p :: AnchorOf(run, k, i, c) && PosOf(run, i) == p && SendReplay(c, p) in run[k].actions)
            <==> HasOpenGap(run[..k], c) && FloorClear(init, run, k, run[k].now, c)
  {
    hide IsRun, InFlight, HasOpenGap, FloorClear, AnchorOf, PosOf;
    ReplaySentExactlyWhen(init, run, k, c);
    if p :| SendReplay(c, p) in run[k].actions {
      ReplayStartsAtOldestOpenGap(init, run, k, c, p);
      var i :| AnchorOf(run, k, i, c) && PosOf(run, i) == p;
    }
  }

  // ---------------------------------------------------------------- exactly when a loss is reported

  lemma StepReportsWhen(e: Engine, now: real, ev: Event, c: string)
    requires RecInv(e, RecOf(e, c))
    ensures var (phase, out) := (RecOf(e, c).phase, ChanStep(e, now, ev, c).1);
            && (out == Report(MidRecoveryDisconnect) <==> ev.Disconnect? && phase != Idle)
            && (forall code :: out == Report(Failure(code)) <==> ev == RecoveryFailure(c, code))
            && (out == Report(ReplayTimeout) ==> ev.Due? && phase == Replaying)
  {
    hide FloorOpen, Earliest;
  }

  // A disconnect reports a channel exactly if a replay is in flight or a gap is open there, and a
  // recovery failure is reported with its own code, always and only then.
  lemma LossReportedExactlyWhen(init: Engine, run: seq<Step>, k: nat, c: string, code: string)
    requires IsRun(init, run) && k < |run|
    ensures RaiseRecoveryInterrupted(c, MidRecoveryDisconnect) in run[k].actions <==>
              run[k].event.Disconnect? && (InFlight(run[..k], c) || HasOpenGap(run[..k], c))
    ensures RaiseRecoveryInterrupted(c, Failure(code)) in run[k].actions <==> run[k].event == RecoveryFailure(c, code)
  {
    var e, now, ev := Before(init, run, k), run[k].now, run[k].event;
    hide IsRun, RecOf, InFlight, HasOpenGap, ChanStep, ShowsOutcome, Inv, RecInv, Before;
    PhaseIs(init, run, k, c);
    StepProjection(init, run, k, c);
    ShownMembers(run[k].actions, c, ChanStep(e, now, ev, c).1);
    StepReportsWhen(e, now, ev, c);
    assert RecoveryReason(MidRecoveryDisconnect) && RecoveryReason(Failure(code));
  }

  // A timeout is reported by a call of `due`, if and only if a full window of genuine silence has
  // passed since the request was last armed.
  lemma TimeoutIffGenuineSilence(init: Engine, run: seq<Step>, j: nat, c: string, kind: Watched)
    requires IsRun(init, run) && j < |run|
    ensures TimesOut(run[j], c, kind) <==>
              run[j].event.Due? && exists a :: GenuineSilence(init, run, a, j, c, kind)
  {
    hide IsRun, TimesOut, Watch, Frame, Rearmed, GenuineSilence, Before;
    WatchStepInRun(init, run, j, c, kind);
    if TimesOut(run[j], c, kind) {
      NoFalseAlarm(init, run, j, c, kind);
    }
    if run[j].event.Due? {
      forall a | GenuineSilence(init, run, a, j, c, kind) ensures TimesOut(run[j], c, kind) {
        SilenceStands(init, run, a, j, c, kind);
      }
    }
  }

  lemma SilenceStands(init: Engine, run: seq<Step>, a: int, j: nat, c: string, kind: Watched)
    requires IsRun(init, run) && j < |run| && GenuineSilence(init, run, a, j, c, kind)
    ensures var (e, w) := (Before(init, run, j), Watch(Before(init, run, j), c, kind));
            w.Some? && run[j].now >= w.value.deadline && !Suspends(e, w.value.episodes)
  {
    hide IsRun, Watch, Frame;
    SilenceBounds(init, run, a, j, c, kind);
    ArmedDeadline(init, run, a, c, kind);
    assert Before(init, run, j) == run[j - 1].post;
    assert Watch(run[j - 1].post, c, kind) == Watch(run[a].post, c, kind);
    assert run[j - 1].post.episodes == run[a].post.episodes;
  }

  // ---------------------------------------------------------------- history requests

  // The call ends the history request on `c`: it completes, times out or is cut off.
  ghost predicate EndsHistory(s: Step, c: string) {
    s.event == HistoryComplete(c) || s.event.Disconnect? || TimesOut(s, c, HistoryWatch)
  }

  ghost predicate UnendedRequest(run: seq<Step>, j: int, c: string) {
    0 <= j < |run| && run[j].event == HistoryRequest(c) && forall m | j < m < |run| :: !EndsHistory(run[m], c)
  }

  lemma HistoryPhaseStep(init: Engine, run: seq<Step>, k: nat, c: string)
    requires IsRun(init, run) && k < |run|
    ensures HistOf(run[k].post, c).Some? <==>
              run[k].event == HistoryRequest(c) || (HistOf(Before(init, run, k), c).Some? && !EndsHistory(run[k], c))
  {
    hide IsRun, HistOf, Inv, Before, HistStep, TimesOut, StepOf;
    Reachable(init, run, k);
    StepAt(init, run, k);
    HistoryShown(Before(init, run, k), run[k], c);
    HistoryStepPhase(Before(init, run, k), run[k].now, run[k].event, c);
  }

  lemma HistoryStepPhase(e: Engine, now: real, ev: Event, c: string)
    ensures var (h, reason) := HistStep(e, now, ev, c);
            h.Some? <==> ev == HistoryRequest(c)
                         || (HistOf(e, c).Some? && ev != HistoryComplete(c) && !ev.Disconnect?
                             && reason != Some(HistoryTimeout))
  {
  }

  lemma UnendedRequestStep(run: seq<Step>, j: int, c: string)
    requires run != []
    ensures var n := |run| - 1;
            UnendedRequest(run, j, c) <==> (j == n && run[n].event == HistoryRequest(c))
                                           || (UnendedRequest(run[..n], j, c) && !EndsHistory(run[n], c))
  {
    hide EndsHistory;
    assert forall m | 0 <= m < |run| - 1 :: run[..|run| - 1][m] == run[m];
  }

  // In every run a history deadline stands for a channel if and only if some request on it has
  // neither completed nor timed out nor been cut off; frames of a request that is not open, and a
  // Direct degrade, open and close nothing.
  lemma {:induction false} HistoryOpenIffUnended(init: Engine, run: seq<Step>, c: string)
    requires IsRun(init, run)
    ensures HistOf(Before(init, run, |run|), c).Some? <==> exists j :: UnendedRequest(run, j, c)
  {
    hide IsRun, HistOf, EndsHistory;
    if run == [] {
      NoHistoryAtStart(init, run, c);
    } else {
      var n := |run| - 1;
      RunPrefix(init, run, n);
      HistoryOpenIffUnended(init, run[..n], c);
      assert Before(init, run[..n], n) == Before(init, run, n);
      HistoryPhaseStep(init, run, n, c);
      forall j ensures UnendedRequest(run, j, c) <==>
          (j == n && run[n].event == HistoryRequest(c)) || (UnendedRequest(run[..n], j, c) && !EndsHistory(run[n], c))
      {
        UnendedRequestStep(run, j, c);
      }
      hide UnendedRequest;
      if run[n].event == HistoryRequest(c) {
        assert UnendedRequest(run, n, c);
      }
    }
  }

  lemma NoHistoryAtStart(init: Engine, run: seq<Step>, c: string)
    requires IsRun(init, run) && run == []
    ensures HistOf(Before(init, run, 0), c).None?
  {
  }

  // ---------------------------------------------------------------- the order of actions

  // The channels of the actions come in the order of the keys, none twice.
  ghost predicate InOrder(keys: seq<string>, actions: seq<Action>) {
    && (forall i | 0 <= i < |actions| :: !actions[i].SendReconnect? && actions[i].channel in keys)
    && (forall i, j, x, y | 0 <= i < j < |actions| && 0 <= x < |keys| && 0 <= y < |keys|
          && keys[x] == actions[i].channel && keys[y] == actions[j].channel :: x < y)
  }

  lemma InOrderStep(keys: seq<string>, actions: seq<Action>, more: seq<Action>)
    requires keys != [] && NoDuplicates(keys) && InOrder(keys[..|keys| - 1], actions)
    requires more == [] || (|more| == 1 && !more[0].SendReconnect? && more[0].channel == keys[|keys| - 1])
    ensures InOrder(keys, actions + more)
  {
    var n := |keys| - 1;
    var all := actions + more;
    forall i | 0 <= i < |actions| ensures actions[i].channel in keys && actions[i].channel != keys[n] {
      var x :| 0 <= x < n && keys[..n][x] == actions[i].channel;
      assert keys[x] == actions[i].channel;
    }
    forall i, j, x, y | 0 <= i < j < |all| && 0 <= x < |keys| && 0 <= y < |keys|
        && keys[x] == all[i].channel && keys[y] == all[j].channel
      ensures x < y
    {
      if j < |actions| {
        assert keys[..n][x] == actions[i].channel && keys[..n][y] == actions[j].channel;
      } else {
        assert i < |actions| && x != n && y == n;
      }
    }
  }

  lemma {:induction false} DueChannelsInOrder(e: Engine, now: real, keys: seq<string>)
    requires NoDuplicates(keys)
    ensures InOrder(keys, DueChannelActions(e, now, keys))
  {
    hide DueRec, RecOf, InOrder;
    if keys == [] {
      NothingInOrder();
    } else {
      var n := |keys| - 1;
      DueChannelsInOrder(e, now, keys[..n]);
      InOrderStep(keys, DueChannelActions(e, now, keys[..n]), ToActions(keys[n], DueRec(e, RecOf(e, keys[n]), now).1));
    }
  }

  lemma {:induction false} DueHistoryInOrder(e: Engine, now: real, keys: seq<string>)
    requires NoDuplicates(keys)
    ensures InOrder(keys, DueHistoryActions(e, now, keys))
  {
    hide HistoryFires, InOrder;
    if keys == [] {
      NothingInOrder();
    } else {
      var n := |keys| - 1;
      DueHistoryInOrder(e, now, keys[..n]);
      InOrderStep(keys, DueHistoryActions(e, now, keys[..n]),
                  if HistoryFires(e, now, keys[n]) then [RaiseRecoveryInterrupted(keys[n], HistoryTimeout)] else []);
    }
  }

  lemma NothingInOrder()
    ensures InOrder([], [])
  {
  }

  // What `due` returns is a list about the channel records followed by a list of history timeouts,
  // each in the order in which the channels entered its table.
  lemma DueKeepsTableOrder(e: Engine, now: real)
    requires Inv(e)
    ensures exists n | 0 <= n <= |Apply(e, now, Due).1| ::
              var actions := Apply(e, now, Due).1;
              && InOrder(e.channels.keys, actions[..n]) && InOrder(e.history.keys, actions[n..])
              && (forall i | 0 <= i < |actions| ::
                    actions[i].RaiseRecoveryInterrupted? && actions[i].reason == HistoryTimeout <==> i >= n)
  {
    assert NoDuplicates(e.channels.keys) && NoDuplicates(e.history.keys);
    var first, second := DueChannelActions(e, now, e.channels.keys), DueHistoryActions(e, now, e.history.keys);
    var actions := Apply(e, now, Due).1;
    assert actions == first + second;
    hide Inv, InOrder, Apply;
    DueChannelsInOrder(e, now, e.channels.keys);
    DueHistoryInOrder(e, now, e.history.keys);
    OnlyOneKind(e, now, e.channels.keys);
    OnlyOneKind(e, now, e.history.keys);
    hide DueChannelActions, DueHistoryActions;
    assert actions[..|first|] == first && actions[|first|..] == second;
    forall i | 0 <= i < |actions|
      ensures actions[i].RaiseRecoveryInterrupted? && actions[i].reason == HistoryTimeout <==> i >= |first|
    {
      assert i < |first| ==> actions[i] == first[i];
      assert i >= |first| ==> actions[i] == second[i - |first|];
    }
  }

  lemma {:induction false} OnlyOneKind(e: Engine, now: real, keys: seq<string>)
    ensures forall a | a in DueChannelActions(e, now, keys) ::
              !(a.RaiseRecoveryInterrupted? && a.reason == HistoryTimeout)
    ensures forall a | a in DueHistoryActions(e, now, keys) ::
              a.RaiseRecoveryInterrupted? && a.reason == HistoryTimeout
  {
    hide HistoryFires, RecOf;
    if keys != [] {
      OnlyOneKind(e, now, keys[..|keys| - 1]);
      DueOutcome(e, now, keys[|keys| - 1]);
      hide DueRec;
    }
  }
}
