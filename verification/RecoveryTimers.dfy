/**
 * The clock-driven half of the engine: `due` and `next_deadline` agree, a detection deadline is
 * never a false alarm, and a silent server is reported in bounded time.
 */
module RecoveryTimers {
  import opened Prelude
  import opened RecoverySpec
  import opened RecoveryRuns

  // ---------------------------------------------------------------- due and next_deadline

  predicate RecDue(rec: Rec, t: real) {
    || (rec.phase == FloorWait && rec.floorWake.Some? && rec.floorWake.value <= t)
    || (rec.deadline.Some? && rec.deadline.value <= t)
  }

  // No timer of any channel or history request has expired at `t`.
  ghost predicate NothingDue(e: Engine, t: real) {
    && (forall c | c in e.channels.vals :: !RecDue(e.channels.vals[c], t))
    && (forall c | c in e.history.vals :: t < e.history.vals[c].deadline)
  }

  lemma {:induction false} ChannelTimesDue(e: Engine, keys: seq<string>, t: real)
    ensures (forall x | x in ChannelTimes(e, keys) :: t < x)
            <==> forall i | 0 <= i < |keys| :: !RecDue(RecOf(e, keys[i]), t)
  {
    if keys != [] {
      var n := |keys| - 1;
      ChannelTimesDue(e, keys[..n], t);
      var rec := RecOf(e, keys[n]);
      var wake := if rec.phase == FloorWait && rec.floorWake.Some? then [rec.floorWake.value] else [];
      var late := if rec.deadline.Some? then [rec.deadline.value] else [];
      assert ChannelTimes(e, keys) == ChannelTimes(e, keys[..n]) + wake + late;
      forall x ensures x in ChannelTimes(e, keys) <==>
                       x in ChannelTimes(e, keys[..n]) || x in wake || x in late {}
      assert RecDue(rec, t) <==> (exists x :: x in wake && x <= t) || (exists x :: x in late && x <= t) by {
        if RecDue(rec, t) {
          if rec.deadline.Some? && rec.deadline.value <= t {
            assert rec.deadline.value in late;
          } else {
            assert rec.floorWake.value in wake;
          }
        }
      }
    }
  }

  lemma {:induction false} HistoryTimesDue(e: Engine, keys: seq<string>, t: real)
    ensures (forall x | x in HistoryTimes(e, keys) :: t < x)
            <==> forall i | 0 <= i < |keys| :: HistOf(e, keys[i]).Some? ==> t < HistOf(e, keys[i]).value.deadline
  {
    if keys != [] {
      var n := |keys| - 1;
      HistoryTimesDue(e, keys[..n], t);
      var h := HistOf(e, keys[n]);
      var late := if h.Some? then [h.value.deadline] else [];
      assert HistoryTimes(e, keys) == HistoryTimes(e, keys[..n]) + late;
      forall x ensures x in HistoryTimes(e, keys) <==> x in HistoryTimes(e, keys[..n]) || x in late {}
      if h.Some? {
        assert h.value.deadline in late;
      }
    }
  }

  // `next_deadline` is none or later than `t` exactly when nothing is due at `t`.
  lemma NextDeadlineIsExact(e: Engine, t: real)
    requires Inv(e)
    ensures NextDeadline(e).None? || t < NextDeadline(e).value <==> NothingDue(e, t)
  {
    var channelTimes, historyTimes := ChannelTimes(e, e.channels.keys), HistoryTimes(e, e.history.keys);
    ChannelTimesDue(e, e.channels.keys, t);
    HistoryTimesDue(e, e.history.keys, t);
    hide ChannelTimes, HistoryTimes, RecDue, RecInv;
    forall c ensures c in e.channels.vals <==> c in e.channels.keys {}
    forall c ensures c in e.history.vals <==> c in e.history.keys {}
    var all := channelTimes + historyTimes;
    forall x ensures x in all <==> x in channelTimes || x in historyTimes {}
    assert NextDeadline(e).None? || t < NextDeadline(e).value <==> forall x | x in all :: t < x;
    assert NothingDue(e, t) <==>
      (forall c | c in e.channels.vals :: !RecDue(RecOf(e, c), t))
      && (forall c | c in e.history.vals :: t < HistOf(e, c).value.deadline);
  }

  lemma RecNotDue(e: Engine, rec: Rec, t: real)
    requires RecInv(e, rec)
    ensures !RecDue(rec, t) ==> DueRec(e, rec, t) == (rec, Quiet)
    ensures RecDue(rec, t) && e.window > 0.0 ==> DueRec(e, rec, t).0 != rec
    ensures e.window > 0.0 ==> !RecDue(DueRec(e, rec, t).0, t)
  {
  }

  lemma {:induction false} NothingFires(e: Engine, t: real, keys: seq<string>)
    requires Inv(e) && NothingDue(e, t)
    ensures DueChannelActions(e, t, keys) == [] && DueHistoryActions(e, t, keys) == []
    ensures SurvivingKeys(e, t, keys) == keys
  {
    hide DueRec, RecOf, HistoryFires, Inv, NothingDue;
    if keys != [] {
      var n := |keys| - 1;
      NothingFires(e, t, keys[..n]);
      OneIsQuiet(e, t, keys[n]);
      hide DueChannelActions, DueHistoryActions, SurvivingKeys;
      QuietStep(e, t, keys);
      assert keys == keys[..n] + [keys[n]];
    }
  }

  lemma QuietStep(e: Engine, t: real, keys: seq<string>)
    requires keys != [] && !HistoryFires(e, t, keys[|keys| - 1])
    requires DueRec(e, RecOf(e, keys[|keys| - 1]), t).1 == Quiet
    ensures var earlier := keys[..|keys| - 1];
            && DueChannelActions(e, t, keys) == DueChannelActions(e, t, earlier) + []
            && DueHistoryActions(e, t, keys) == DueHistoryActions(e, t, earlier) + []
            && SurvivingKeys(e, t, keys) == SurvivingKeys(e, t, earlier) + [keys[|keys| - 1]]
  {
    hide DueRec, RecOf, HistoryFires;
  }

  lemma OneIsQuiet(e: Engine, t: real, c: string)
    requires Inv(e) && NothingDue(e, t)
    ensures DueRec(e, RecOf(e, c), t) == (RecOf(e, c), Quiet) && !HistoryFires(e, t, c)
  {
    hide DueRec, RecInv, RecDue;
    RecOfInv(e, c);
    RecNotDue(e, RecOf(e, c), t);
    assert !RecDue(RecOf(e, c), t) by {
      FreshNotDue(t);
    }
  }

  lemma FreshNotDue(t: real)
    ensures !RecDue(FRESH, t)
  {
  }

  lemma RecordsIdle(e: Engine, t: real)
    requires Inv(e) && NothingDue(e, t)
    ensures DueChannels(e, t) == e.channels
  {
    hide DueRec, RecDue, RecInv;
    forall c | c in e.channels.vals ensures DueRec(e, e.channels.vals[c], t).0 == e.channels.vals[c] {
      RecNotDue(e, e.channels.vals[c], t);
    }
    assert DueChannels(e, t).vals == e.channels.vals;
  }

  lemma DueIsIdleWhenNothingDue(e: Engine, t: real)
    requires Inv(e) && NothingDue(e, t)
    ensures AfterDue(e, t) == (e, [])
  {
    hide DueRec, RecDue, RecInv, DueChannels, DueChannelActions, DueHistoryActions, SurvivingKeys;
    NothingFires(e, t, e.channels.keys);
    NothingFires(e, t, e.history.keys);
    RecordsIdle(e, t);
    assert DueHistory(e, t).vals == e.history.vals;
    assert DueHistory(e, t) == e.history;
    assert AfterDue(e, t).1 == [];
  }

  lemma DueChangesSomething(e: Engine, t: real)
    requires Inv(e) && !NothingDue(e, t) && e.window > 0.0
    ensures AfterDue(e, t).0 != e
  {
    hide DueRec, RecDue, RecInv;
    if c :| c in e.channels.vals && RecDue(e.channels.vals[c], t) {
      RecNotDue(e, e.channels.vals[c], t);
      assert DueChannels(e, t).vals[c] != e.channels.vals[c];
    } else {
      var c :| c in e.history.vals && e.history.vals[c].deadline <= t;
      assert c !in DueHistory(e, t).vals || DueHistory(e, t).vals[c] != e.history.vals[c];
    }
  }

  lemma NothingDueAfterDue(e: Engine, t: real)
    requires Inv(e) && e.window > 0.0
    ensures NothingDue(AfterDue(e, t).0, t)
  {
    hide DueRec, RecDue, RecInv;
    forall c | c in e.channels.vals ensures !RecDue(DueChannels(e, t).vals[c], t) {
      RecNotDue(e, e.channels.vals[c], t);
    }
  }

  // At clock reading `t`, `due` returns nothing and changes nothing exactly when `next_deadline`
  // names no time up to `t`.
  ghost predicate TimersAgree(e: Engine, t: real) {
    AfterDue(e, t) == (e, []) <==> NextDeadline(e).None? || t < NextDeadline(e).value
  }

  // Once `due` has run at `t`, `next_deadline` names no time up to `t`: the timer loop moves on.
  ghost predicate TimerMovesOn(e: Engine, t: real) {
    var e' := AfterDue(e, t).0;
    NextDeadline(e').None? || t < NextDeadline(e').value
  }

  lemma TimersAgreeAndMoveOn(e: Engine, t: real)
    requires Inv(e) && e.window > 0.0
    ensures TimersAgree(e, t) && TimerMovesOn(e, t)
  {
    hide Inv, AfterDue, NextDeadline, NothingDue;
    NextDeadlineIsExact(e, t);
    if NothingDue(e, t) {
      DueIsIdleWhenNothingDue(e, t);
    } else {
      DueChangesSomething(e, t);
    }
    DueKeepsInv(e, t);
    NothingDueAfterDue(e, t);
    NextDeadlineIsExact(AfterDue(e, t).0, t);
  }

  ghost predicate TimersAlwaysAgree(init: Engine) {
    forall run: seq<Step>, t | IsRun(init, run) && (run != [] ==> run[|run| - 1].now <= t) ::
      TimersAgree(Before(init, run, |run|), t)
  }

  ghost predicate TimerAlwaysMovesOn(init: Engine) {
    forall run: seq<Step>, t | IsRun(init, run) && (run != [] ==> run[|run| - 1].now <= t) ::
      TimerMovesOn(Before(init, run, |run|), t)
  }

  function Paused(init: Engine): Engine {
    Apply(init, 0.0, Backpressure(true)).0
  }

  function Stalled(init: Engine): Engine {
    ArmHistory(Paused(init), "", 0.0)
  }

  lemma StalledIsReachable(init: Engine) returns (run: seq<Step>)
    requires init == NewEngine(init.clientId, init.floor, init.window)
    ensures IsRun(init, run) && |run| == 2 && run[1].now == 0.0
    ensures Before(init, run, 2) == Stalled(init)
  {
    assert Apply(init, 0.0, Backpressure(true)) == (Paused(init), []);
    assert Apply(Paused(init), 0.0, HistoryRequest("")) == (Stalled(init), []);
    var s1, s2 := Step(0.0, Backpressure(true), [], Paused(init)), Step(0.0, HistoryRequest(""), [], Stalled(init));
    hide Apply, Paused, Stalled;
    run := [s1, s2];
    assert StepOf(Before(init, run, 0), run[0]) && StepOf(Before(init, run, 1), run[1]);
  }

  // With a deadline that is not positive, a history request made while paused is re-armed
  // in place: `due` changes nothing and is due again at once.
  lemma NonPositiveDeadlineSpins(init: Engine)
    requires init == NewEngine(init.clientId, init.floor, init.window) && init.window <= 0.0
    ensures var e := Stalled(init);
            !TimersAgree(e, 0.0) && !TimerMovesOn(e, 0.0)
  {
    var e := Stalled(init);
    var armed := Armed(0.0 + e.window, e.episodes);
    assert e.history == Dict([""], map["" := armed]);
    assert !HistoryFires(e, 0.0, "");
    assert SurvivingKeys(e, 0.0, [""]) == [""] by {
      assert [""][..0] == [];
    }
    assert DueHistoryActions(e, 0.0, [""]) == [] by {
      assert [""][..0] == [];
    }
    assert DueChannels(e, 0.0) == e.channels;
    assert DueHistory(e, 0.0).vals == e.history.vals;
    assert AfterDue(e, 0.0) == (e, []);
    assert HistoryTimes(e, [""]) == [armed.deadline] by {
      assert [""][..0] == [];
    }
  }

  // In every run `due` and `next_deadline` agree, and the timer loop cannot spin, exactly when
  // the configured deadline is positive.
  lemma TimersAgreeIffDeadlinePositive(init: Engine)
    requires init == NewEngine(init.clientId, init.floor, init.window)
    ensures TimersAlwaysAgree(init) <==> init.window > 0.0
    ensures TimerAlwaysMovesOn(init) <==> init.window > 0.0
  {
    hide TimersAgree, TimerMovesOn, IsRun;
    if init.window > 0.0 {
      forall run: seq<Step>, t | IsRun(init, run) && (run != [] ==> run[|run| - 1].now <= t)
        ensures TimersAgree(Before(init, run, |run|), t) && TimerMovesOn(Before(init, run, |run|), t)
      {
        Reachable(init, run, |run|);
        TimersAgreeAndMoveOn(Before(init, run, |run|), t);
      }
    } else {
      var run := StalledIsReachable(init);
      NonPositiveDeadlineSpins(init);
    }
  }

  // ---------------------------------------------------------------- armed deadlines

  // The two kinds of request a silence deadline watches.
  datatype Watched = ReplayWatch | HistoryWatch

  function Watch(e: Engine, c: string, kind: Watched): Option<Armed> {
    match kind
    case ReplayWatch =>
      var rec := RecOf(e, c);
      if rec.phase == Replaying && rec.deadline.Some?
      then Some(Armed(rec.deadline.value, rec.armEpisodes)) else None
    case HistoryWatch => HistOf(e, c)
  }

  // Events that say something about the request: its frames, its end, and the wipes.
  predicate Frame(ev: Event, c: string, kind: Watched) {
    ev.Disconnect? ||
    match kind
    case ReplayWatch =>
      ev == ReplayMessage(c) || ev == ReplayComplete(c) || ev.NotAvailable?
      || (ev.RecoveryFailure? && ev.channel == c)
    case HistoryWatch =>
      ev == HistoryRequest(c) || ev == HistoryMessage(c) || ev == HistoryComplete(c)
  }

  predicate TimesOut(s: Step, c: string, kind: Watched) {
    RaiseRecoveryInterrupted(c, if kind.ReplayWatch? then ReplayTimeout else HistoryTimeout) in s.actions
  }

  function Rearmed(e: Engine, now: real): Armed {
    Armed(now + e.window, e.episodes)
  }

  // What one call does to an armed deadline: report it, re-arm it, drop it or leave it alone.
  ghost predicate WatchStep(e: Engine, s: Step, c: string, kind: Watched) {
    var w, w' := Watch(e, c, kind), Watch(s.post, c, kind);
    var expired := s.event.Due? && w.Some? && s.now >= w.value.deadline;
    && (TimesOut(s, c, kind) <==> expired && !Suspends(e, w.value.episodes))
    && (TimesOut(s, c, kind) ==> w'.None?)
    && (w'.Some? ==> w' == w || w'.value == Rearmed(s.post, s.now))
    && (w'.Some? && Frame(s.event, c, kind) ==> w'.value == Rearmed(s.post, s.now))
    && (w.Some? && !Frame(s.event, c, kind) && !TimesOut(s, c, kind) ==>
          w' == if expired then Some(Rearmed(s.post, s.now)) else w)
  }

  lemma ReplayWatchStep(e: Engine, now: real, ev: Event, c: string)
    requires RecInv(e, RecOf(e, c))
    ensures var (rec, out) := ChanStep(e, now, ev, c);
            var w := Watch(e, c, ReplayWatch);
            var w' := if rec.phase == Replaying && rec.deadline.Some?
                      then Some(Armed(rec.deadline.value, rec.armEpisodes)) else None;
            var expired := ev.Due? && w.Some? && now >= w.value.deadline;
            && (out == Report(ReplayTimeout) <==> expired && !Suspends(e, w.value.episodes))
            && (out == Report(ReplayTimeout) ==> w'.None?)
            && (w'.Some? ==> w' == w || w'.value == Rearmed(e, now))
            && (w'.Some? && Frame(ev, c, ReplayWatch) ==> w'.value == Rearmed(e, now))
            && (w'.Some? && w' != w ==> !ev.Backpressure?)
            && (w.Some? && !Frame(ev, c, ReplayWatch) && out != Report(ReplayTimeout) ==>
                  w' == if expired then Some(Rearmed(e, now)) else w)
  {
    hide FloorOpen, Earliest;
  }

  lemma HistoryWatchStep(e: Engine, now: real, ev: Event, c: string)
    ensures var (w', reason) := HistStep(e, now, ev, c);
            var fires := reason == Some(HistoryTimeout);
            var w := HistOf(e, c);
            var expired := ev.Due? && w.Some? && now >= w.value.deadline;
            && (fires <==> expired && !Suspends(e, w.value.episodes))
            && (fires ==> w'.None?)
            && (w'.Some? ==> w' == w || w'.value == Rearmed(e, now))
            && (w'.Some? && Frame(ev, c, HistoryWatch) ==> w'.value == Rearmed(e, now))
            && (w'.Some? && w' != w ==> !ev.Backpressure?)
            && (w.Some? && !Frame(ev, c, HistoryWatch) && !fires ==>
                  w' == if expired then Some(Rearmed(e, now)) else w)
  {
  }

  // What one call shows of the replay in flight on `c`.
  lemma ReplayShown(e: Engine, s: Step, c: string)
    requires Inv(e) && StepOf(e, s)
    ensures RecInv(e, RecOf(e, c)) && RecOf(s.post, c) == ChanStep(e, s.now, s.event, c).0
    ensures TimesOut(s, c, ReplayWatch) <==> ChanStep(e, s.now, s.event, c).1 == Report(ReplayTimeout)
  {
    hide Apply, ChanStep, RecOf, Inv, RecInv, ShowsOutcome;
    RecOfInv(e, c);
    Projection(e, s.now, s.event, c);
    ShownMembers(s.actions, c, ChanStep(e, s.now, s.event, c).1);
  }

  lemma HistoryShown(e: Engine, s: Step, c: string)
    requires Inv(e) && StepOf(e, s)
    ensures HistOf(s.post, c) == HistStep(e, s.now, s.event, c).0
    ensures TimesOut(s, c, HistoryWatch) <==> HistStep(e, s.now, s.event, c).1 == Some(HistoryTimeout)
  {
    hide Apply, HistStep, HistOf, Inv, ShowsReport;
    HistoryProjection(e, s.now, s.event, c);
    ReportedMembers(s.actions, c, HistStep(e, s.now, s.event, c).1);
  }

  lemma PauseShown(e: Engine, s: Step)
    requires StepOf(e, s)
    ensures s.post.window == e.window && (!s.event.Backpressure? ==> s.post.episodes == e.episodes)
  {
    hide Apply;
    ApplyKeepsConfiguration(e, s.now, s.event);
  }

  lemma ReplayWatchStepOf(e: Engine, s: Step, c: string)
    requires Inv(e) && StepOf(e, s)
    ensures WatchStep(e, s, c, ReplayWatch)
  {
    ReplayShown(e, s, c);
    PauseShown(e, s);
    hide StepOf, ChanStep, RecOf, Suspends, RecInv, Inv, Frame, TimesOut;
    ReplayWatchStep(e, s.now, s.event, c);
  }

  lemma HistoryWatchStepOf(e: Engine, s: Step, c: string)
    requires Inv(e) && StepOf(e, s)
    ensures WatchStep(e, s, c, HistoryWatch)
  {
    HistoryShown(e, s, c);
    PauseShown(e, s);
    hide StepOf, HistStep, HistOf, Suspends, Inv, Frame, TimesOut;
    HistoryWatchStep(e, s.now, s.event, c);
  }

  lemma WatchStepInRun(init: Engine, run: seq<Step>, k: nat, c: string, kind: Watched)
    requires IsRun(init, run) && k < |run|
    ensures WatchStep(Before(init, run, k), run[k], c, kind)
    ensures Before(init, run, k).window == init.window && run[k].post.window == init.window
  {
    hide WatchStep, StepOf, Inv;
    Reachable(init, run, k);
    Reachable(init, run, k + 1);
    match kind
    case ReplayWatch => ReplayWatchStepOf(Before(init, run, k), run[k], c);
    case HistoryWatch => HistoryWatchStepOf(Before(init, run, k), run[k], c);
  }

  // Call `a` armed the deadline with a full window.
  ghost predicate ArmedAt(run: seq<Step>, a: int, c: string, kind: Watched) {
    0 <= a < |run| && Watch(run[a].post, c, kind) == Some(Rearmed(run[a].post, run[a].now))
  }

  // From call `a` up to but not including call `j`, no frame arrived and the deadline stayed.
  ghost predicate QuietSince(run: seq<Step>, a: int, j: int, c: string, kind: Watched) {
    0 <= a < j <= |run|
    && forall k | a < k < j ::
         !Frame(run[k].event, c, kind) && Watch(run[k].post, c, kind) == Watch(run[a].post, c, kind)
  }

  // The deadline standing before call `n` was armed by call `a` and has been left alone since.
  ghost predicate Arming(init: Engine, run: seq<Step>, a: int, n: nat, c: string, kind: Watched) {
    && n <= |run| && ArmedAt(run, a, c, kind) && QuietSince(run, a, n, c, kind)
    && Watch(run[a].post, c, kind) == Watch(Before(init, run, n), c, kind)
  }

  lemma {:induction false} EveryDeadlineWasArmed(init: Engine, run: seq<Step>, n: nat, c: string, kind: Watched)
    requires IsRun(init, run) && n <= |run| && Watch(Before(init, run, n), c, kind).Some?
    ensures exists a :: Arming(init, run, a, n, c, kind)
  {
    hide IsRun, Watch, Frame, ArmedAt, Arming, QuietSince;
    if n == 0 {
      NoDeadlineAtStart(init, run, c, kind);
    } else {
      KeptOrArmed(init, run, n - 1, c, kind);
      if ArmedAt(run, n - 1, c, kind) {
        ArmingStarts(init, run, n, c, kind);
      } else {
        EveryDeadlineWasArmed(init, run, n - 1, c, kind);
        var a :| Arming(init, run, a, n - 1, c, kind);
        ArmingExtends(init, run, a, n, c, kind);
      }
    }
  }

  lemma NoDeadlineAtStart(init: Engine, run: seq<Step>, c: string, kind: Watched)
    requires IsRun(init, run)
    ensures Watch(Before(init, run, 0), c, kind).None?
  {
  }

  lemma ArmingStarts(init: Engine, run: seq<Step>, n: nat, c: string, kind: Watched)
    requires 0 < n <= |run| && ArmedAt(run, n - 1, c, kind)
    ensures Arming(init, run, n - 1, n, c, kind)
  {
  }

  lemma ArmingExtends(init: Engine, run: seq<Step>, a: int, n: nat, c: string, kind: Watched)
    requires 0 < n <= |run| && Arming(init, run, a, n - 1, c, kind)
    requires Watch(run[n - 1].post, c, kind) == Watch(Before(init, run, n - 1), c, kind)
    requires !Frame(run[n - 1].event, c, kind)
    ensures Arming(init, run, a, n, c, kind)
  {
    hide Watch, Frame;
  }

  lemma KeptOrArmed(init: Engine, run: seq<Step>, k: nat, c: string, kind: Watched)
    requires IsRun(init, run) && k < |run| && Watch(run[k].post, c, kind).Some?
    ensures ArmedAt(run, k, c, kind)
            || (Watch(run[k].post, c, kind) == Watch(Before(init, run, k), c, kind)
                && !Frame(run[k].event, c, kind))
  {
    hide IsRun, Watch, Frame, Rearmed, TimesOut, Suspends;
    WatchStepInRun(init, run, k, c, kind);
  }

  // ---------------------------------------------------------------- no false alarm

  // A reported timeout means a full window of server silence: some call `a` armed the deadline a
  // full window earlier, no frame has come since, the engine is not paused now, and no pause
  // opened after `a`. If it was not paused at `a`, it was not paused at any time since.
  ghost predicate GenuineSilence(init: Engine, run: seq<Step>, a: int, j: int, c: string, kind: Watched) {
    && ArmedAt(run, a, c, kind) && QuietSince(run, a, j, c, kind) && j < |run|
    && run[j].now >= run[a].now + init.window
    && !Before(init, run, j).paused
    && (forall k | a <= k < j :: run[k].post.episodes == run[a].post.episodes)
    && (!run[a].post.paused ==> forall k | a <= k < j :: !run[k].post.paused)
  }

  // A timeout needs an expired deadline whose silence is not the consumer's.
  lemma TimeoutNeedsExpiry(init: Engine, run: seq<Step>, j: nat, c: string, kind: Watched)
    requires IsRun(init, run) && j < |run| && TimesOut(run[j], c, kind)
    ensures var w := Watch(Before(init, run, j), c, kind);
            && w.Some? && run[j].now >= w.value.deadline
            && !Before(init, run, j).paused && Before(init, run, j).episodes == w.value.episodes
  {
    hide IsRun, Watch, Frame, Rearmed, TimesOut, Before;
    WatchStepInRun(init, run, j, c, kind);
  }

  lemma ArmedDeadline(init: Engine, run: seq<Step>, a: nat, c: string, kind: Watched)
    requires IsRun(init, run) && ArmedAt(run, a, c, kind)
    ensures Watch(run[a].post, c, kind) == Some(Armed(run[a].now + init.window, run[a].post.episodes))
  {
    hide IsRun, Watch;
    Reachable(init, run, a + 1);
  }

  lemma EpisodesStandStill(init: Engine, run: seq<Step>, a: nat, j: nat)
    requires IsRun(init, run) && a < j <= |run|
    requires Before(init, run, j).episodes == run[a].post.episodes
    ensures forall k | a <= k < j :: run[k].post.episodes == run[a].post.episodes
    ensures !run[a].post.paused ==> forall k | a <= k < j :: !run[k].post.paused
  {
    hide IsRun;
    forall k | a <= k < j
      ensures run[k].post.episodes == run[a].post.episodes
      ensures !run[a].post.paused ==> !run[k].post.paused
    {
      EpisodesGrow(init, run, a + 1, k + 1);
      EpisodesGrow(init, run, k + 1, j);
    }
  }

  lemma NoFalseAlarm(init: Engine, run: seq<Step>, j: nat, c: string, kind: Watched)
    requires IsRun(init, run) && j < |run| && TimesOut(run[j], c, kind)
    ensures exists a :: GenuineSilence(init, run, a, j, c, kind)
                        && Watch(run[a].post, c, kind) == Watch(Before(init, run, j), c, kind)
  {
    hide IsRun, Watch, Frame, TimesOut, QuietSince;
    TimeoutNeedsExpiry(init, run, j, c, kind);
    EveryDeadlineWasArmed(init, run, j, c, kind);
    var a :| Arming(init, run, a, j, c, kind);
    QuietBounds(run, a, j, c, kind);
    ArmedDeadline(init, run, a, c, kind);
    hide Before;
    EpisodesStandStill(init, run, a, j);
    assert GenuineSilence(init, run, a, j, c, kind);
  }

  lemma SilenceBounds(init: Engine, run: seq<Step>, a: int, j: int, c: string, kind: Watched)
    requires GenuineSilence(init, run, a, j, c, kind)
    ensures 0 <= a < j < |run|
  {
    QuietBounds(run, a, j, c, kind);
  }

  lemma QuietBounds(run: seq<Step>, a: int, j: int, c: string, kind: Watched)
    requires QuietSince(run, a, j, c, kind)
    ensures 0 <= a < j <= |run|
  {
  }

  // ---------------------------------------------------------------- bounded detection

  // The driver never lets the clock pass a time named by `next_deadline` without calling `due`
  // there: no call is made later than the deadline named just before it.
  ghost predicate Prompt(init: Engine, run: seq<Step>) {
    forall k {:trigger NextDeadline(Before(init, run, k))} | 0 <= k < |run| ::
      NextDeadline(Before(init, run, k)).None?
      || run[k].now <= NextDeadline(Before(init, run, k)).value
  }

  lemma PromptMeetsDeadlines(init: Engine, run: seq<Step>, k: nat, c: string, kind: Watched)
    requires IsRun(init, run) && Prompt(init, run) && k < |run|
    requires Watch(Before(init, run, k), c, kind).Some?
    ensures run[k].now <= Watch(Before(init, run, k), c, kind).value.deadline
  {
    var e := Before(init, run, k);
    Reachable(init, run, k);
    var w := Watch(e, c, kind).value;
    NextDeadlineIsExact(e, w.deadline);
    hide IsRun, NextDeadline;
    assert !NothingDue(e, w.deadline) by {
      if kind.ReplayWatch? {
        assert c in e.channels.vals;
        assert RecDue(e.channels.vals[c], w.deadline);
      }
    }
  }

  // Under a prompt driver every timeout is reported exactly one window after the last arming.
  lemma ReportedAtExactlyOneDeadline(init: Engine, run: seq<Step>, j: nat, c: string, kind: Watched)
    requires IsRun(init, run) && Prompt(init, run) && j < |run| && TimesOut(run[j], c, kind)
    ensures exists a :: GenuineSilence(init, run, a, j, c, kind) && run[j].now == run[a].now + init.window
  {
    hide IsRun, Prompt, Watch, Frame, TimesOut, QuietSince, Before;
    TimeoutNeedsExpiry(init, run, j, c, kind);
    PromptMeetsDeadlines(init, run, j, c, kind);
    NoFalseAlarm(init, run, j, c, kind);
    var a :| GenuineSilence(init, run, a, j, c, kind)
             && Watch(run[a].post, c, kind) == Watch(Before(init, run, j), c, kind);
    ArmedDeadline(init, run, a, c, kind);
  }

  // After call `m` the server and the consumer both fall silent: no frame, no new pause.
  ghost predicate SilentAfter(run: seq<Step>, m: int, n: int, c: string, kind: Watched) {
    0 <= m < n <= |run| && !run[m].post.paused
    && forall k | m < k < n :: !Frame(run[k].event, c, kind) && run[k].event != Backpressure(true)
  }

  lemma {:induction false} SilenceKeepsEpisodes(init: Engine, run: seq<Step>, m: nat, n: nat, c: string, kind: Watched)
    requires IsRun(init, run) && SilentAfter(run, m, n, c, kind)
    ensures Before(init, run, n).episodes == run[m].post.episodes && !Before(init, run, n).paused
  {
    hide IsRun, Frame;
    if n > m + 1 {
      SilenceKeepsEpisodes(init, run, m, n - 1, c, kind);
      ConfigurationAt(init, run, n - 1);
    }
  }

  // A deadline at most two windows after `since`, or one window if an older episode is recorded.
  predicate Near(w: Option<Armed>, since: real, window: real, episodes: nat) {
    w.Some? &&
    (w.value.deadline <= since + window
     || (w.value.episodes == episodes && w.value.deadline <= since + 2.0 * window))
  }

  lemma DeadlineNearAtFirst(init: Engine, run: seq<Step>, m: nat, c: string, kind: Watched)
    requires IsRun(init, run) && m < |run| && Watch(run[m].post, c, kind).Some?
    ensures Near(Watch(run[m].post, c, kind), run[m].now, init.window, run[m].post.episodes)
  {
    assert forall k | 0 <= k <= m :: run[k].now <= run[m].now;
    hide IsRun, Watch, Frame;
    EveryDeadlineWasArmed(init, run, m + 1, c, kind);
    var a :| Arming(init, run, a, m + 1, c, kind);
    ArmedDeadline(init, run, a, c, kind);
  }

  // While the silence is not yet reported, the deadline stays within two windows of call `m`.
  lemma {:induction false} SilenceKeepsDeadlineNear(
      init: Engine, run: seq<Step>, m: nat, n: nat, c: string, kind: Watched)
    requires IsRun(init, run) && Prompt(init, run)
    requires m < n <= |run| && SilentAfter(run, m, n, c, kind)
    requires Watch(run[m].post, c, kind).Some?
    requires forall k | m < k < n :: !TimesOut(run[k], c, kind)
    ensures Near(Watch(Before(init, run, n), c, kind), run[m].now, init.window, run[m].post.episodes)
  {
    hide *;
    BeforeIsPost(init, run, n - 1);
    if n == m + 1 {
      DeadlineNearAtFirst(init, run, m, c, kind);
    } else {
      SilentPrefix(run, m, n, c, kind);
      SilenceKeepsDeadlineNear(init, run, m, n - 1, c, kind);
      NearStep(init, run, m, n - 1, c, kind);
    }
  }

  lemma SilentPrefix(run: seq<Step>, m: int, n: int, c: string, kind: Watched)
    requires SilentAfter(run, m, n, c, kind) && m + 1 < n
    ensures SilentAfter(run, m, n - 1, c, kind)
  {
  }

  lemma BeforeIsPost(init: Engine, run: seq<Step>, k: nat)
    requires k < |run|
    ensures Before(init, run, k + 1) == run[k].post
  {
  }

  lemma NearStep(init: Engine, run: seq<Step>, m: nat, k: nat, c: string, kind: Watched)
    requires IsRun(init, run) && Prompt(init, run)
    requires m < k < |run| && SilentAfter(run, m, k + 1, c, kind) && !TimesOut(run[k], c, kind)
    requires Near(Watch(Before(init, run, k), c, kind), run[m].now, init.window, run[m].post.episodes)
    ensures Near(Watch(run[k].post, c, kind), run[m].now, init.window, run[m].post.episodes)
  {
    assert run[m].now <= run[k].now;
    hide IsRun, Prompt, Watch, TimesOut, SilentAfter, Before;
    PromptMeetsDeadlines(init, run, k, c, kind);
    SilenceStep(init, run, m, k, c, kind);
  }

  // One silent call keeps the deadline or re-arms it with the current episode count.
  lemma SilenceStep(init: Engine, run: seq<Step>, m: nat, k: nat, c: string, kind: Watched)
    requires IsRun(init, run) && m < k < |run| && SilentAfter(run, m, k + 1, c, kind)
    requires !TimesOut(run[k], c, kind)
    requires Watch(Before(init, run, k), c, kind).Some?
    ensures var w, w' := Watch(Before(init, run, k), c, kind), Watch(run[k].post, c, kind);
            || w' == w
            || (w' == Some(Armed(run[k].now + init.window, run[m].post.episodes))
                && w.value.episodes != run[m].post.episodes)
  {
    hide IsRun, Watch, Frame, TimesOut;
    SilenceKeepsEpisodes(init, run, m, k, c, kind);
    SilenceKeepsEpisodes(init, run, m, k + 1, c, kind);
    assert !Frame(run[k].event, c, kind);
    hide SilentAfter;
    WatchStepInRun(init, run, k, c, kind);
  }

  // A request left open by call `m` with no frame and no pause after it is reported within two
  // windows: no later call finds it unreported beyond that time.
  lemma SilenceIsReportedInTime(init: Engine, run: seq<Step>, m: nat, n: nat, c: string, kind: Watched)
    requires IsRun(init, run) && Prompt(init, run) && n < |run| && SilentAfter(run, m, n, c, kind)
    requires Watch(run[m].post, c, kind).Some?
    requires run[n].now > run[m].now + 2.0 * init.window
    ensures exists j :: m < j < n && TimesOut(run[j], c, kind)
  {
    if forall j | m < j < n :: !TimesOut(run[j], c, kind) {
      assert run[m].now <= run[n].now;
      hide IsRun, Watch, Frame, TimesOut, Prompt;
      SilenceKeepsDeadlineNear(init, run, m, n, c, kind);
      PromptMeetsDeadlines(init, run, n, c, kind);
      assert false;
    }
  }

  // While a request armed by call `a` is silent, unpaused and not yet reported, its deadline stays.
  lemma {:induction false} SilenceKeepsArming(
      init: Engine, run: seq<Step>, a: nat, n: nat, c: string, kind: Watched)
    requires IsRun(init, run) && ArmedAt(run, a, c, kind) && SilentAfter(run, a, n, c, kind) && a < n <= |run|
    requires forall k | a < k < n :: !TimesOut(run[k], c, kind)
    ensures Watch(Before(init, run, n), c, kind) == Some(Armed(run[a].now + init.window, run[a].post.episodes))
  {
    hide *;
    BeforeIsPost(init, run, n - 1);
    if n == a + 1 {
      ArmedDeadline(init, run, a, c, kind);
    } else {
      SilentPrefix(run, a, n, c, kind);
      SilenceKeepsArming(init, run, a, n - 1, c, kind);
      SilenceStep(init, run, a, n - 1, c, kind);
    }
  }

  lemma {:induction false} FirstTimeout(run: seq<Step>, a: nat, j: nat, c: string, kind: Watched) returns (k: nat)
    requires a < j < |run| && TimesOut(run[j], c, kind)
    ensures a < k <= j && TimesOut(run[k], c, kind) && forall i | a < i < k :: !TimesOut(run[i], c, kind)
    decreases j
  {
    hide TimesOut;
    if i :| a < i < j && TimesOut(run[i], c, kind) {
      k := FirstTimeout(run, a, i, c, kind);
    } else {
      k := j;
    }
  }

  lemma SilentUpTo(run: seq<Step>, a: nat, k: nat, n: nat, c: string, kind: Watched)
    requires SilentAfter(run, a, n, c, kind) && a < k <= n
    ensures SilentAfter(run, a, k, c, kind)
  {
    hide Frame;
  }

  // With no pause since its arming, a silent request IS reported, at exactly one window: by a call
  // whose clock reads one window after the arming, before the clock goes beyond that.
  lemma SilenceIsReportedAtOneDeadline(init: Engine, run: seq<Step>, a: nat, n: nat, c: string, kind: Watched)
    requires IsRun(init, run) && Prompt(init, run) && a < n < |run|
    requires ArmedAt(run, a, c, kind) && SilentAfter(run, a, n, c, kind)
    requires run[n].now > run[a].now + init.window
    ensures exists j :: a < j < n && TimesOut(run[j], c, kind) && run[j].now == run[a].now + init.window
  {
    hide IsRun, Prompt, ArmedAt, SilentAfter, TimesOut, Watch, Before;
    if j :| a < j < n && TimesOut(run[j], c, kind) {
      var k := FirstTimeout(run, a, j, c, kind);
      SilentUpTo(run, a, k, n, c, kind);
      SilenceKeepsArming(init, run, a, k, c, kind);
      TimeoutNeedsExpiry(init, run, k, c, kind);
      PromptMeetsDeadlines(init, run, k, c, kind);
      assert run[k].now == run[a].now + init.window;
    } else {
      SilenceKeepsArming(init, run, a, n, c, kind);
      PromptMeetsDeadlines(init, run, n, c, kind);
      assert false;
    }
  }
}
