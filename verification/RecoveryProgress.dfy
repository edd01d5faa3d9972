/**
 * Progress under a prompt driver: a gap held back by the replay floor is dealt with when the
 * floor opens, and the two-deadline bound on silence is attained.
 */
module RecoveryProgress {
  import opened Prelude
  import opened RecoverySpec
  import opened RecoveryRuns
  import opened RecoveryGaps
  import opened RecoveryTimers

  lemma FloorWaitStep(e: Engine, now: real, ev: Event, c: string)
    requires RecInv(e, RecOf(e, c))
    ensures var rec := RecOf(e, c);
            var (rec', out) := ChanStep(e, now, ev, c);
            && (rec.phase == FloorWait && out == Quiet && !ev.NotAvailable? ==>
                  rec'.phase == FloorWait && rec'.floorWake == rec.floorWake)
            && (ev.Gap? && ev.channel == c && rec.phase != Replaying && out == Quiet ==>
                  rec'.phase == FloorWait)
  {
  }

  lemma FloorWaitStepInRun(init: Engine, run: seq<Step>, k: nat, c: string)
    requires IsRun(init, run) && k < |run| && !Settles(run[k], c)
    ensures var rec, rec' := RecOf(Before(init, run, k), c), RecOf(run[k].post, c);
            && (rec.phase == FloorWait ==> rec'.phase == FloorWait && rec'.floorWake == rec.floorWake)
            && (GapOn(run, k, c) && rec.phase != Replaying ==> rec'.phase == FloorWait)
  {
    hide IsRun, ChanStep, RecOf, Inv, RecInv, Settles, Before;
    StepProjection(init, run, k, c);
    var e, now, ev := Before(init, run, k), run[k].now, run[k].event;
    PendingStep(e, now, ev, c);
    SettlesIsOutcome(run[k], c, ChanStep(e, now, ev, c).1);
    FloorWaitStep(e, now, ev, c);
  }

  lemma {:induction false} FloorWaitLasts(init: Engine, run: seq<Step>, m: nat, n: nat, c: string)
    requires IsRun(init, run) && m < n <= |run| && RecOf(run[m].post, c).phase == FloorWait
    requires Undisturbed(run, m + 1, n, c)
    ensures var rec := RecOf(Before(init, run, n), c);
            rec.phase == FloorWait && rec.floorWake == RecOf(run[m].post, c).floorWake
  {
    hide IsRun, RecOf, Settles;
    if n > m + 1 {
      FloorWaitLasts(init, run, m, n - 1, c);
      FloorWaitStepInRun(init, run, n - 1, c);
    }
  }

  lemma PromptMeetsFloorWake(init: Engine, run: seq<Step>, k: nat, c: string)
    requires IsRun(init, run) && Prompt(init, run) && k < |run|
    requires RecOf(Before(init, run, k), c).phase == FloorWait
    ensures RecOf(Before(init, run, k), c).floorWake.Some?
    ensures run[k].now <= RecOf(Before(init, run, k), c).floorWake.value
  {
    var e := Before(init, run, k);
    Reachable(init, run, k);
    RecOfInv(e, c);
    var wake := RecOf(e, c).floorWake.value;
    NextDeadlineIsExact(e, wake);
    hide IsRun, NextDeadline;
    assert c in e.channels.vals && RecDue(e.channels.vals[c], wake);
  }

  // The time of the last replay a record remembers is never in the future.
  lemma {:induction false} LastReplayIsPast(init: Engine, run: seq<Step>, k: nat, c: string)
    requires IsRun(init, run) && k < |run|
    ensures var last := RecOf(run[k].post, c).lastReplayAt;
            last.Some? ==> last.value <= run[k].now
  {
    hide StepOf, RecOf;
    if run[k].event.Disconnect? || run[k].event.NotAvailable? {
      WipeForgets(init, run, k, c);
    } else {
      FloorStepInRun(init, run, k, c);
      if k > 0 {
        LastReplayIsPast(init, run, k - 1, c);
      } else {
        assert RecOf(init, c).lastReplayAt.None? by { NothingPendingAtStart(init, [], c); FreshRecords(init, c); }
      }
    }
  }

  lemma FreshRecords(init: Engine, c: string)
    requires init == NewEngine(init.clientId, init.floor, init.window)
    ensures RecOf(init, c) == FRESH
  {
  }

  lemma WipeForgets(init: Engine, run: seq<Step>, k: nat, c: string)
    requires IsRun(init, run) && k < |run| && (run[k].event.Disconnect? || run[k].event.NotAvailable?)
    ensures RecOf(run[k].post, c) == FRESH
  {
    hide IsRun, RecOf, Inv, RecInv, Before;
    StepProjection(init, run, k, c);
  }

  // A channel that waits out its floor after call `m` is settled by the time the floor opens,
  // which is within one floor of that call.
  lemma FloorWaitEndsOnTime(init: Engine, run: seq<Step>, m: nat, n: nat, c: string)
    requires IsRun(init, run) && Prompt(init, run) && m < n < |run|
    requires RecOf(run[m].post, c).phase == FloorWait
    requires run[n].now > run[m].now + init.floor
    ensures exists j :: m < j < n && Settles(run[j], c)
  {
    hide IsRun, Prompt, RecOf, Settles, Before;
    if Undisturbed(run, m + 1, n, c) {
      FloorWaitLasts(init, run, m, n, c);
      PromptMeetsFloorWake(init, run, n, c);
      FloorWakeIsNear(init, run, m, c);
      assert false;
    }
  }

  lemma FloorWakeIsNear(init: Engine, run: seq<Step>, m: nat, c: string)
    requires IsRun(init, run) && m < |run| && RecOf(run[m].post, c).phase == FloorWait
    ensures var wake := RecOf(run[m].post, c).floorWake;
            wake.Some? && wake.value <= run[m].now + init.floor
  {
    hide IsRun, RecOf, Inv, ChanStep, ShowsOutcome;
    LastReplayIsPast(init, run, m, c);
    StepProjection(init, run, m, c);
    Reachable(init, run, m + 1);
  }

  // Under a prompt driver, a gap that arrives while no replay is in flight is settled within one
  // floor of its arrival: it is replayed at once or as soon as the floor allows, unless its
  // channel fails or is wiped first.
  lemma GapIsSettledWithinOneFloor(init: Engine, run: seq<Step>, i: nat, n: nat, c: string)
    requires IsRun(init, run) && Prompt(init, run) && n < |run| && i < n && GapOn(run, i, c)
    requires RecOf(Before(init, run, i), c).phase != Replaying
    requires run[n].now > run[i].now + init.floor
    ensures exists j :: i <= j < n && Settles(run[j], c)
  {
    hide IsRun, Prompt, RecOf, Settles, Before;
    if !Settles(run[i], c) {
      FloorWaitStepInRun(init, run, i, c);
      FloorWaitEndsOnTime(init, run, i, n, c);
    }
  }

  // ---------------------------------------------------------------- the bound is attained

  function HistoryOnly(e: Engine, armed: Option<Armed>): Engine {
    e.(history := if armed.Some? then Dict([""], map["" := armed.value]) else EmptyDict())
  }

  lemma DueOnHistoryOnly(e: Engine, armed: Armed, now: real)
    requires e.channels == EmptyDict() && e.history == EmptyDict()
    ensures var w := HistoryOnly(e, Some(armed));
            AfterDue(w, now) ==
              if now < armed.deadline then (w, [])
              else if Suspends(e, armed.episodes) then (HistoryOnly(e, Some(Rearmed(e, now))), [])
              else (HistoryOnly(e, None), [RaiseRecoveryInterrupted("", HistoryTimeout)])
    ensures NextDeadline(HistoryOnly(e, Some(armed))) == Some(armed.deadline)
  {
    var w := HistoryOnly(e, Some(armed));
    assert [""][..0] == [] && [""][1..] == [];
    assert SurvivingKeys(w, now, [""]) == if HistoryFires(w, now, "") then [] else [""];
    assert DueHistoryActions(w, now, [""])
        == if HistoryFires(w, now, "") then [RaiseRecoveryInterrupted("", HistoryTimeout)] else [];
    assert DueChannels(w, now) == w.channels;
    var kept := if HistoryFires(w, now, "") then map[] else map["" := DueHistoryEntry(w, now, armed)];
    assert DueHistory(w, now).vals == kept;
    assert HistoryTimes(w, [""]) == [armed.deadline];
    assert ChannelTimes(w, []) + [armed.deadline] == [armed.deadline];
  }

  // The engine after each of the five calls.
  function Stages(init: Engine): (r: seq<Engine>)
    ensures |r| == 5
  {
    var base := init.(episodes := 1);
    [HistoryOnly(init, Some(Armed(init.window, 0))),
     HistoryOnly(base.(paused := true), Some(Armed(init.window, 0))),
     HistoryOnly(base, Some(Armed(init.window, 0))),
     HistoryOnly(base, Some(Armed(2.0 * init.window, 1))),
     HistoryOnly(base, None)]
  }

  lemma StagesFollow(init: Engine)
    requires init == NewEngine(init.clientId, init.floor, init.window) && init.window > 0.0
    ensures var (w, s) := (init.window, Stages(init));
            && Apply(init, 0.0, HistoryRequest("")) == (s[0], [])
            && Apply(s[0], 0.0, Backpressure(true)) == (s[1], [])
            && Apply(s[1], 0.0, Backpressure(false)) == (s[2], [])
            && Apply(s[2], w, Due) == (s[3], [])
            && Apply(s[3], 2.0 * w, Due) == (s[4], [RaiseRecoveryInterrupted("", HistoryTimeout)])
  {
    hide Apply, HistoryOnly;
    var w, base := init.window, init.(episodes := 1);
    RequestAndPause(init);
    DueStages(base, w);
  }

  lemma RequestAndPause(init: Engine)
    requires init == NewEngine(init.clientId, init.floor, init.window)
    ensures var armed := Some(Armed(init.window, 0));
            var base := init.(episodes := 1);
            && Apply(init, 0.0, HistoryRequest("")) == (HistoryOnly(init, armed), [])
            && Apply(HistoryOnly(init, armed), 0.0, Backpressure(true))
               == (HistoryOnly(base.(paused := true), armed), [])
            && Apply(HistoryOnly(base.(paused := true), armed), 0.0, Backpressure(false))
               == (HistoryOnly(base, armed), [])
  {
    hide AfterDue, GapRec, CompleteRec;
    assert ArmHistory(init, "", 0.0).history == Dict([""], map["" := Armed(init.window, 0)]);
  }

  lemma DueStages(base: Engine, w: real)
    requires base.channels == EmptyDict() && base.history == EmptyDict() && base.window == w > 0.0
    requires base.episodes == 1 && !base.paused
    ensures Apply(HistoryOnly(base, Some(Armed(w, 0))), w, Due) == (HistoryOnly(base, Some(Armed(2.0 * w, 1))), [])
    ensures Apply(HistoryOnly(base, Some(Armed(2.0 * w, 1))), 2.0 * w, Due)
         == (HistoryOnly(base, None), [RaiseRecoveryInterrupted("", HistoryTimeout)])
  {
    hide AfterDue, HistoryOnly, NextDeadline;
    DueOnHistoryOnly(base, Armed(w, 0), w);
    DueOnHistoryOnly(base, Armed(2.0 * w, 1), 2.0 * w);
  }

  lemma FreshIsIdle(init: Engine)
    requires init == NewEngine(init.clientId, init.floor, init.window)
    ensures NextDeadline(init) == None
  {
  }

  lemma DeadlineOfHistoryOnly(e: Engine, armed: Armed)
    requires e.channels == EmptyDict() && e.history == EmptyDict()
    ensures NextDeadline(HistoryOnly(e, Some(armed))) == Some(armed.deadline)
  {
    hide AfterDue;
    DueOnHistoryOnly(e, armed, 0.0);
  }

  lemma RequestIsWatched(e: Engine, armed: Armed)
    ensures Watch(HistoryOnly(e, Some(armed)), "", HistoryWatch).Some?
  {
  }

  lemma StagesAreTimed(init: Engine)
    requires init == NewEngine(init.clientId, init.floor, init.window)
    ensures var (w, s) := (init.window, Stages(init));
            && NextDeadline(init) == None
            && NextDeadline(s[0]) == Some(w) && NextDeadline(s[1]) == Some(w) && NextDeadline(s[2]) == Some(w)
            && NextDeadline(s[3]) == Some(2.0 * w)
            && Watch(s[2], "", HistoryWatch).Some?
  {
    hide NextDeadline, Watch, HistoryOnly;
    var w, base := init.window, init.(episodes := 1);
    FreshIsIdle(init);
    DeadlineOfHistoryOnly(init, Armed(w, 0));
    DeadlineOfHistoryOnly(base.(paused := true), Armed(w, 0));
    DeadlineOfHistoryOnly(base, Armed(w, 0));
    DeadlineOfHistoryOnly(base, Armed(2.0 * w, 1));
    RequestIsWatched(base, Armed(w, 0));
  }

  lemma FiveSteps(init: Engine, run: seq<Step>)
    requires init == NewEngine(init.clientId, init.floor, init.window) && |run| == 5
    requires StepOf(init, run[0]) && StepOf(run[0].post, run[1]) && StepOf(run[1].post, run[2])
             && StepOf(run[2].post, run[3]) && StepOf(run[3].post, run[4])
    requires run[0].now <= run[1].now <= run[2].now <= run[3].now <= run[4].now
    requires NextDeadline(init).None?
    requires NextDeadline(run[0].post).None? || run[1].now <= NextDeadline(run[0].post).value
    requires NextDeadline(run[1].post).None? || run[2].now <= NextDeadline(run[1].post).value
    requires NextDeadline(run[2].post).None? || run[3].now <= NextDeadline(run[2].post).value
    requires NextDeadline(run[3].post).None? || run[4].now <= NextDeadline(run[3].post).value
    ensures IsRun(init, run) && Prompt(init, run)
  {
    hide StepOf, NextDeadline;
    forall k | 0 <= k < 5
      ensures StepOf(Before(init, run, k), run[k])
      ensures NextDeadline(Before(init, run, k)).None? || run[k].now <= NextDeadline(Before(init, run, k)).value
    {
      assert k == 0 || k == 1 || k == 2 || k == 3 || k == 4;
    }
  }

  // A history request, a pause that opens and closes at once, and then silence.
  function StalledRequest(init: Engine): (run: seq<Step>)
    ensures |run| == 5
  {
    var w, s := init.window, Stages(init);
    [Step(0.0, HistoryRequest(""), [], s[0]),
     Step(0.0, Backpressure(true), [], s[1]),
     Step(0.0, Backpressure(false), [], s[2]),
     Step(w, Due, [], s[3]),
     Step(2.0 * w, Due, [RaiseRecoveryInterrupted("", HistoryTimeout)], s[4])]
  }

  lemma StalledRequestSteps(init: Engine)
    requires init == NewEngine(init.clientId, init.floor, init.window) && init.window > 0.0
    ensures var run := StalledRequest(init);
            && StepOf(init, run[0]) && StepOf(run[0].post, run[1]) && StepOf(run[1].post, run[2])
            && StepOf(run[2].post, run[3]) && StepOf(run[3].post, run[4])
  {
    hide Apply, Stages;
    StagesFollow(init);
  }

  lemma StalledRequestIsPrompt(init: Engine)
    requires init == NewEngine(init.clientId, init.floor, init.window) && init.window > 0.0
    ensures IsRun(init, StalledRequest(init)) && Prompt(init, StalledRequest(init))
  {
    hide Stages, NextDeadline, IsRun, Prompt, StepOf, Watch;
    StalledRequestSteps(init);
    StagesAreTimed(init);
    FiveSteps(init, StalledRequest(init));
  }

  lemma StalledRequestIsSilent(init: Engine)
    requires init == NewEngine(init.clientId, init.floor, init.window) && init.window > 0.0
    ensures var run := StalledRequest(init);
            SilentAfter(run, 2, 5, "", HistoryWatch)
            && TimesOut(run[4], "", HistoryWatch) && !TimesOut(run[3], "", HistoryWatch)
  {
    assert Stages(init)[2].paused == init.paused;
    var run := StalledRequest(init);
    assert run[3].actions == [];
    assert run[4].actions[0] == RaiseRecoveryInterrupted("", HistoryTimeout);
  }

  // Two deadlines are attained: the timeout of that request is reported two full deadlines after
  // the pause and no earlier, although `due` is called at every deadline.
  lemma TwoDeadlinesAreAttained(init: Engine) returns (run: seq<Step>)
    requires init == NewEngine(init.clientId, init.floor, init.window) && init.window > 0.0
    ensures IsRun(init, run) && Prompt(init, run) && |run| == 5
    ensures SilentAfter(run, 2, 5, "", HistoryWatch) && run[2].now == 0.0
    ensures Watch(run[2].post, "", HistoryWatch).Some?
    ensures TimesOut(run[4], "", HistoryWatch) && run[4].now == 2.0 * init.window
    ensures !TimesOut(run[3], "", HistoryWatch)
  {
    hide Stages, IsRun, Prompt, SilentAfter, TimesOut, Watch, NextDeadline;
    run := StalledRequest(init);
    StalledRequestIsPrompt(init);
    StalledRequestIsSilent(init);
    StagesAreTimed(init);
  }

  // ---------------------------------------------------------------- one floor is attained

  function ChannelOnly(e: Engine, rec: Rec): Engine {
    e.(channels := Dict([""], map["" := rec]))
  }

  lemma DueOnChannelOnly(e: Engine, rec: Rec, now: real)
    requires e.history == EmptyDict()
    ensures var (rec', out) := DueRec(ChannelOnly(e, rec), rec, now);
            AfterDue(ChannelOnly(e, rec), now) == (ChannelOnly(e, rec'), ToActions("", out))
  {
    hide DueRec;
    var w := ChannelOnly(e, rec);
    var (rec', out) := DueRec(w, rec, now);
    assert [""][..0] == [];
    assert DueChannelActions(w, now, [""]) == ToActions("", out);
    assert DueChannels(w, now).vals == map["" := rec'];
    assert DueHistory(w, now).vals == map[];
    assert ToActions("", out) + [] == ToActions("", out);
  }

  lemma DeadlineOfChannelOnly(e: Engine, rec: Rec)
    requires e.history == EmptyDict() && !(rec.phase == FloorWait && rec.deadline.Some?)
    ensures NextDeadline(ChannelOnly(e, rec)) ==
            if rec.phase == FloorWait then rec.floorWake else rec.deadline
  {
    var w := ChannelOnly(e, rec);
    var time := if rec.phase == FloorWait then rec.floorWake else rec.deadline;
    assert [""][..0] == [];
    assert ChannelTimes(w, [""]) + HistoryTimes(w, []) == if time.Some? then [time.value] else [];
  }

  function InFlight(e: Engine, now: real): Rec {
    Rec(Replaying, None, None, Some(now), None, Some(now + e.window), 0)
  }

  function Done(now: real): Rec {
    Rec(Idle, None, None, Some(now), None, None, 0)
  }

  function HeldBack(e: Engine, now: real, p: string): Rec {
    Rec(FloorWait, Some(p), None, Some(now), Some(now + e.floor), None, 0)
  }

  // A gap, its replay completed at once, and a second gap at the same time.
  function SecondGap(init: Engine, p: string): (run: seq<Step>)
    ensures |run| == 5
  {
    var late := init.floor + init.window;
    [Step(0.0, Gap("", p), [SendReplay("", p)], ChannelOnly(init, InFlight(init, 0.0))),
     Step(0.0, ReplayComplete(""), [], ChannelOnly(init, Done(0.0))),
     Step(0.0, Gap("", p), [], ChannelOnly(init, HeldBack(init, 0.0, p))),
     Step(init.floor, Due, [SendReplay("", p)], ChannelOnly(init, InFlight(init, init.floor))),
     Step(late, MarkConnected, [], ChannelOnly(init.(connectedOnce := true), InFlight(init, init.floor)))]
  }

  lemma SecondGapCalls(init: Engine, p: string)
    requires init == NewEngine(init.clientId, init.floor, init.window) && init.floor > 0.0
    ensures Apply(init, 0.0, Gap("", p)) == (ChannelOnly(init, InFlight(init, 0.0)), [SendReplay("", p)])
    ensures Apply(ChannelOnly(init, InFlight(init, 0.0)), 0.0, ReplayComplete("")) == (ChannelOnly(init, Done(0.0)), [])
    ensures Apply(ChannelOnly(init, Done(0.0)), 0.0, Gap("", p)) == (ChannelOnly(init, HeldBack(init, 0.0, p)), [])
  {
    hide AfterDue;
    var first, done, held := InFlight(init, 0.0), Done(0.0), HeldBack(init, 0.0, p);
    assert init.channels.Put("", first) == Dict([""], map["" := first]);
    assert ChannelOnly(init, first).channels.Put("", done) == Dict([""], map["" := done]);
    assert ChannelOnly(init, done).channels.Put("", held) == Dict([""], map["" := held]);
  }

  lemma SecondGapFires(init: Engine, p: string)
    requires init == NewEngine(init.clientId, init.floor, init.window)
    ensures Apply(ChannelOnly(init, HeldBack(init, 0.0, p)), init.floor, Due)
         == (ChannelOnly(init, InFlight(init, init.floor)), [SendReplay("", p)])
  {
    hide AfterDue;
    DueOnChannelOnly(init, HeldBack(init, 0.0, p), init.floor);
  }

  lemma SecondGapSteps(init: Engine, p: string)
    requires init == NewEngine(init.clientId, init.floor, init.window) && init.floor > 0.0
    ensures var run := SecondGap(init, p);
            && StepOf(init, run[0]) && StepOf(run[0].post, run[1]) && StepOf(run[1].post, run[2])
            && StepOf(run[2].post, run[3]) && StepOf(run[3].post, run[4])
  {
    SecondGapCalls(init, p);
    SecondGapFires(init, p);
    assert StepOf(SecondGap(init, p)[3].post, SecondGap(init, p)[4]) by {
      hide AfterDue;
    }
    hide Apply, ChannelOnly, InFlight, Done, HeldBack;
  }

  lemma SecondGapTimers(init: Engine, p: string)
    requires init == NewEngine(init.clientId, init.floor, init.window)
    ensures NextDeadline(init) == None
    ensures NextDeadline(ChannelOnly(init, InFlight(init, 0.0))) == Some(init.window)
    ensures NextDeadline(ChannelOnly(init, Done(0.0))) == None
    ensures NextDeadline(ChannelOnly(init, HeldBack(init, 0.0, p))) == Some(init.floor)
    ensures NextDeadline(ChannelOnly(init, InFlight(init, init.floor))) == Some(init.floor + init.window)
  {
    hide NextDeadline, ChannelOnly;
    FreshIsIdle(init);
    DeadlineOfChannelOnly(init, InFlight(init, 0.0));
    DeadlineOfChannelOnly(init, Done(0.0));
    DeadlineOfChannelOnly(init, HeldBack(init, 0.0, p));
    DeadlineOfChannelOnly(init, InFlight(init, init.floor));
  }

  lemma SecondGapSettles(init: Engine, p: string)
    ensures var run := SecondGap(init, p);
            && GapOn(run, 2, "") && !Settles(run[2], "")
            && SendsReplay(run[0], "") && SendsReplay(run[3], "") && NoWipe(run, 0, 4)
  {
    hide ChannelOnly, InFlight, Done, HeldBack;
    var run := SecondGap(init, p);
    assert run[0].actions[0] == SendReplay("", p) && run[3].actions[0] == SendReplay("", p);
  }

  // The floor is attained by both bounds at once: in a prompt run without a wipe a gap is held
  // back for a full floor, and the two replays are exactly one floor apart.
  lemma OneFloorIsAttained(init: Engine, p: string) returns (run: seq<Step>)
    requires init == NewEngine(init.clientId, init.floor, init.window) && init.floor > 0.0 && init.window > 0.0
    ensures IsRun(init, run) && Prompt(init, run) && |run| == 5 && NoWipe(run, 0, 4)
    ensures GapOn(run, 2, "") && !Settles(run[2], "") && run[4].now > run[2].now + init.floor
    ensures SendsReplay(run[0], "") && SendsReplay(run[3], "")
    ensures run[3].now == run[2].now + init.floor == run[0].now + init.floor
  {
    hide IsRun, Prompt, StepOf, NextDeadline, Settles, SendsReplay, NoWipe, ChannelOnly, InFlight, Done, HeldBack;
    run := SecondGap(init, p);
    SecondGapSteps(init, p);
    SecondGapTimers(init, p);
    FiveSteps(init, run);
    SecondGapSettles(init, p);
  }
}
