/**
 * What becomes of the actions a call returns. The client executes them in order; a send or a put
 * suspends and may fail or be cancelled, which drops everything behind it.
 */
module RecoveryActions {
  import opened Prelude
  import opened RecoverySpec
  import opened RecoveryRuns

  // Executing the action suspends, so it can fail; a report is handed over at once.
  predicate MayFail(a: Action) {
    !a.RaiseRecoveryInterrupted?
  }

  // The actions that take effect, `ok[i]` saying whether the send or put of action `i` completes.
  function Executed(actions: seq<Action>, ok: seq<bool>): seq<Action>
    requires |ok| == |actions|
  {
    if actions == [] || (MayFail(actions[0]) && !ok[0]) then [] else [actions[0]] + Executed(actions[1..], ok[1..])
  }

  // Every action up to and including number `i` completes.
  ghost predicate CompleteUpTo(actions: seq<Action>, ok: seq<bool>, i: int)
    requires |ok| == |actions|
  {
    forall k | 0 <= k <= i < |actions| :: MayFail(actions[k]) ==> ok[k]
  }

  // The actions that take effect are a prefix of those returned, and action `i` is among them
  // exactly if every send and put up to it completes.
  lemma {:induction false} ExecutedIsPrefix(actions: seq<Action>, ok: seq<bool>, i: nat)
    requires |ok| == |actions| && i < |actions|
    ensures Executed(actions, ok) <= actions
    ensures i < |Executed(actions, ok)| <==> CompleteUpTo(actions, ok, i)
    decreases |actions|
  {
    assert actions == [actions[0]] + actions[1..];
    if !MayFail(actions[0]) || ok[0] {
      if |actions| > 1 {
        ExecutedIsPrefix(actions[1..], ok[1..], if i == 0 then 0 else i - 1);
        TailCompletes(actions, ok, i);
      }
    }
  }

  lemma TailCompletes(actions: seq<Action>, ok: seq<bool>, i: nat)
    requires |ok| == |actions| && 0 < |actions| && i < |actions| && (MayFail(actions[0]) ==> ok[0])
    ensures CompleteUpTo(actions, ok, i) <==> i == 0 || CompleteUpTo(actions[1..], ok[1..], i - 1)
  {
    hide MayFail;
    if i > 0 && CompleteUpTo(actions[1..], ok[1..], i - 1) {
      forall k | 0 <= k <= i ensures MayFail(actions[k]) ==> ok[k] {
        assert k > 0 ==> actions[1..][k - 1] == actions[k] && ok[1..][k - 1] == ok[k];
      }
    }
    if i > 0 && CompleteUpTo(actions, ok, i) {
      forall k | 0 <= k <= i - 1 ensures MayFail(actions[1..][k]) ==> ok[1..][k] {
        assert actions[1..][k] == actions[k + 1] && ok[1..][k] == ok[k + 1];
      }
    }
  }

  // Some outcome of the sends and puts keeps action `i` from taking effect.
  ghost predicate CanBeLost(actions: seq<Action>, i: nat)
    requires i < |actions|
  {
    exists ok: seq<bool> :: |ok| == |actions| && |Executed(actions, ok)| <= i
  }

  // A report can be lost if and only if a send or a put stands before it in the returned list.
  lemma ReportCanBeLostIff(actions: seq<Action>, i: nat)
    requires i < |actions| && actions[i].RaiseRecoveryInterrupted?
    ensures CanBeLost(actions, i) <==> exists k | 0 <= k < i :: MayFail(actions[k])
  {
    hide Executed, MayFail;
    assert !MayFail(actions[i]) by { ReportsDoNotSuspend(actions[i]); }
    if k :| 0 <= k < i && MayFail(actions[k]) {
      var none := seq(|actions|, _ => false);
      ExecutedIsPrefix(actions, none, i);
      assert !CompleteUpTo(actions, none, i);
      assert |none| == |actions| && |Executed(actions, none)| <= i;
    } else {
      forall ok: seq<bool> | |ok| == |actions| ensures i < |Executed(actions, ok)| {
        ExecutedIsPrefix(actions, ok, i);
      }
    }
  }

  lemma ReportsDoNotSuspend(a: Action)
    requires a.RaiseRecoveryInterrupted?
    ensures !MayFail(a)
  {
  }

  // A disconnect and a recovery failure return reports alone, and none of them is ever lost.
  lemma DisconnectLosesNoReport(e: Engine, now: real, ev: Event, ok: seq<bool>)
    requires ev.Disconnect? || ev.RecoveryFailure?
    requires |ok| == |Apply(e, now, ev).1|
    ensures Executed(Apply(e, now, ev).1, ok) == Apply(e, now, ev).1
  {
    var actions := Apply(e, now, ev).1;
    OnlyReports(e, now, ev);
    hide Apply, MayFail;
    if actions != [] {
      var n := |actions| - 1;
      ExecutedIsPrefix(actions, ok, n);
      assert CompleteUpTo(actions, ok, n);
    } else {
      assert Executed(actions, ok) == [];
    }
  }

  lemma OnlyReports(e: Engine, now: real, ev: Event)
    requires ev.Disconnect? || ev.RecoveryFailure?
    ensures forall a | a in Apply(e, now, ev).1 :: !MayFail(a)
  {
    if ev.Disconnect? {
      DisconnectOnlyReports(e, e.channels.keys);
    }
  }

  lemma {:induction false} DisconnectOnlyReports(e: Engine, keys: seq<string>)
    ensures forall a | a in DisconnectChannelActions(e, keys) :: !MayFail(a)
  {
    if keys != [] {
      DisconnectOnlyReports(e, keys[..|keys| - 1]);
    }
  }

  // A replay timeout that `due` returned and that was lost is not made up for: until something new
  // happens on the channel, a disconnect says nothing about it.
  lemma LostTimeoutIsNotRepeated(e: Engine, now: real, later: real, c: string)
    requires Inv(e) && RaiseRecoveryInterrupted(c, ReplayTimeout) in Apply(e, now, Due).1
    ensures Share(Apply(Apply(e, now, Due).0, later, Disconnect).1, c, Recovery) == []
  {
    var (after, actions) := Apply(e, now, Due);
    var out := ChanStep(e, now, Due, c).1;
    Projection(e, now, Due, c);
    ShownMembers(actions, c, out);
    TimeoutIdles(e, now, c);
    ApplyKeepsInv(e, now, Due);
    hide Apply, ShowsOutcome, Inv, RecOf, Share;
    Projection(after, later, Disconnect, c);
    IdleSaysNothing(after, later, c);
    assert ShowsOutcome(Apply(after, later, Disconnect).1, c, Quiet);
    QuietShare(Apply(after, later, Disconnect).1, c);
  }

  lemma TimeoutIdles(e: Engine, now: real, c: string)
    ensures ChanStep(e, now, Due, c).1 == Report(ReplayTimeout) ==> ChanStep(e, now, Due, c).0.phase == Idle
  {
  }

  lemma IdleSaysNothing(e: Engine, now: real, c: string)
    ensures RecOf(e, c).phase == Idle ==> ChanStep(e, now, Disconnect, c).1 == Quiet
  {
  }

  lemma QuietShare(actions: seq<Action>, c: string)
    requires ShowsOutcome(actions, c, Quiet)
    ensures Share(actions, c, Recovery) == []
  {
  }

  // ---------------------------------------------------------------- one lost report

  // Channel "a" waits out its floor and channel "b" is in mid-replay; at time 1 both are due.
  function BothDue(): Engine {
    var base := NewEngine("id", 1.0, 1.0);
    base.(channels := Dict(["a", "b"], map[
      "a" := Rec(FloorWait, Some("q"), None, Some(0.0), Some(1.0), None, 0),
      "b" := Rec(Replaying, None, None, Some(0.0), None, Some(1.0), 0)]))
  }

  function BothDueRun(): (run: seq<Step>)
    ensures |run| == 4
  {
    var base := NewEngine("id", 1.0, 1.0);
    var flying := Rec(Replaying, None, None, Some(0.0), None, Some(1.0), 0);
    var done := Rec(Idle, None, None, Some(0.0), None, None, 0);
    var held := Rec(FloorWait, Some("q"), None, Some(0.0), Some(1.0), None, 0);
    [Step(0.0, Gap("a", "p"), [SendReplay("a", "p")], base.(channels := Dict(["a"], map["a" := flying]))),
     Step(0.0, ReplayComplete("a"), [], base.(channels := Dict(["a"], map["a" := done]))),
     Step(0.0, Gap("a", "q"), [], base.(channels := Dict(["a"], map["a" := held]))),
     Step(0.0, Gap("b", "r"), [SendReplay("b", "r")], BothDue())]
  }

  lemma BothDueSteps()
    ensures var run := BothDueRun();
            && StepOf(NewEngine("id", 1.0, 1.0), run[0]) && StepOf(run[0].post, run[1])
            && StepOf(run[1].post, run[2]) && StepOf(run[2].post, run[3])
  {
    hide AfterDue;
    var base, run := NewEngine("id", 1.0, 1.0), BothDueRun();
    assert base.channels.Put("a", run[0].post.channels.vals["a"]) == run[0].post.channels;
    assert run[0].post.channels.Put("a", run[1].post.channels.vals["a"]) == run[1].post.channels;
    assert run[1].post.channels.Put("a", run[2].post.channels.vals["a"]) == run[2].post.channels;
    assert run[2].post.channels.Put("b", run[3].post.channels.vals["b"]) == run[3].post.channels;
  }

  lemma BothDueIsRun()
    ensures IsRun(NewEngine("id", 1.0, 1.0), BothDueRun()) && BothDueRun()[3].post == BothDue()
  {
    hide StepOf, BothDue;
    BothDueSteps();
    var init, run := NewEngine("id", 1.0, 1.0), BothDueRun();
    forall k | 0 <= k < 4 ensures StepOf(Before(init, run, k), run[k]) {
      assert k == 0 || k == 1 || k == 2 || k == 3;
    }
  }

  lemma BothDueActions()
    ensures Apply(BothDue(), 1.0, Due).1 == [SendReplay("a", "q"), RaiseRecoveryInterrupted("b", ReplayTimeout)]
  {
    var e := BothDue();
    assert ["a", "b"][..1] == ["a"] && ["a"][..0] == [];
    assert DueChannelActions(e, 1.0, ["a"]) == [SendReplay("a", "q")];
    assert DueChannelActions(e, 1.0, ["a", "b"])
        == [SendReplay("a", "q"), RaiseRecoveryInterrupted("b", ReplayTimeout)];
  }

  // A reachable loss: the send of the replay on "a" fails, the connection goes down, and the
  // timeout of the replay on "b" reaches nobody.
  lemma FailedSendHidesATimeout()
    ensures IsRun(NewEngine("id", 1.0, 1.0), BothDueRun()) && BothDueRun()[3].post == BothDue()
    ensures var (after, actions) := Apply(BothDue(), 1.0, Due);
            && actions == [SendReplay("a", "q"), RaiseRecoveryInterrupted("b", ReplayTimeout)]
            && Executed(actions, [false, true]) == []
            && Share(Apply(after, 1.0, Disconnect).1, "b", Recovery) == []
  {
    BothDueIsRun();
    BothDueActions();
    assert Inv(BothDue()) by { BothDueReachable(); }
    hide Apply, Inv, BothDue, IsRun, BothDueRun, Share;
    assert Apply(BothDue(), 1.0, Due).1[1] == RaiseRecoveryInterrupted("b", ReplayTimeout);
    LostTimeoutIsNotRepeated(BothDue(), 1.0, 1.0, "b");
  }

  lemma BothDueReachable()
    ensures Inv(BothDue())
  {
    hide IsRun, Inv, BothDue;
    BothDueIsRun();
    Reachable(NewEngine("id", 1.0, 1.0), BothDueRun(), 4);
  }

  // ---------------------------------------------------------------- the client's loop

  // The client's loop over the returned actions, with the sink it hands them to.
  class ActionRunner {
    var effects: seq<Action>

    constructor ()
      ensures effects == []
    {
      effects := [];
    }

    // `raised` says that a send or a put failed and the rest was dropped.
    method RunActions(actions: seq<Action>, ok: seq<bool>) returns (raised: bool)
      requires |ok| == |actions|
      modifies this
      ensures effects == old(effects) + Executed(actions, ok)
      ensures raised <==> |Executed(actions, ok)| < |actions|
    {
      raised := false;
      var i := 0;
      assert actions[0..] == actions && ok[0..] == ok;
      while i < |actions|
        invariant 0 <= i <= |actions|
        invariant effects + Executed(actions[i..], ok[i..]) == old(effects) + Executed(actions, ok)
        invariant |Executed(actions, ok)| == i + |Executed(actions[i..], ok[i..])|
      {
        assert actions[i..][1..] == actions[i + 1..] && ok[i..][1..] == ok[i + 1..];
        if MayFail(actions[i]) && !ok[i] {
          raised := true;
          return;
        }
        effects := effects + [actions[i]];
        i := i + 1;
      }
    }
  }
}
