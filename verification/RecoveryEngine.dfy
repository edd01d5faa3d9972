/**
 * The engine as the object the client holds. Each method is proved to do to its fields and
 * channel records exactly what RecoverySpec.Apply says, so every theorem about runs of Apply is
 * a theorem about sequences of these calls.
 */
module RecoveryObject {
  import opened Prelude
  import opened RecoverySpec
  import opened RecoveryRuns

  // One channel's mutable record.
  class Channel {
    var phase: Phase
    var anchor: Option<string>
    var followup: Option<string>
    var lastReplayAt: Option<real>
    var floorWake: Option<real>
    var deadline: Option<real>
    var armEpisodes: nat

    constructor ()
      ensures View() == FRESH
    {
      phase, anchor, followup := Idle, None, None;
      lastReplayAt, floorWake, deadline, armEpisodes := None, None, None, 0;
    }

    ghost function View(): Rec
      reads this
    {
      Rec(phase, anchor, followup, lastReplayAt, floorWake, deadline, armEpisodes)
    }
  }

  class RecoveryEngine {
    const clientId: string
    const floor: real
    const window: real
    var pos: map<string, string>
    var channels: Dict<Channel>
    var history: Dict<Armed>
    var direct: bool
    var connectedOnce: bool
    var paused: bool
    var episodes: nat

    ghost function Records(): set<Channel>
      reads this
    {
      channels.vals.Values
    }

    ghost function View(): Engine
      reads this, Records()
    {
      Engine(clientId, floor, window, pos,
             Dict(channels.keys, map c | c in channels.vals :: channels.vals[c].View()),
             history, direct, connectedOnce, paused, episodes)
    }

    // Channels do not share records.
    ghost predicate Separate()
      reads this
    {
      forall c, d | c in channels.vals && d in channels.vals && c != d ::
        channels.vals[c] != channels.vals[d]
    }

    ghost predicate Valid()
      reads this, Records()
    {
      Separate() && Inv(View())
    }

    constructor (clientId: string, floor: real, window: real)
      ensures Valid() && Records() == {}
      ensures View() == NewEngine(clientId, floor, window)
    {
      this.clientId, this.floor, this.window := clientId, floor, window;
      pos, channels, history := map[], EmptyDict(), EmptyDict();
      direct, connectedOnce, paused, episodes := false, false, false, 0;
      new;
      assert View() == NewEngine(clientId, floor, window);
      FreshEngineInv(View());
    }

    // ---------------------------------------------------------------- position tracking

    method NotePos(channel: string, p: Option<string>)
      requires Valid()
      modifies this`pos
      ensures Valid()
      ensures View() == Apply(old(View()), 0.0, Event.NotePos(channel, p)).0
    {
      hide Inv, GapRec, CompleteRec, MessageRec, FailureRec;
      ghost var before := View();
      if p.Some? {
        pos := pos[channel := p.value];
      }
      Restore(before, 0.0, Event.NotePos(channel, p));
    }

    // The record of `channel`, created on first use.
    method GetChannel(channel: string) returns (rec: Channel)
      requires Valid()
      modifies this`channels
      ensures Separate() && channel in channels.vals && channels.vals[channel] == rec
      ensures fresh(Records() - old(Records())) && rec in Records()
      ensures rec.View() == RecOf(old(View()), channel)
      ensures View() == (if channel in old(channels).vals then old(View())
                         else old(View()).(channels := old(View()).channels.Put(channel, FRESH)))
    {
      if channel in channels.vals {
        rec := channels.vals[channel];
      } else {
        ghost var before := View();
        ghost var records := Records();
        rec := new Channel();
        channels := channels.Put(channel, rec);
        forall r | r in Records() ensures r == rec || r in records {
          var c :| c in channels.vals && channels.vals[c] == r;
        }
        assert channels.vals[channel] == rec;
        assert View().channels.vals == before.channels.vals[channel := FRESH];
      }
    }

    // ---------------------------------------------------------------- live gap to replay

    method BeginReplay(rec: Channel, channel: string, fromPos: string, now: real) returns (action: Action)
      modifies rec
      ensures rec.View() == RecoverySpec.BeginReplay(
                Engine(clientId, floor, window, pos, EmptyDict(), history, direct, connectedOnce, paused, episodes),
                old(rec.View()), now)
      ensures action == SendReplay(channel, fromPos)
    {
      rec.phase := Replaying;
      rec.anchor := None;
      rec.lastReplayAt := Some(now);
      rec.floorWake := None;
      rec.deadline := Some(now + window);
      rec.armEpisodes := episodes;
      action := SendReplay(channel, fromPos);
    }

    // Changing one record changes the view at that channel only.
    twostate lemma OneRecordChanged(channel: string)
      requires old(Separate()) && channel in old(channels).vals
      requires unchanged(this)
      requires forall r | r in old(Records()) && r != channels.vals[channel] :: unchanged(r)
      ensures View() == old(View()).(channels := old(View()).channels.Put(channel, channels.vals[channel].View()))
    {
      hide Inv;
      forall c | c in channels.vals && c != channel
        ensures channels.vals[c].View() == old(channels.vals[c].View())
      {
        assert channels.vals[c] in old(Records());
      }
      assert View().channels.vals == old(View()).channels.vals[channel := channels.vals[channel].View()];
    }

    lemma Shape()
      requires Valid()
      ensures channels.Valid() && history.Valid()
    {
      forall k ensures k in channels.keys <==> k in channels.vals {
        assert k in View().channels.keys <==> k in View().channels.vals;
      }
    }

    // The new view is reachable, so the object is valid again.
    lemma Restore(before: Engine, now: real, ev: Event)
      requires Inv(before) && Separate() && View() == Apply(before, now, ev).0
      ensures Valid()
    {
      ApplyKeepsInv(before, now, ev);
    }

    method HandleGap(now: real, channel: string, lastPos: string) returns (actions: seq<Action>)
      requires Valid()
      modifies this`channels, Records()
      ensures Valid() && fresh(Records() - old(Records()))
      ensures (View(), actions) == Apply(old(View()), now, Gap(channel, lastPos))
    {
      hide Inv, GapRec, CompleteRec, MessageRec, FailureRec;
      ghost var before := View();
      var rec := GetChannel(channel);
      RecordCallsIgnoreTables(before, View(), rec.View(), now, lastPos);
      label found:
      actions := GapOnRecord(now, rec, channel, lastPos);
      OneRecordChanged@found(channel);
      PutTwice(old(View()), View(), channel, rec.View());
      Restore(before, now, Gap(channel, lastPos));
    }

    method GapOnRecord(now: real, rec: Channel, channel: string, lastPos: string) returns (actions: seq<Action>)
      requires rec in Records()
      modifies rec
      ensures var (r, out) := GapRec(old(View()), old(rec.View()), now, lastPos);
              rec.View() == r && actions == ToActions(channel, out)
    {
      actions := [];
      if rec.phase == Idle {
        rec.anchor := Some(lastPos);
        if rec.lastReplayAt.None? || now >= rec.lastReplayAt.value + floor {
          var replay := BeginReplay(rec, channel, lastPos, now);
          return [replay];
        }
        rec.phase := FloorWait;
        rec.floorWake := Some(rec.lastReplayAt.value + floor);
      } else if rec.phase == FloorWait {
        return;
      } else if rec.followup.None? {
        rec.followup := Some(lastPos);
      }
    }

    method HandleReplayComplete(now: real, channel: string) returns (actions: seq<Action>)
      requires Valid()
      modifies this`channels, Records()
      ensures Valid() && fresh(Records() - old(Records()))
      ensures (View(), actions) == Apply(old(View()), now, ReplayComplete(channel))
    {
      hide Inv, GapRec, CompleteRec, MessageRec, FailureRec;
      ghost var before := View();
      var rec := GetChannel(channel);
      RecordCallsIgnoreTables(before, View(), rec.View(), now, "");
      label found:
      actions := CompleteOnRecord(now, rec, channel);
      OneRecordChanged@found(channel);
      PutTwice(old(View()), View(), channel, rec.View());
      Restore(before, now, ReplayComplete(channel));
    }

    method CompleteOnRecord(now: real, rec: Channel, channel: string) returns (actions: seq<Action>)
      requires rec in Records()
      modifies rec
      ensures var (r, out) := CompleteRec(old(View()), old(rec.View()), now);
              rec.View() == r && actions == ToActions(channel, out)
    {
      actions := [];
      rec.deadline := None;
      if rec.phase != Replaying {
        return;
      }
      var followup := rec.followup;
      rec.followup := None;
      if followup.None? {
        rec.phase := Idle;
        return;
      }
      if rec.lastReplayAt.None? || now >= rec.lastReplayAt.value + floor {
        var replay := BeginReplay(rec, channel, followup.value, now);
        return [replay];
      }
      rec.phase := FloorWait;
      rec.anchor := followup;
      rec.floorWake := Some(rec.lastReplayAt.value + floor);
    }

    method NoteBackpressure(on: bool)
      requires Valid()
      modifies this`paused, this`episodes
      ensures Valid()
      ensures View() == Apply(old(View()), 0.0, Backpressure(on)).0
    {
      hide Inv, GapRec, CompleteRec, MessageRec, FailureRec;
      ghost var before := View();
      if on && !paused {
        episodes := episodes + 1;
      }
      paused := on;
      Restore(before, 0.0, Backpressure(on));
    }

    predicate BackpressureSuspends(armEpisodes: nat)
      reads this
    {
      paused || episodes != armEpisodes
    }

    method NoteReplayMessage(now: real, channel: string)
      requires Valid()
      modifies Records()
      ensures Valid()
      ensures View() == Apply(old(View()), now, ReplayMessage(channel)).0
    {
      hide Inv;
      ghost var before := View();
      if channel in channels.vals {
        var rec := channels.vals[channel];
        if rec.phase == Replaying {
          rec.deadline := Some(now + window);
          rec.armEpisodes := episodes;
        }
        OneRecordChanged(channel);
      }
      Restore(before, now, ReplayMessage(channel));
    }

    // ---------------------------------------------------------------- clock-driven timers

    method DueRecord(now: real, rec: Channel, channel: string) returns (actions: seq<Action>)
      requires rec in Records()
      modifies rec
      ensures var (r, out) := DueRec(old(View()), old(rec.View()), now);
              rec.View() == r && actions == ToActions(channel, out)
    {
      actions := [];
      if rec.phase == FloorWait && rec.floorWake.Some? && now >= rec.floorWake.value && rec.anchor.Some? {
        var replay := BeginReplay(rec, channel, rec.anchor.value, now);
        return [replay];
      } else if rec.phase == Replaying && rec.deadline.Some? && now >= rec.deadline.value {
        if BackpressureSuspends(rec.armEpisodes) {
          rec.deadline := Some(now + window);
          rec.armEpisodes := episodes;
        } else {
          rec.phase := Idle;
          rec.deadline := None;
          rec.followup := None;
          return [RaiseRecoveryInterrupted(channel, ReplayTimeout)];
        }
      }
    }

    method Due(now: real) returns (actions: seq<Action>)
      requires Valid()
      modifies this`history, Records()
      ensures Valid() && Records() == old(Records())
      ensures (View(), actions) == Apply(old(View()), now, Event.Due)
    {
      hide Inv, Dict.Valid, RecoverySpec.DueChannels, RecoverySpec.DueHistory, DueChannelActions, DueHistoryActions;
      ghost var before := View();
      Shape();
      var fired := DueChannels(now);
      var timedOut := DueHistory(now, before);
      actions := fired + timedOut;
      Restore(before, now, Event.Due);
    }

    // One turn of the channel loop.
    method VisitChannel(now: real, i: nat, ghost e: Engine) returns (fired: seq<Action>)
      requires Separate() && channels.Valid() && i < |channels.keys|
      requires e.channels.Valid() && e.channels.keys == channels.keys
      requires View() == e.(channels := HalfDue(e, now, channels.keys[..i]))
      modifies Records()
      ensures View() == e.(channels := HalfDue(e, now, channels.keys[..i + 1]))
      ensures DueChannelActions(e, now, channels.keys[..i + 1]) == DueChannelActions(e, now, channels.keys[..i]) + fired
    {
      hide DueRec, DueChannelActions, HalfDue, ToActions;
      var c := channels.keys[i];
      DueActionsStep(e, now, channels.keys, i);
      HalfDueStep(e, now, i);
      assert c in channels.keys;
      var rec := channels.vals[c];
      assert rec.View() == View().channels.vals[c];
      RecordCallsIgnoreTables(e, View(), rec.View(), now, "");
      fired := DueRecord(now, rec, c);
      OneRecordChanged(c);
    }

    method DueChannels(now: real) returns (actions: seq<Action>)
      requires Separate() && channels.Valid()
      modifies Records()
      ensures actions == DueChannelActions(old(View()), now, channels.keys)
      ensures View() == old(View()).(channels := RecoverySpec.DueChannels(old(View()), now))
    {
      ghost var e := View();
      actions := [];
      assert e.channels.Valid() by { ViewKeys(); }
      HalfDueEnds(e, now);
      hide DueRec, HalfDue, ToActions, Dict.Valid;
      for i := 0 to |channels.keys|
        invariant unchanged(this)
        invariant View() == e.(channels := HalfDue(e, now, channels.keys[..i]))
        invariant actions == DueChannelActions(e, now, channels.keys[..i])
      {
        var fired := VisitChannel(now, i, e);
        actions := actions + fired;
      }
      assert channels.keys[..|channels.keys|] == channels.keys;
    }

    lemma ViewKeys()
      requires channels.Valid()
      ensures View().channels.Valid()
    {
      forall k ensures k in View().channels.keys <==> k in View().channels.vals {
        assert k in channels.keys <==> k in channels.vals;
      }
    }

    method DueHistoryEntry(now: real, channel: string) returns (actions: seq<Action>)
      requires channel in history.vals
      modifies this`history
      ensures var armed := old(history).vals[channel];
              var expired, stalled := now >= armed.deadline, paused || episodes != armed.episodes;
              && history == (if expired && !stalled then old(history).Remove(channel)
                             else if expired then old(history).Put(channel, Armed(now + window, episodes))
                             else old(history))
              && actions == (if expired && !stalled
                             then [RaiseRecoveryInterrupted(channel, HistoryTimeout)] else [])
    {
      actions := [];
      var armed := history.vals[channel];
      if now >= armed.deadline {
        if BackpressureSuspends(armed.episodes) {
          history := history.Put(channel, Armed(now + window, episodes));
        } else {
          history := history.Remove(channel);
          actions := [RaiseRecoveryInterrupted(channel, HistoryTimeout)];
        }
      }
    }

    method DueHistory(now: real, ghost e: Engine) returns (actions: seq<Action>)
      requires history.Valid() && e.history == history
      requires e.window == window && e.paused == paused && e.episodes == episodes
      modifies this`history
      ensures actions == DueHistoryActions(e, now, old(history).keys)
      ensures history == RecoverySpec.DueHistory(e, now)
    {
      hide *;
      HistoryHalfEnds(e, now);
      actions := [];
      var keys := history.keys;
      NothingVisited(e, now, keys);
      for i := 0 to |keys|
        invariant history == HistoryHalf(e, now, i)
        invariant actions == DueHistoryActions(e, now, keys[..i])
      {
        HistoryVisit(e, now, i);
        var fired := DueHistoryEntry(now, keys[i]);
        actions := actions + fired;
      }
      assert keys[..|keys|] == keys;
    }

    method NextDeadline() returns (t: Option<real>)
      requires Valid()
      ensures t == RecoverySpec.NextDeadline(View())
    {
      ghost var e := View();
      var times: seq<real> := [];
      for i := 0 to |channels.keys|
        invariant times == ChannelTimes(e, channels.keys[..i])
      {
        assert channels.keys[..i + 1][..i] == channels.keys[..i];
        assert channels.keys[i] in channels.keys && channels.keys[i] in channels.vals;
        var rec := channels.vals[channels.keys[i]];
        if rec.phase == FloorWait && rec.floorWake.Some? {
          times := times + [rec.floorWake.value];
        }
        if rec.deadline.Some? {
          times := times + [rec.deadline.value];
        }
      }
      var armed: seq<real> := [];
      for i := 0 to |history.keys|
        invariant armed == HistoryTimes(e, history.keys[..i])
      {
        assert history.keys[..i + 1][..i] == history.keys[..i];
        assert history.keys[i] in history.keys && history.keys[i] in history.vals;
        armed := armed + [history.vals[history.keys[i]].deadline];
      }
      assert channels.keys[..|channels.keys|] == channels.keys;
      assert history.keys[..|history.keys|] == history.keys;
      t := Minimum(times + armed);
    }

    // ---------------------------------------------------------------- history

    method NoteHistoryRequest(now: real, channel: string)
      requires Valid()
      modifies this`history
      ensures Valid()
      ensures View() == Apply(old(View()), now, HistoryRequest(channel)).0
    {
      hide Inv, GapRec, CompleteRec, MessageRec, FailureRec;
      ghost var before := View();
      history := history.Put(channel, Armed(now + window, episodes));
      Restore(before, now, HistoryRequest(channel));
    }

    method NoteHistoryMessage(now: real, channel: string)
      requires Valid()
      modifies this`history
      ensures Valid()
      ensures View() == Apply(old(View()), now, HistoryMessage(channel)).0
    {
      hide Inv, GapRec, CompleteRec, MessageRec, FailureRec;
      ghost var before := View();
      if channel in history.vals {
        history := history.Put(channel, Armed(now + window, episodes));
      }
      Restore(before, now, HistoryMessage(channel));
    }

    method HandleHistoryComplete(channel: string)
      requires Valid()
      modifies this`history
      ensures Valid()
      ensures View() == Apply(old(View()), 0.0, HistoryComplete(channel)).0
    {
      hide Inv, GapRec, CompleteRec, MessageRec, FailureRec;
      ghost var before := View();
      history := history.Remove(channel);
      Restore(before, 0.0, HistoryComplete(channel));
    }

    // ---------------------------------------------------------------- reconnect and failure

    method BuildReconnect() returns (actions: seq<Action>)
      requires Valid()
      ensures (View(), actions) == Apply(View(), 0.0, Event.BuildReconnect)
    {
      actions := [];
      if direct {
        return;
      }
      if |pos| > 0 {
        return [SendReconnect(clientId, pos)];
      }
      if connectedOnce {
        return [SendReconnect(clientId, map[])];
      }
    }

    method MarkConnected()
      requires Valid()
      modifies this`connectedOnce
      ensures Valid()
      ensures View() == Apply(old(View()), 0.0, Event.MarkConnected).0
    {
      hide Inv, GapRec, CompleteRec, MessageRec, FailureRec;
      ghost var before := View();
      connectedOnce := true;
      Restore(before, 0.0, Event.MarkConnected);
    }

    method HandleNotAvailable(resubscribed: seq<string>) returns (actions: seq<Action>)
      requires Valid()
      modifies this
      ensures Valid() && Records() == {}
      ensures (View(), actions) == Apply(old(View()), 0.0, NotAvailable(resubscribed))
    {
      hide Inv, GapRec, CompleteRec, MessageRec, FailureRec;
      ghost var before := View();
      direct := true;
      pos := map[];
      channels := EmptyDict();
      assert View().channels == EmptyDict();
      actions := seq(|resubscribed|, i requires 0 <= i < |resubscribed| => EmitPossibleGap(resubscribed[i]));
      assert actions == PossibleGaps(resubscribed);
      Restore(before, 0.0, NotAvailable(resubscribed));
    }

    method HandleRecoveryFailure(channel: string, code: string) returns (actions: seq<Action>)
      requires Valid()
      modifies Records()
      ensures Valid()
      ensures (View(), actions) == Apply(old(View()), 0.0, RecoveryFailure(channel, code))
    {
      hide Inv;
      ghost var before := View();
      if channel in channels.vals {
        var rec := channels.vals[channel];
        rec.phase := Idle;
        rec.deadline := None;
        rec.followup := None;
        OneRecordChanged(channel);
      }
      actions := [RaiseRecoveryInterrupted(channel, Failure(code))];
      Restore(before, 0.0, RecoveryFailure(channel, code));
    }

    method HandleDisconnect() returns (actions: seq<Action>)
      requires Valid()
      modifies this
      ensures Valid() && Records() == {}
      ensures (View(), actions) == Apply(old(View()), 0.0, Disconnect)
    {
      hide Inv, GapRec, CompleteRec, MessageRec, FailureRec;
      ghost var before := View();
      Shape();
      var interrupted := InterruptedChannels(before);
      channels := EmptyDict();
      var cut: seq<Action> := [];
      for i := 0 to |history.keys|
        invariant |cut| == i
        invariant forall k | 0 <= k < i :: cut[k] == RaiseRecoveryInterrupted(history.keys[k], MidHistoryDisconnect)
      {
        cut := cut + [RaiseRecoveryInterrupted(history.keys[i], MidHistoryDisconnect)];
      }
      assert cut == HistoryReports(history.keys);
      history := EmptyDict();
      assert View().channels == EmptyDict();
      actions := interrupted + cut;
      Restore(before, 0.0, Disconnect);
    }

    method InterruptedChannels(ghost e: Engine) returns (actions: seq<Action>)
      requires channels.Valid() && e == View()
      ensures actions == DisconnectChannelActions(e, channels.keys)
    {
      actions := [];
      for i := 0 to |channels.keys|
        invariant actions == DisconnectChannelActions(e, channels.keys[..i])
      {
        assert channels.keys[..i + 1][..i] == channels.keys[..i];
        var c := channels.keys[i];
        assert c in channels.keys && c in channels.vals;
        var rec := channels.vals[c];
        if rec.phase == FloorWait || rec.phase == Replaying {
          actions := actions + [RaiseRecoveryInterrupted(c, MidRecoveryDisconnect)];
        }
      }
      assert channels.keys[..|channels.keys|] == channels.keys;
    }
  }

  // Creating a record and then updating it is one insertion.
  lemma PutTwice(before: Engine, after: Engine, c: string, rec: Rec)
    requires after == (if c in before.channels.vals then before
                       else before.(channels := before.channels.Put(c, FRESH)))
                      .(channels := after.channels)
    requires after.channels == (if c in before.channels.vals then before.channels
                                else before.channels.Put(c, FRESH)).Put(c, rec)
    ensures after == before.(channels := before.channels.Put(c, rec))
  {
    var mid := if c in before.channels.vals then before.channels else before.channels.Put(c, FRESH);
    assert mid.Put(c, rec).vals == before.channels.Put(c, rec).vals;
  }

  // The record functions read the configuration and the pause state, not the tables.
  lemma RecordCallsIgnoreTables(e: Engine, e': Engine, rec: Rec, now: real, p: string)
    requires e' == e.(channels := e'.channels)
    ensures GapRec(e', rec, now, p) == GapRec(e, rec, now, p)
    ensures CompleteRec(e', rec, now) == CompleteRec(e, rec, now)
    ensures DueRec(e', rec, now) == DueRec(e, rec, now)
  {
  }

  lemma DueActionsStep(e: Engine, now: real, keys: seq<string>, i: nat)
    requires i < |keys|
    ensures DueChannelActions(e, now, keys[..i + 1])
         == DueChannelActions(e, now, keys[..i]) + ToActions(keys[i], DueRec(e, RecOf(e, keys[i]), now).1)
    ensures DueHistoryActions(e, now, keys[..i + 1])
         == DueHistoryActions(e, now, keys[..i])
            + (if HistoryFires(e, now, keys[i]) then [RaiseRecoveryInterrupted(keys[i], HistoryTimeout)] else [])
    ensures SurvivingKeys(e, now, keys[..i + 1])
         == SurvivingKeys(e, now, keys[..i]) + (if HistoryFires(e, now, keys[i]) then [] else [keys[i]])
  {
    assert keys[..i + 1][..i] == keys[..i];
  }

  // The channel table while `due` has visited the channels in `done`.
  ghost function HalfDue(e: Engine, now: real, done: seq<string>): Dict<Rec> {
    Dict(e.channels.keys,
         map c | c in e.channels.vals ::
           if c in done then DueRec(e, e.channels.vals[c], now).0 else e.channels.vals[c])
  }

  lemma HalfDueEnds(e: Engine, now: real)
    requires e.channels.Valid()
    ensures HalfDue(e, now, e.channels.keys[..0]) == e.channels
    ensures HalfDue(e, now, e.channels.keys[..|e.channels.keys|]) == DueChannels(e, now)
  {
    hide DueRec;
    assert e.channels.keys[..|e.channels.keys|] == e.channels.keys;
    assert HalfDue(e, now, []).vals == e.channels.vals;
    assert HalfDue(e, now, e.channels.keys).vals == DueChannels(e, now).vals;
  }

  lemma HalfDueStep(e: Engine, now: real, i: nat)
    requires e.channels.Valid() && i < |e.channels.keys|
    ensures var (keys, c) := (e.channels.keys, e.channels.keys[i]);
            && c in e.channels.vals
            && HalfDue(e, now, keys[..i]).vals[c] == RecOf(e, c)
            && HalfDue(e, now, keys[..i + 1])
               == HalfDue(e, now, keys[..i]).Put(c, DueRec(e, RecOf(e, c), now).0)
  {
    hide DueRec;
    var keys, c := e.channels.keys, e.channels.keys[i];
    assert c in keys && c !in keys[..i] && keys[..i + 1] == keys[..i] + [c];
    assert HalfDue(e, now, keys[..i + 1]).vals
        == HalfDue(e, now, keys[..i]).vals[c := DueRec(e, RecOf(e, c), now).0];
  }

  // The history table while `due` has still to visit the entries in `rest`.
  ghost function HalfVals(e: Engine, now: real, rest: seq<string>): map<string, Armed> {
    map c | c in e.history.vals && (c in rest || !HistoryFires(e, now, c)) ::
      if c in rest then e.history.vals[c] else DueHistoryEntry(e, now, e.history.vals[c])
  }

  ghost function HistoryHalf(e: Engine, now: real, i: nat): Dict<Armed>
    requires i <= |e.history.keys|
  {
    Dict(SurvivingKeys(e, now, e.history.keys[..i]) + e.history.keys[i..],
         HalfVals(e, now, e.history.keys[i..]))
  }

  lemma HistoryHalfEnds(e: Engine, now: real)
    requires e.history.Valid()
    ensures HistoryHalf(e, now, 0) == e.history
    ensures HistoryHalf(e, now, |e.history.keys|) == DueHistory(e, now)
  {
    var keys := e.history.keys;
    assert keys[0..] == keys && keys[|keys|..] == [] && keys[..|keys|] == keys && keys[..0] == [];
    assert HalfVals(e, now, keys) == e.history.vals;
    assert HalfVals(e, now, []) == DueHistory(e, now).vals;
  }

  lemma NothingVisited(e: Engine, now: real, keys: seq<string>)
    ensures DueHistoryActions(e, now, keys[..0]) == []
  {
  }

  // What visiting entry `c` does to the table.
  ghost function Visited(e: Engine, now: real, c: string, half: Dict<Armed>): Dict<Armed>
    requires c in half.vals
  {
    if HistoryFires(e, now, c) then half.Remove(c)
    else if now >= half.vals[c].deadline then half.Put(c, Armed(now + e.window, e.episodes))
    else half
  }

  lemma HistoryHalfStep(e: Engine, now: real, i: nat)
    requires e.history.Valid() && i < |e.history.keys|
    ensures var (c, half) := (e.history.keys[i], HistoryHalf(e, now, i));
            && c in half.vals && half.vals[c] == e.history.vals[c] && c in e.history.vals
            && HistoryHalf(e, now, i + 1) == Visited(e, now, c, half)
  {
    var keys, c := e.history.keys, e.history.keys[i];
    KeyIsUnique(keys, i);
    KeyHasEntry(e.history, i);
    hide *;
    HalfKeysStep(e, now, i);
    HalfValsStep(e, now, c, keys[i + 1..]);
    VisitedIs(e, now, c, SurvivingKeys(e, now, keys[..i]) + keys[i..], HalfVals(e, now, keys[i..]));
    HistoryHalfIs(e, now, i);
    HistoryHalfIs(e, now, i + 1);
  }

  lemma HistoryHalfIs(e: Engine, now: real, i: nat)
    requires i <= |e.history.keys|
    ensures HistoryHalf(e, now, i)
         == Dict(SurvivingKeys(e, now, e.history.keys[..i]) + e.history.keys[i..],
                 HalfVals(e, now, e.history.keys[i..]))
  {
    hide SurvivingKeys, HalfVals;
  }

  lemma VisitedIs(e: Engine, now: real, c: string, keys: seq<string>, vals: map<string, Armed>)
    requires c in vals
    ensures Visited(e, now, c, Dict(keys, vals))
         == if HistoryFires(e, now, c) then Dict(Without(keys, c), vals - {c})
            else if now >= vals[c].deadline then Dict(keys, vals[c := Armed(now + e.window, e.episodes)])
            else Dict(keys, vals)
  {
    hide HistoryFires, Without;
  }

  lemma KeyHasEntry<V>(d: Dict<V>, i: nat)
    requires d.Valid() && i < |d.keys|
    ensures d.keys[i] in d.vals
  {
    assert d.keys[i] in d.keys;
  }

  // One turn of the loop, in the terms of RecoveryEngine.DueHistoryEntry.
  lemma HistoryVisit(e: Engine, now: real, i: nat)
    requires e.history.Valid() && i < |e.history.keys|
    ensures var (keys, c, half) := (e.history.keys, e.history.keys[i], HistoryHalf(e, now, i));
            c in half.vals &&
            var armed := half.vals[c];
            var expired, stalled := now >= armed.deadline, e.paused || e.episodes != armed.episodes;
            && HistoryHalf(e, now, i + 1)
               == (if expired && !stalled then half.Remove(c)
                   else if expired then half.Put(c, Armed(now + e.window, e.episodes))
                   else half)
            && DueHistoryActions(e, now, keys[..i + 1])
               == DueHistoryActions(e, now, keys[..i])
                  + (if expired && !stalled then [RaiseRecoveryInterrupted(c, HistoryTimeout)] else [])
  {
    hide HistoryHalf, DueHistoryActions, SurvivingKeys, Dict.Put, Dict.Remove, Dict.Valid;
    DueActionsStep(e, now, e.history.keys, i);
    HistoryHalfStep(e, now, i);
  }

  lemma HalfKeysStep(e: Engine, now: real, i: nat)
    requires e.history.Valid() && i < |e.history.keys|
    ensures var (keys, c) := (e.history.keys, e.history.keys[i]);
            var half := SurvivingKeys(e, now, keys[..i]) + keys[i..];
            SurvivingKeys(e, now, keys[..i + 1]) + keys[i + 1..]
            == if HistoryFires(e, now, c) then Without(half, c) else half
  {
    var keys, c := e.history.keys, e.history.keys[i];
    var done, rest := SurvivingKeys(e, now, keys[..i]), keys[i + 1..];
    KeyIsUnique(keys, i);
    hide *;
    DueActionsStep(e, now, keys, i);
    SurvivorsAreKeys(e, now, keys[..i]);
    WithoutMiddle(done, c, rest);
    Regroup(done, c, rest);
  }

  lemma KeyIsUnique(keys: seq<string>, i: nat)
    requires NoDuplicates(keys) && i < |keys|
    ensures keys[i] !in keys[..i] && keys[i] !in keys[i + 1..] && keys[i..] == [keys[i]] + keys[i + 1..]
  {
  }

  lemma Regroup(a: seq<string>, c: string, b: seq<string>)
    ensures a + ([c] + b) == a + [c] + b && a + [] + b == a + b
  {
  }

  lemma HalfValsStep(e: Engine, now: real, c: string, rest: seq<string>)
    requires c in e.history.vals && c !in rest
    ensures var half := HalfVals(e, now, [c] + rest);
            && c in half && half[c] == e.history.vals[c]
            && HalfVals(e, now, rest)
               == (if HistoryFires(e, now, c) then half - {c}
                   else if now >= half[c].deadline then half[c := Armed(now + e.window, e.episodes)]
                   else half)
  {
    forall x ensures x in [c] + rest <==> x == c || x in rest {}
  }

  lemma {:induction false} SurvivorsAreKeys(e: Engine, now: real, keys: seq<string>)
    ensures forall c :: c in SurvivingKeys(e, now, keys) ==> c in keys
  {
    if keys != [] {
      var n := |keys| - 1;
      assert keys == keys[..n] + [keys[n]];
      SurvivorsAreKeys(e, now, keys[..n]);
    }
  }

  lemma {:induction false} WithoutMiddle(a: seq<string>, c: string, b: seq<string>)
    requires c !in a && c !in b
    ensures Without(a + [c] + b, c) == a + b
  {
    if a == [] {
      assert a + [c] + b == [c] + b;
      WithoutAbsent(b, c);
    } else {
      WithoutMiddle(a[1..], c, b);
      var all := a + [c] + b;
      assert all[1..] == a[1..] + [c] + b && all[0] == a[0];
      hide Without;
      WithoutHead(all, c);
      assert a + b == [a[0]] + (a[1..] + b);
    }
  }

  lemma WithoutHead(keys: seq<string>, c: string)
    requires keys != [] && keys[0] != c
    ensures Without(keys, c) == [keys[0]] + Without(keys[1..], c)
  {
  }

  lemma {:induction false} WithoutAbsent(b: seq<string>, c: string)
    requires c !in b
    ensures Without(b, c) == b
  {
    if b != [] {
      WithoutAbsent(b[1..], c);
    }
  }
}
