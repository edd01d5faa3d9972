/**
 * Runs of the engine: what every call keeps, and what one call means for one channel.
 * Every theorem about whole runs is proved from the per-channel projections in this file.
 */
module RecoveryRuns {
  import opened Prelude
  import opened RecoverySpec

  // ---------------------------------------------------------------- what every call keeps

  ghost predicate RecInv(e: Engine, rec: Rec) {
    && (rec.deadline.Some? <==> rec.phase == Replaying)
    && (rec.phase == FloorWait ==>
          rec.anchor.Some? && rec.lastReplayAt.Some?
          && rec.floorWake == Some(rec.lastReplayAt.value + e.floor))
    && (rec.phase == Replaying ==> rec.anchor.None? && rec.lastReplayAt.Some?)
    && (rec.phase != Replaying ==> rec.followup.None?)
    && rec.armEpisodes <= e.episodes
  }

  ghost predicate Inv(e: Engine) {
    && e.channels.Valid()
    && e.history.Valid()
    && (forall c | c in e.channels.vals :: RecInv(e, e.channels.vals[c]))
    && (forall c | c in e.history.vals :: e.history.vals[c].episodes <= e.episodes)
  }

  lemma {:induction false} SurvivorsValid(e: Engine, now: real, keys: seq<string>)
    requires NoDuplicates(keys)
    ensures NoDuplicates(SurvivingKeys(e, now, keys))
    ensures forall c :: c in SurvivingKeys(e, now, keys) <==> c in keys && !HistoryFires(e, now, c)
  {
    if keys != [] {
      var n := |keys| - 1;
      assert keys == keys[..n] + [keys[n]];
      SurvivorsValid(e, now, keys[..n]);
      assert keys[n] !in keys[..n];
    }
  }

  lemma PutRecKeepsInv(e: Engine, c: string, rec: Rec)
    requires Inv(e) && RecInv(e, rec)
    ensures Inv(e.(channels := e.channels.Put(c, rec)))
  {
    PutValid(e.channels, c, rec);
  }

  lemma ArmKeepsInv(e: Engine, c: string, now: real)
    requires Inv(e)
    ensures Inv(ArmHistory(e, c, now))
  {
    PutValid(e.history, c, Armed(now + e.window, e.episodes));
  }

  lemma RecOfInv(e: Engine, c: string)
    requires Inv(e)
    ensures RecInv(e, RecOf(e, c))
  {
  }

  lemma RecStepsKeepInv(e: Engine, rec: Rec, now: real, p: string)
    requires RecInv(e, rec)
    ensures RecInv(e, GapRec(e, rec, now, p).0)
    ensures RecInv(e, CompleteRec(e, rec, now).0)
    ensures RecInv(e, MessageRec(e, rec, now))
    ensures RecInv(e, DueRec(e, rec, now).0)
    ensures RecInv(e, FailureRec(rec))
  {
  }

  lemma DueChannelsKeepInv(e: Engine, now: real)
    requires Inv(e)
    ensures DueChannels(e, now).Valid()
    ensures forall c | c in e.channels.vals :: RecInv(e, DueChannels(e, now).vals[c])
  {
    hide DueRec, RecInv;
    var channels := DueChannels(e, now);
    forall c | c in e.channels.vals ensures RecInv(e, channels.vals[c]) {
      RecStepsKeepInv(e, e.channels.vals[c], now, "");
    }
    forall k ensures k in channels.keys <==> k in channels.vals {
      assert k in e.channels.keys <==> k in e.channels.vals;
    }
  }

  lemma DueHistoryKeepsInv(e: Engine, now: real)
    requires Inv(e)
    ensures DueHistory(e, now).Valid()
    ensures forall c | c in DueHistory(e, now).vals :: DueHistory(e, now).vals[c].episodes <= e.episodes
  {
    hide RecInv, HistoryFires;
    var history := DueHistory(e, now);
    SurvivorsValid(e, now, e.history.keys);
    forall k ensures k in history.keys <==> k in history.vals {
      assert k in e.history.keys <==> k in e.history.vals;
    }
  }

  lemma DueKeepsInv(e: Engine, now: real)
    requires Inv(e)
    ensures Inv(AfterDue(e, now).0)
  {
    hide DueRec, HistoryFires, DueHistoryEntry, DueHistory;
    DueChannelsKeepInv(e, now);
    DueHistoryKeepsInv(e, now);
  }

  // The calls that touch one record.
  lemma RecordCallKeepsInv(e: Engine, now: real, ev: Event)
    requires Inv(e) && (ev.Gap? || ev.ReplayComplete? || ev.ReplayMessage? || ev.RecoveryFailure?)
    ensures Inv(Apply(e, now, ev).0)
  {
    hide GapRec, CompleteRec, MessageRec, FailureRec, AfterDue, RecOf, RecInv, Inv;
    var c := ev.channel;
    RecOfInv(e, c);
    RecStepsKeepInv(e, RecOf(e, c), now, if ev.Gap? then ev.lastPos else "");
    assert c in e.channels.vals ==> RecOf(e, c) == e.channels.vals[c] by { RecOfIs(e, c); }
    match ev
    case Gap(_, p) => PutRecKeepsInv(e, c, GapRec(e, RecOf(e, c), now, p).0);
    case ReplayComplete(_) => PutRecKeepsInv(e, c, CompleteRec(e, RecOf(e, c), now).0);
    case ReplayMessage(_) => PutRecKeepsInv(e, c, MessageRec(e, RecOf(e, c), now));
    case RecoveryFailure(_, _) => PutRecKeepsInv(e, c, FailureRec(RecOf(e, c)));
  }

  lemma RecOfIs(e: Engine, c: string)
    ensures c in e.channels.vals ==> RecOf(e, c) == e.channels.vals[c]
  {
  }

  // Every call, in every mode and at any clock reading, keeps the engine's invariant.
  lemma ApplyKeepsInv(e: Engine, now: real, ev: Event)
    requires Inv(e)
    ensures Inv(Apply(e, now, ev).0)
  {
    hide GapRec, CompleteRec, MessageRec, DueRec, FailureRec, AfterDue, ArmHistory, RecInv;
    match ev
    case Gap(_, _) => RecordCallKeepsInv(e, now, ev);
    case ReplayComplete(_) => RecordCallKeepsInv(e, now, ev);
    case ReplayMessage(_) => RecordCallKeepsInv(e, now, ev);
    case RecoveryFailure(_, _) => RecordCallKeepsInv(e, now, ev);
    case HistoryRequest(c) => ArmKeepsInv(e, c, now);
    case HistoryMessage(c) => ArmKeepsInv(e, c, now);
    case HistoryComplete(c) => CompleteKeepsInv(e, c);
    case Due => DueKeepsInv(e, now);
    case _ => InvIgnoresTheRest(e, Apply(e, now, ev).0);
  }

  lemma CompleteKeepsInv(e: Engine, c: string)
    requires Inv(e)
    ensures Inv(e.(history := e.history.Remove(c)))
  {
    RemoveValid(e.history, c);
  }

  lemma InvIgnoresTheRest(e: Engine, e': Engine)
    requires Inv(e) && e'.floor == e.floor && e.episodes <= e'.episodes
    requires e'.channels == e.channels || e'.channels == EmptyDict()
    requires e'.history == e.history || e'.history == EmptyDict()
    ensures Inv(e')
  {
  }

  // ---------------------------------------------------------------- one channel's share of a call

  // The part of a call that concerns channel `c`: its new record and its outcome. A channel
  // without a record counts as FRESH.
  function ChanStep(e: Engine, now: real, ev: Event, c: string): (Rec, Outcome) {
    var rec := RecOf(e, c);
    match ev
    case Gap(ch, p) => if ch == c then GapRec(e, rec, now, p) else (rec, Quiet)
    case ReplayComplete(ch) => if ch == c then CompleteRec(e, rec, now) else (rec, Quiet)
    case ReplayMessage(ch) => (if ch == c then MessageRec(e, rec, now) else rec, Quiet)
    case Due => DueRec(e, rec, now)
    case NotAvailable(_) => (FRESH, Quiet)
    case RecoveryFailure(ch, code) =>
      if ch == c then (FailureRec(rec), Report(Failure(code))) else (rec, Quiet)
    case Disconnect => (FRESH, if rec.phase != Idle then Report(MidRecoveryDisconnect) else Quiet)
    case _ => (rec, Quiet)
  }

  // The same for the history request on `c`, with the reason that is reported, if any.
  function HistStep(e: Engine, now: real, ev: Event, c: string): (Option<Armed>, Option<Reason>) {
    var h := HistOf(e, c);
    match ev
    case HistoryRequest(ch) =>
      (if ch == c then Some(Armed(now + e.window, e.episodes)) else h, None)
    case HistoryMessage(ch) =>
      (if ch == c && h.Some? then Some(Armed(now + e.window, e.episodes)) else h, None)
    case HistoryComplete(ch) => (if ch == c then None else h, None)
    case Due =>
      if HistoryFires(e, now, c) then (None, Some(HistoryTimeout))
      else if h.Some? then (Some(DueHistoryEntry(e, now, h.value)), None)
      else (None, None)
    case Disconnect => (None, if h.Some? then Some(MidHistoryDisconnect) else None)
    case _ => (h, None)
  }

  // Reasons that close a gap-recovery cycle, as opposed to those about history requests.
  predicate RecoveryReason(r: Reason) {
    r != HistoryTimeout && r != MidHistoryDisconnect
  }

  // ---------------------------------------------------------------- one channel's share of the actions

  datatype Topic = Recovery | History

  predicate About(a: Action, c: string, topic: Topic) {
    match a
    case SendReplay(ch, _) => ch == c && topic.Recovery?
    case RaiseRecoveryInterrupted(ch, r) => ch == c && (topic.Recovery? <==> RecoveryReason(r))
    case _ => false
  }

  // The actions about channel `c`, in order and as often as they occur.
  function Share(actions: seq<Action>, c: string, topic: Topic): seq<Action> {
    if actions == [] then []
    else
      var n := |actions| - 1;
      Share(actions[..n], c, topic) + if About(actions[n], c, topic) then [actions[n]] else []
  }

  lemma {:induction false} ShareAppend(a: seq<Action>, b: seq<Action>, c: string, topic: Topic)
    ensures Share(a + b, c, topic) == Share(a, c, topic) + Share(b, c, topic)
    decreases |b|
  {
    hide About;
    if b == [] {
      assert a + b == a;
    } else {
      var n := |b| - 1;
      assert (a + b)[..|a| + n] == a + b[..n] && (a + b)[|a| + n] == b[n];
      ShareAppend(a, b[..n], c, topic);
    }
  }

  lemma ShareOfOne(a: Action, c: string, topic: Topic)
    ensures Share([a], c, topic) == if About(a, c, topic) then [a] else []
  {
    assert [a][..0] == [];
  }

  lemma ShareStep(actions: seq<Action>, a: Action, c: string, topic: Topic)
    ensures Share(actions + [a], c, topic) == Share(actions, c, topic) + if About(a, c, topic) then [a] else []
  {
    hide Share, About;
    ShareAppend(actions, [a], c, topic);
    ShareOfOne(a, c, topic);
  }

  lemma {:induction false} ShareMembers(actions: seq<Action>, c: string, topic: Topic, a: Action)
    ensures a in Share(actions, c, topic) <==> a in actions && About(a, c, topic)
  {
    hide About;
    if actions != [] {
      var n := |actions| - 1;
      assert actions == actions[..n] + [actions[n]];
      ShareMembers(actions[..n], c, topic, a);
    }
  }

  lemma ShareOfOutcome(ch: string, out: Outcome, c: string)
    requires out.Report? ==> RecoveryReason(out.reason)
    ensures Share(ToActions(ch, out), c, Recovery) == if ch == c then ToActions(c, out) else []
    ensures Share(ToActions(ch, out), c, History) == []
  {
    hide Share;
    assert Share([], c, Recovery) == [] && Share([], c, History) == [] by { NoShare(c); }
    if out.Replay? {
      ShareOfOne(SendReplay(ch, out.fromPos), c, Recovery);
      ShareOfOne(SendReplay(ch, out.fromPos), c, History);
    } else if out.Report? {
      ShareOfOne(RaiseRecoveryInterrupted(ch, out.reason), c, Recovery);
      ShareOfOne(RaiseRecoveryInterrupted(ch, out.reason), c, History);
    }
  }

  lemma NoShare(c: string)
    ensures Share([], c, Recovery) == [] && Share([], c, History) == []
  {
  }

  lemma DueOutcome(e: Engine, now: real, c: string)
    ensures var out := DueRec(e, RecOf(e, c), now).1;
            && (out.Report? ==> RecoveryReason(out.reason))
            && (c !in e.channels.vals ==> out == Quiet && ToActions(c, out) == [])
  {
  }

  lemma {:induction false} DueChannelShare(e: Engine, now: real, keys: seq<string>, c: string)
    requires NoDuplicates(keys)
    ensures Share(DueChannelActions(e, now, keys), c, Recovery)
         == if c in keys then ToActions(c, DueRec(e, RecOf(e, c), now).1) else []
    ensures Share(DueChannelActions(e, now, keys), c, History) == []
  {
    hide DueRec, RecOf, Share, ToActions, RecoveryReason;
    if keys == [] {
      NoShare(c);
    } else {
      var n := |keys| - 1;
      var out := DueRec(e, RecOf(e, keys[n]), now).1;
      var earlier := DueChannelActions(e, now, keys[..n]);
      DueChannelShare(e, now, keys[..n], c);
      DueOutcome(e, now, keys[n]);
      ShareOfOutcome(keys[n], out, c);
      ShareAppend(earlier, ToActions(keys[n], out), c, Recovery);
      ShareAppend(earlier, ToActions(keys[n], out), c, History);
      LastKey(keys, c);
    }
  }

  lemma LastKey(keys: seq<string>, c: string)
    requires keys != [] && NoDuplicates(keys)
    ensures var n := |keys| - 1;
            (c in keys <==> c in keys[..n] || c == keys[n]) && !(c in keys[..n] && c == keys[n])
  {
    var n := |keys| - 1;
    assert keys == keys[..n] + [keys[n]];
  }

  lemma {:induction false} DueHistoryShare(e: Engine, now: real, keys: seq<string>, c: string)
    requires NoDuplicates(keys)
    ensures Share(DueHistoryActions(e, now, keys), c, Recovery) == []
    ensures Share(DueHistoryActions(e, now, keys), c, History)
         == if c in keys && HistoryFires(e, now, c) then [RaiseRecoveryInterrupted(c, HistoryTimeout)] else []
  {
    hide Share, HistoryFires;
    if keys == [] {
      NoShare(c);
    } else {
      var n := |keys| - 1;
      var earlier := DueHistoryActions(e, now, keys[..n]);
      DueHistoryShare(e, now, keys[..n], c);
      assert earlier + [] == earlier;
      ShareStep(earlier, RaiseRecoveryInterrupted(keys[n], HistoryTimeout), c, Recovery);
      ShareStep(earlier, RaiseRecoveryInterrupted(keys[n], HistoryTimeout), c, History);
      LastKey(keys, c);
    }
  }

  lemma {:induction false} DisconnectShare(e: Engine, keys: seq<string>, c: string)
    requires NoDuplicates(keys)
    ensures Share(DisconnectChannelActions(e, keys), c, Recovery)
         == if c in keys && RecOf(e, c).phase != Idle then [RaiseRecoveryInterrupted(c, MidRecoveryDisconnect)] else []
    ensures Share(DisconnectChannelActions(e, keys), c, History) == []
  {
    hide Share, RecOf;
    if keys == [] {
      NoShare(c);
    } else {
      var n := |keys| - 1;
      var earlier := DisconnectChannelActions(e, keys[..n]);
      DisconnectShare(e, keys[..n], c);
      assert earlier + [] == earlier;
      ShareStep(earlier, RaiseRecoveryInterrupted(keys[n], MidRecoveryDisconnect), c, Recovery);
      ShareStep(earlier, RaiseRecoveryInterrupted(keys[n], MidRecoveryDisconnect), c, History);
      LastKey(keys, c);
    }
  }

  lemma {:induction false} HistoryReportsShare(keys: seq<string>, c: string)
    requires NoDuplicates(keys)
    ensures Share(HistoryReports(keys), c, Recovery) == []
    ensures Share(HistoryReports(keys), c, History)
         == if c in keys then [RaiseRecoveryInterrupted(c, MidHistoryDisconnect)] else []
    decreases |keys|
  {
    hide Share;
    if keys == [] {
      assert HistoryReports(keys) == [];
      NoShare(c);
    } else {
      var n := |keys| - 1;
      HistoryReportsShare(keys[..n], c);
      var last := RaiseRecoveryInterrupted(keys[n], MidHistoryDisconnect);
      assert HistoryReports(keys) == HistoryReports(keys[..n]) + [last];
      ShareStep(HistoryReports(keys[..n]), last, c, Recovery);
      ShareStep(HistoryReports(keys[..n]), last, c, History);
      LastKey(keys, c);
    }
  }

  lemma {:induction false} PossibleGapsShare(keys: seq<string>, c: string, topic: Topic)
    ensures Share(PossibleGaps(keys), c, topic) == []
    decreases |keys|
  {
    hide Share;
    if keys == [] {
      assert PossibleGaps(keys) == [];
      NoShare(c);
    } else {
      var n := |keys| - 1;
      PossibleGapsShare(keys[..n], c, topic);
      assert PossibleGaps(keys) == PossibleGaps(keys[..n]) + [EmitPossibleGap(keys[n])];
      ShareStep(PossibleGaps(keys[..n]), EmitPossibleGap(keys[n]), c, topic);
    }
  }

  // The recovery actions about `c` are exactly those of the outcome, once each.
  ghost predicate ShowsOutcome(actions: seq<Action>, c: string, out: Outcome) {
    Share(actions, c, Recovery) == ToActions(c, out)
  }

  ghost predicate ShowsReport(actions: seq<Action>, c: string, reason: Option<Reason>) {
    Share(actions, c, History) == if reason.Some? then [RaiseRecoveryInterrupted(c, reason.value)] else []
  }

  lemma ShownMembers(actions: seq<Action>, c: string, out: Outcome)
    requires ShowsOutcome(actions, c, out)
    ensures forall p :: SendReplay(c, p) in actions <==> out == Replay(p)
    ensures forall r | RecoveryReason(r) :: RaiseRecoveryInterrupted(c, r) in actions <==> out == Report(r)
  {
    hide Share;
    forall p ensures SendReplay(c, p) in actions <==> out == Replay(p) {
      ShareMembers(actions, c, Recovery, SendReplay(c, p));
    }
    forall r | RecoveryReason(r) ensures RaiseRecoveryInterrupted(c, r) in actions <==> out == Report(r) {
      ShareMembers(actions, c, Recovery, RaiseRecoveryInterrupted(c, r));
    }
  }

  lemma DueProjection(e: Engine, now: real, c: string)
    requires Inv(e)
    ensures RecOf(AfterDue(e, now).0, c) == DueRec(e, RecOf(e, c), now).0
    ensures ShowsOutcome(AfterDue(e, now).1, c, DueRec(e, RecOf(e, c), now).1)
  {
    DueRecords(e, now, c);
    assert c in e.channels.keys <==> c in e.channels.vals;
    DueOutcome(e, now, c);
    hide *;
    DueShares(e, now, c);
  }

  lemma DueRecords(e: Engine, now: real, c: string)
    ensures RecOf(AfterDue(e, now).0, c) == DueRec(e, RecOf(e, c), now).0
  {
    hide DueChannelActions, DueHistoryActions, DueHistory;
  }

  // Both tables of `due`, seen from one channel.
  lemma DueShares(e: Engine, now: real, c: string)
    requires Inv(e)
    ensures ShowsOutcome(AfterDue(e, now).1, c, DueRec(e, RecOf(e, c), now).1)
    ensures ShowsReport(AfterDue(e, now).1, c, if HistoryFires(e, now, c) then Some(HistoryTimeout) else None)
  {
    KeysAndEntries(e, now, c);
    DueOutcome(e, now, c);
    var first, second := DueChannelActions(e, now, e.channels.keys), DueHistoryActions(e, now, e.history.keys);
    assert AfterDue(e, now).1 == first + second;
    hide Share, DueRec, HistoryFires, ToActions, DueChannelActions, DueHistoryActions, RecOf, AfterDue;
    hide Inv, NoDuplicates;
    DueChannelShare(e, now, e.channels.keys, c);
    DueHistoryShare(e, now, e.history.keys, c);
    ShareAppend(first, second, c, Recovery);
    ShareAppend(first, second, c, History);
  }

  lemma KeysAndEntries(e: Engine, now: real, c: string)
    requires Inv(e)
    ensures NoDuplicates(e.channels.keys) && NoDuplicates(e.history.keys)
    ensures c in e.channels.keys <==> c in e.channels.vals
    ensures c in e.history.keys <==> c in e.history.vals
    ensures c !in e.history.keys ==> !HistoryFires(e, now, c)
  {
  }

  lemma DisconnectProjection(e: Engine, now: real, c: string)
    requires Inv(e)
    ensures RecOf(Apply(e, now, Disconnect).0, c) == FRESH
    ensures ShowsOutcome(Apply(e, now, Disconnect).1, c, ChanStep(e, now, Disconnect, c).1)
    ensures ShowsReport(Apply(e, now, Disconnect).1, c, HistStep(e, now, Disconnect, c).1)
  {
    DisconnectForgets(e, now, c);
    DisconnectSteps(e, now, c);
    KeysAndEntries(e, now, c);
    hide Share, Apply, DisconnectChannelActions, HistoryReports, ChanStep, HistStep, RecOf, HistOf, Inv, NoDuplicates;
    DisconnectShare(e, e.channels.keys, c);
    HistoryReportsShare(e.history.keys, c);
    var first, second := DisconnectChannelActions(e, e.channels.keys), HistoryReports(e.history.keys);
    ShareAppend(first, second, c, Recovery);
    ShareAppend(first, second, c, History);
  }

  lemma DisconnectForgets(e: Engine, now: real, c: string)
    ensures RecOf(Apply(e, now, Disconnect).0, c) == FRESH
    ensures Apply(e, now, Disconnect).1
         == DisconnectChannelActions(e, e.channels.keys) + HistoryReports(e.history.keys)
  {
    hide AfterDue, DisconnectChannelActions, HistoryReports;
  }

  lemma DisconnectSteps(e: Engine, now: real, c: string)
    requires Inv(e)
    ensures ChanStep(e, now, Disconnect, c).1 ==
            if c in e.channels.keys && RecOf(e, c).phase != Idle then Report(MidRecoveryDisconnect) else Quiet
    ensures HistStep(e, now, Disconnect, c).1 ==
            if c in e.history.keys then Some(MidHistoryDisconnect) else None
  {
    assert c in e.channels.keys <==> c in e.channels.vals;
    assert c in e.history.keys <==> c in e.history.vals;
  }

  // For channel `c`, the replays and loss reports among the returned actions are exactly those of
  // ChanStep's outcome, each as often as the outcome says.
  lemma Projection(e: Engine, now: real, ev: Event, c: string)
    requires Inv(e)
    ensures var (rec', out) := ChanStep(e, now, ev, c);
            RecOf(Apply(e, now, ev).0, c) == rec' && ShowsOutcome(Apply(e, now, ev).1, c, out)
  {
    if ev.Due? {
      hide ShowsOutcome, AfterDue, DueRec, Inv;
      DueProjection(e, now, c);
    } else if ev.Disconnect? {
      hide ShowsOutcome, Apply, Inv;
      DisconnectProjection(e, now, c);
    } else if ev.Gap? || ev.ReplayComplete? || ev.ReplayMessage? || ev.RecoveryFailure? {
      hide Apply, ChanStep, ShowsOutcome, Inv;
      RecordCallProjection(e, now, ev, c);
    } else {
      hide Share, AfterDue, DueRec, GapRec, CompleteRec, MessageRec, FailureRec, Inv;
      OtherShares(e, now, ev, c);
    }
  }

  lemma RecordCallProjection(e: Engine, now: real, ev: Event, c: string)
    requires ev.Gap? || ev.ReplayComplete? || ev.ReplayMessage? || ev.RecoveryFailure?
    ensures var (rec', out) := ChanStep(e, now, ev, c);
            RecOf(Apply(e, now, ev).0, c) == rec' && ShowsOutcome(Apply(e, now, ev).1, c, out)
    ensures ShowsReport(Apply(e, now, ev).1, c, None)
  {
    hide AfterDue, DueRec, GapRec, CompleteRec, Share;
    NoShare(c);
    if ev.Gap? || ev.ReplayComplete? {
      var out := ChanStep(e, now, ev, ev.channel).1;
      assert !out.Report? by { CallsReportNothing(e, RecOf(e, ev.channel), now, if ev.Gap? then ev.lastPos else ""); }
      ShareOfOutcome(ev.channel, out, c);
    } else if ev.RecoveryFailure? {
      ShareOfOutcome(ev.channel, Report(Failure(ev.code)), c);
    }
  }

  lemma CallsReportNothing(e: Engine, rec: Rec, now: real, p: string)
    ensures !GapRec(e, rec, now, p).1.Report? && !CompleteRec(e, rec, now).1.Report?
  {
  }

  // The calls whose actions concern no channel's recovery or history.
  lemma OtherShares(e: Engine, now: real, ev: Event, c: string)
    requires !ev.Due? && !ev.Disconnect? && !ev.Gap? && !ev.ReplayComplete? && !ev.RecoveryFailure?
    ensures Share(Apply(e, now, ev).1, c, Recovery) == [] && Share(Apply(e, now, ev).1, c, History) == []
  {
    hide Share;
    NoShare(c);
    if ev.NotAvailable? {
      PossibleGapsShare(ev.resubscribed, c, Recovery);
      PossibleGapsShare(ev.resubscribed, c, History);
    } else if ev.BuildReconnect? && Reconnect(e) != [] {
      ShareOfOne(Reconnect(e)[0], c, Recovery);
      ShareOfOne(Reconnect(e)[0], c, History);
    }
  }

  lemma DueHistoryProjection(e: Engine, now: real, c: string)
    requires Inv(e)
    ensures HistOf(AfterDue(e, now).0, c) == HistStep(e, now, Due, c).0
    ensures ShowsReport(AfterDue(e, now).1, c, HistStep(e, now, Due, c).1)
  {
    hide ShowsReport, ShowsOutcome, DueRec, DueChannelActions, DueHistoryActions, SurvivingKeys, DueChannels, Inv;
    DueShares(e, now, c);
  }

  // The same for the history request on `c`: its timeout and its disconnect are reported once.
  lemma HistoryProjection(e: Engine, now: real, ev: Event, c: string)
    requires Inv(e)
    ensures HistOf(Apply(e, now, ev).0, c) == HistStep(e, now, ev, c).0
    ensures ShowsReport(Apply(e, now, ev).1, c, HistStep(e, now, ev, c).1)
  {
    if ev.Due? {
      hide HistStep, AfterDue, ShowsReport;
      DueHistoryProjection(e, now, c);
    } else if ev.Disconnect? {
      hide AfterDue, ShowsReport, DisconnectChannelActions, HistoryReports;
      DisconnectProjection(e, now, c);
    } else {
      hide AfterDue, GapRec, CompleteRec, MessageRec, FailureRec, Inv, Share;
      if ev.Gap? || ev.ReplayComplete? || ev.RecoveryFailure? {
        RecordCallProjection(e, now, ev, c);
      } else {
        OtherShares(e, now, ev, c);
      }
    }
  }

  lemma ReportedMembers(actions: seq<Action>, c: string, reason: Option<Reason>)
    requires ShowsReport(actions, c, reason)
    ensures forall r | !RecoveryReason(r) :: RaiseRecoveryInterrupted(c, r) in actions <==> reason == Some(r)
  {
    hide Share;
    forall r | !RecoveryReason(r) ensures RaiseRecoveryInterrupted(c, r) in actions <==> reason == Some(r) {
      ShareMembers(actions, c, History, RaiseRecoveryInterrupted(c, r));
    }
  }

  // A disconnect reports every history request that is still open.
  lemma DisconnectReportsHistory(e: Engine, now: real, c: string)
    requires Inv(e)
    ensures RaiseRecoveryInterrupted(c, MidHistoryDisconnect) in Apply(e, now, Disconnect).1
            <==> HistOf(e, c).Some?
  {
    hide Inv, Apply, ShowsReport, ShowsOutcome;
    DisconnectProjection(e, now, c);
    ReportedMembers(Apply(e, now, Disconnect).1, c, HistStep(e, now, Disconnect, c).1);
  }

  // ---------------------------------------------------------------- runs

  // One call with its clock reading, what it returned and the state it left.
  datatype Step = Step(now: real, event: Event, actions: seq<Action>, post: Engine)

  function Before(init: Engine, run: seq<Step>, k: nat): Engine
    requires k <= |run|
  {
    if k == 0 then init else run[k - 1].post
  }

  ghost predicate StepOf(e: Engine, s: Step) {
    (s.post, s.actions) == Apply(e, s.now, s.event)
  }

  ghost predicate IsRun(init: Engine, run: seq<Step>) {
    && init == NewEngine(init.clientId, init.floor, init.window)
    && (forall k {:trigger StepOf(Before(init, run, k), run[k])} | 0 <= k < |run| ::
          StepOf(Before(init, run, k), run[k]))
    && (forall j, k | 0 <= j <= k < |run| :: run[j].now <= run[k].now)
  }

  lemma RunPrefix(init: Engine, run: seq<Step>, k: nat)
    requires IsRun(init, run) && k <= |run|
    ensures IsRun(init, run[..k])
    ensures forall i | 0 <= i <= k :: Before(init, run[..k], i) == Before(init, run, i)
  {
    hide StepOf;
    forall i | 0 <= i < k
      ensures StepOf(Before(init, run[..k], i), run[..k][i])
    {
      assert Before(init, run[..k], i) == Before(init, run, i);
    }
  }

  lemma RunExtends(init: Engine, run: seq<Step>, now: real, ev: Event)
    requires IsRun(init, run)
    requires run != [] ==> run[|run| - 1].now <= now
    ensures var (post, actions) := Apply(Before(init, run, |run|), now, ev);
            IsRun(init, run + [Step(now, ev, actions, post)])
  {
    hide Apply;
    var (post, actions) := Apply(Before(init, run, |run|), now, ev);
    var longer := run + [Step(now, ev, actions, post)];
    forall k | 0 <= k < |longer|
      ensures StepOf(Before(init, longer, k), longer[k])
    {
      assert Before(init, longer, k) == Before(init, run, k);
    }
  }

  lemma StepAt(init: Engine, run: seq<Step>, k: nat)
    requires IsRun(init, run) && k < |run|
    ensures StepOf(Before(init, run, k), run[k]) && Before(init, run, k + 1) == run[k].post
  {
    hide StepOf;
  }

  lemma ConfigurationAt(init: Engine, run: seq<Step>, k: nat)
    requires IsRun(init, run) && k < |run|
    ensures var (e, e', ev) := (Before(init, run, k), run[k].post, run[k].event);
            && (e'.direct <==> e.direct || ev.NotAvailable?)
            && (e'.paused <==> if ev.Backpressure? then ev.on else e.paused)
            && e'.episodes == e.episodes + (if ev == Backpressure(true) && !e.paused then 1 else 0)
  {
    hide IsRun, Before, Apply;
    StepAt(init, run, k);
    ApplyKeepsConfiguration(Before(init, run, k), run[k].now, run[k].event);
  }

  lemma ApplyKeepsConfiguration(e: Engine, now: real, ev: Event)
    ensures var e' := Apply(e, now, ev).0;
            && e'.floor == e.floor && e'.window == e.window && e'.clientId == e.clientId
            && (e'.direct <==> e.direct || ev.NotAvailable?)
            && (e'.paused <==> if ev.Backpressure? then ev.on else e.paused)
            && e'.episodes == e.episodes + (if ev == Backpressure(true) && !e.paused then 1 else 0)
  {
    hide GapRec, CompleteRec, MessageRec, DueChannels, DueHistory, DueChannelActions, DueHistoryActions;
  }

  // Every state of every run satisfies the invariant, and the configuration never changes.
  lemma {:induction false} Reachable(init: Engine, run: seq<Step>, k: nat)
    requires IsRun(init, run) && k <= |run|
    ensures Inv(Before(init, run, k))
    ensures Before(init, run, k).floor == init.floor && Before(init, run, k).window == init.window
    ensures Before(init, run, k).clientId == init.clientId
  {
    hide Apply, Inv;
    if k == 0 {
      FreshEngineInv(init);
    } else {
      Reachable(init, run, k - 1);
      StepAt(init, run, k - 1);
      ApplyKeepsInv(Before(init, run, k - 1), run[k - 1].now, run[k - 1].event);
      ApplyKeepsConfiguration(Before(init, run, k - 1), run[k - 1].now, run[k - 1].event);
    }
  }

  lemma FreshEngineInv(e: Engine)
    requires e == NewEngine(e.clientId, e.floor, e.window)
    ensures Inv(e)
  {
  }

  // The pause-episode counter never goes down, and while it stands still after an unpaused
  // moment the engine stays unpaused.
  lemma {:induction false} EpisodesGrow(init: Engine, run: seq<Step>, j: nat, k: nat)
    requires IsRun(init, run) && j <= k <= |run|
    ensures Before(init, run, j).episodes <= Before(init, run, k).episodes
    ensures Before(init, run, j).episodes == Before(init, run, k).episodes && !Before(init, run, j).paused ==>
            !Before(init, run, k).paused
  {
    hide StepOf;
    if j < k {
      EpisodesGrow(init, run, j, k - 1);
      EpisodeStep(Before(init, run, k - 1), run[k - 1]);
    }
  }

  lemma EpisodeStep(e: Engine, s: Step)
    requires StepOf(e, s)
    ensures e.episodes <= s.post.episodes
    ensures e.episodes == s.post.episodes && !e.paused ==> !s.post.paused
  {
    hide Apply;
    ApplyKeepsConfiguration(e, s.now, s.event);
  }

  // The share of channel `c` in step `k` of a run, as observed.
  lemma StepProjection(init: Engine, run: seq<Step>, k: nat, c: string)
    requires IsRun(init, run) && k < |run|
    ensures Inv(Before(init, run, k)) && Inv(run[k].post)
    ensures RecInv(Before(init, run, k), RecOf(Before(init, run, k), c))
    ensures RecInv(run[k].post, RecOf(run[k].post, c))
    ensures var (rec', out) := ChanStep(Before(init, run, k), run[k].now, run[k].event, c);
            RecOf(run[k].post, c) == rec' && ShowsOutcome(run[k].actions, c, out)
  {
    hide Apply, ChanStep, Inv, RecInv, ShowsOutcome, RecOf;
    StepAt(init, run, k);
    Reachable(init, run, k);
    Reachable(init, run, k + 1);
    RecOfInv(Before(init, run, k), c);
    RecOfInv(run[k].post, c);
    Projection(Before(init, run, k), run[k].now, run[k].event, c);
  }
}
