/**
 * The gap-recovery engine as a pure transition function: one channel record at a time first,
 * then the whole engine. Time is `real`; the source's `-inf` is `None`.
 */
module RecoverySpec {
  import opened Prelude

  datatype Phase = Idle | FloorWait | Replaying

  datatype Reason =
    | ReplayTimeout
    | HistoryTimeout
    | MidRecoveryDisconnect
    | MidHistoryDisconnect
    | Failure(code: string)

  datatype Action =
    | SendReplay(channel: string, fromPos: string)
    | SendReconnect(clientId: string, lastPos: map<string, string>)
    | EmitPossibleGap(channel: string)
    | RaiseRecoveryInterrupted(channel: string, reason: Reason)

  datatype Rec = Rec(
    phase: Phase,
    anchor: Option<string>,
    followup: Option<string>,
    lastReplayAt: Option<real>,
    floorWake: Option<real>,
    deadline: Option<real>,
    armEpisodes: nat)

  const FRESH: Rec := Rec(Idle, None, None, None, None, None, 0)

  // A detection deadline with the pause-episode count captured when it was armed.
  datatype Armed = Armed(deadline: real, episodes: nat)

  datatype Engine = Engine(
    clientId: string,
    floor: real,
    window: real,
    pos: map<string, string>,
    channels: Dict<Rec>,
    history: Dict<Armed>,
    direct: bool,
    connectedOnce: bool,
    paused: bool,
    episodes: nat)

  function NewEngine(clientId: string, floor: real, window: real): Engine {
    Engine(clientId, floor, window, map[], EmptyDict(), EmptyDict(), false, false, false, 0)
  }

  datatype Event =
    | NotePos(channel: string, pos: Option<string>)
    | Gap(channel: string, lastPos: string)
    | ReplayComplete(channel: string)
    | ReplayMessage(channel: string)
    | Backpressure(on: bool)
    | Due
    | HistoryRequest(channel: string)
    | HistoryMessage(channel: string)
    | HistoryComplete(channel: string)
    | BuildReconnect
    | MarkConnected
    | NotAvailable(resubscribed: seq<string>)
    | RecoveryFailure(channel: string, code: string)
    | Disconnect

  // ---------------------------------------------------------------- one channel record

  // What one event means for one channel: nothing to do, send a replay, or report a loss.
  datatype Outcome = Quiet | Replay(fromPos: string) | Report(reason: Reason)

  predicate FloorOpen(rec: Rec, now: real, floor: real) {
    rec.lastReplayAt.None? || now >= rec.lastReplayAt.value + floor
  }

  function Earliest(rec: Rec, floor: real): Option<real> {
    if rec.lastReplayAt.None? then None else Some(rec.lastReplayAt.value + floor)
  }

  predicate Suspends(e: Engine, armEpisodes: nat) {
    e.paused || e.episodes != armEpisodes
  }

  function BeginReplay(e: Engine, rec: Rec, now: real): Rec {
    rec.(phase := Replaying, anchor := None, lastReplayAt := Some(now), floorWake := None,
         deadline := Some(now + e.window), armEpisodes := e.episodes)
  }

  function GapRec(e: Engine, rec: Rec, now: real, lastPos: string): (Rec, Outcome) {
    match rec.phase
    case Idle =>
      var anchored := rec.(anchor := Some(lastPos));
      if FloorOpen(rec, now, e.floor) then (BeginReplay(e, anchored, now), Replay(lastPos))
      else (anchored.(phase := FloorWait, floorWake := Earliest(rec, e.floor)), Quiet)
    case FloorWait => (rec, Quiet)
    case Replaying =>
      (if rec.followup.None? then rec.(followup := Some(lastPos)) else rec, Quiet)
  }

  function CompleteRec(e: Engine, rec: Rec, now: real): (Rec, Outcome) {
    var quiet := rec.(deadline := None);
    if rec.phase != Replaying then (quiet, Quiet)
    else
      var done := quiet.(followup := None);
      match rec.followup
      case None => (done.(phase := Idle), Quiet)
      case Some(p) =>
        if FloorOpen(rec, now, e.floor) then (BeginReplay(e, done, now), Replay(p))
        else
          (done.(phase := FloorWait, anchor := Some(p), floorWake := Earliest(rec, e.floor)), Quiet)
  }

  function MessageRec(e: Engine, rec: Rec, now: real): Rec {
    if rec.phase == Replaying
    then rec.(deadline := Some(now + e.window), armEpisodes := e.episodes)
    else rec
  }

  function DueRec(e: Engine, rec: Rec, now: real): (Rec, Outcome) {
    if rec.phase == FloorWait && rec.floorWake.Some? && now >= rec.floorWake.value && rec.anchor.Some?
    then (BeginReplay(e, rec, now), Replay(rec.anchor.value))
    else if rec.phase == Replaying && rec.deadline.Some? && now >= rec.deadline.value then
      if Suspends(e, rec.armEpisodes)
      then (rec.(deadline := Some(now + e.window), armEpisodes := e.episodes), Quiet)
      else (rec.(phase := Idle, deadline := None, followup := None), Report(ReplayTimeout))
    else (rec, Quiet)
  }

  function FailureRec(rec: Rec): Rec {
    rec.(phase := Idle, deadline := None, followup := None)
  }

  // ---------------------------------------------------------------- the whole engine

  function RecOf(e: Engine, c: string): Rec {
    if c in e.channels.vals then e.channels.vals[c] else FRESH
  }

  function HistOf(e: Engine, c: string): Option<Armed> {
    if c in e.history.vals then Some(e.history.vals[c]) else None
  }

  function ToActions(c: string, out: Outcome): seq<Action> {
    match out
    case Quiet => []
    case Replay(p) => [SendReplay(c, p)]
    case Report(r) => [RaiseRecoveryInterrupted(c, r)]
  }

  function WithRec(e: Engine, c: string, result: (Rec, Outcome)): (Engine, seq<Action>) {
    (e.(channels := e.channels.Put(c, result.0)), ToActions(c, result.1))
  }

  function ArmHistory(e: Engine, c: string, now: real): Engine {
    e.(history := e.history.Put(c, Armed(now + e.window, e.episodes)))
  }

  function DueChannelActions(e: Engine, now: real, keys: seq<string>): seq<Action> {
    if keys == [] then []
    else
      var c := keys[|keys| - 1];
      DueChannelActions(e, now, keys[..|keys| - 1]) + ToActions(c, DueRec(e, RecOf(e, c), now).1)
  }

  predicate HistoryFires(e: Engine, now: real, c: string) {
    c in e.history.vals && now >= e.history.vals[c].deadline && !Suspends(e, e.history.vals[c].episodes)
  }

  function DueHistoryEntry(e: Engine, now: real, a: Armed): Armed {
    if now >= a.deadline && Suspends(e, a.episodes) then Armed(now + e.window, e.episodes) else a
  }

  function DueHistoryActions(e: Engine, now: real, keys: seq<string>): seq<Action> {
    if keys == [] then []
    else
      var c := keys[|keys| - 1];
      DueHistoryActions(e, now, keys[..|keys| - 1])
      + if HistoryFires(e, now, c) then [RaiseRecoveryInterrupted(c, HistoryTimeout)] else []
  }

  function SurvivingKeys(e: Engine, now: real, keys: seq<string>): seq<string> {
    if keys == [] then []
    else
      var c := keys[|keys| - 1];
      SurvivingKeys(e, now, keys[..|keys| - 1]) + if HistoryFires(e, now, c) then [] else [c]
  }

  function DueChannels(e: Engine, now: real): Dict<Rec> {
    Dict(e.channels.keys, map c | c in e.channels.vals :: DueRec(e, e.channels.vals[c], now).0)
  }

  function DueHistory(e: Engine, now: real): Dict<Armed> {
    Dict(SurvivingKeys(e, now, e.history.keys),
         map c | c in e.history.vals && !HistoryFires(e, now, c)
           :: DueHistoryEntry(e, now, e.history.vals[c]))
  }

  function AfterDue(e: Engine, now: real): (Engine, seq<Action>) {
    (e.(channels := DueChannels(e, now), history := DueHistory(e, now)),
     DueChannelActions(e, now, e.channels.keys) + DueHistoryActions(e, now, e.history.keys))
  }

  function DisconnectChannelActions(e: Engine, keys: seq<string>): seq<Action> {
    if keys == [] then []
    else
      var c := keys[|keys| - 1];
      DisconnectChannelActions(e, keys[..|keys| - 1])
      + if RecOf(e, c).phase != Idle then [RaiseRecoveryInterrupted(c, MidRecoveryDisconnect)] else []
  }

  function HistoryReports(keys: seq<string>): seq<Action> {
    seq(|keys|, i requires 0 <= i < |keys| => RaiseRecoveryInterrupted(keys[i], MidHistoryDisconnect))
  }

  function PossibleGaps(keys: seq<string>): seq<Action> {
    seq(|keys|, i requires 0 <= i < |keys| => EmitPossibleGap(keys[i]))
  }

  function Reconnect(e: Engine): seq<Action> {
    if e.direct then []
    else if |e.pos| > 0 then [SendReconnect(e.clientId, e.pos)]
    else if e.connectedOnce then [SendReconnect(e.clientId, map[])]
    else []
  }

  // One call on the engine at clock reading `now`: the new state and the returned actions.
  function Apply(e: Engine, now: real, ev: Event): (Engine, seq<Action>) {
    match ev
    case NotePos(c, p) => (if p.Some? then e.(pos := e.pos[c := p.value]) else e, [])
    case Gap(c, p) => WithRec(e, c, GapRec(e, RecOf(e, c), now, p))
    case ReplayComplete(c) => WithRec(e, c, CompleteRec(e, RecOf(e, c), now))
    case ReplayMessage(c) =>
      if c in e.channels.vals
      then (e.(channels := e.channels.Put(c, MessageRec(e, e.channels.vals[c], now))), [])
      else (e, [])
    case Backpressure(on) =>
      (e.(paused := on, episodes := if on && !e.paused then e.episodes + 1 else e.episodes), [])
    case Due => AfterDue(e, now)
    case HistoryRequest(c) => (ArmHistory(e, c, now), [])
    case HistoryMessage(c) => (if c in e.history.vals then ArmHistory(e, c, now) else e, [])
    case HistoryComplete(c) => (e.(history := e.history.Remove(c)), [])
    case BuildReconnect => (e, Reconnect(e))
    case MarkConnected => (e.(connectedOnce := true), [])
    case NotAvailable(cs) =>
      (e.(direct := true, pos := map[], channels := EmptyDict()), PossibleGaps(cs))
    case RecoveryFailure(c, code) =>
      (if c in e.channels.vals
       then e.(channels := e.channels.Put(c, FailureRec(e.channels.vals[c]))) else e,
       [RaiseRecoveryInterrupted(c, Failure(code))])
    case Disconnect =>
      (e.(channels := EmptyDict(), history := EmptyDict()),
       DisconnectChannelActions(e, e.channels.keys) + HistoryReports(e.history.keys))
  }

  // ---------------------------------------------------------------- the next timer

  function ChannelTimes(e: Engine, keys: seq<string>): seq<real> {
    if keys == [] then []
    else
      var rec := RecOf(e, keys[|keys| - 1]);
      ChannelTimes(e, keys[..|keys| - 1])
      + (if rec.phase == FloorWait && rec.floorWake.Some? then [rec.floorWake.value] else [])
      + (if rec.deadline.Some? then [rec.deadline.value] else [])
  }

  function HistoryTimes(e: Engine, keys: seq<string>): seq<real> {
    if keys == [] then []
    else
      var h := HistOf(e, keys[|keys| - 1]);
      HistoryTimes(e, keys[..|keys| - 1]) + if h.Some? then [h.value.deadline] else []
  }

  function Minimum(ts: seq<real>): (r: Option<real>)
    ensures r.None? <==> ts == []
    ensures r.Some? ==> r.value in ts && forall t | t in ts :: r.value <= t
  {
    if ts == [] then None
    else
      var rest := Minimum(ts[1..]);
      assert ts == [ts[0]] + ts[1..];
      if rest.None? || ts[0] <= rest.value then Some(ts[0]) else rest
  }

  function NextDeadline(e: Engine): Option<real> {
    Minimum(ChannelTimes(e, e.channels.keys) + HistoryTimes(e, e.history.keys))
  }
}
