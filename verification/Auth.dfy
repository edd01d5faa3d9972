/**
 * Credential refresh and escalation. Coroutines are callers with a program counter; a move is
 * one atomic segment between suspensions. Awaiting a settled future does not suspend, and the
 * callers that wait for one future wake in the order in which they began to wait.
 */
module AuthSpec {
  import opened Prelude
  import opened Backoff

  // ---------------------------------------------------------------- the manager

  // NotConnected and Rejected are errors of the library; Foreign is any other exception.
  datatype Failure = NotConnected | Rejected | Cancelled | Foreign

  datatype Future = Open | Acked | Failed(why: Failure)

  datatype Manager = Manager(
    token: Option<string>,
    fetches: bool,                  // a get_token callback was supplied
    minInterval: real,
    pending: Option<nat>,           // the claimed future, by its index in `futures`
    futures: seq<Future>,
    lastRefreshAt: Option<real>,
    failures: nat)

  const MAX_REFRESH_BACKOFF: real := 300.0

  function EffectiveInterval(minInterval: real, failures: nat): real {
    if failures == 0 then minInterval
    else MinReal(MAX_REFRESH_BACKOFF, minInterval * Pow2(failures))
  }

  function Store(m: Manager, token: string): Manager {
    m.(token := Some(token))
  }

  function Claim(m: Manager): Manager {
    m.(pending := Some(|m.futures|), futures := m.futures + [Open])
  }

  // Settle the claimed future unless it is already settled.
  function Settle(m: Manager, with: Future): Manager {
    if m.pending.Some? && m.pending.value < |m.futures| && m.futures[m.pending.value] == Open
    then m.(futures := m.futures[m.pending.value := with])
    else m
  }

  function Release(m: Manager): Manager {
    m.(pending := None)
  }

  function OnAck(m: Manager): Manager {
    Settle(m.(failures := 0), Acked)
  }

  // The flag says that the error was unsolicited.
  function OnError(m: Manager): (Manager, bool) {
    var m' := m.(failures := m.failures + 1);
    (Settle(m', Failed(Rejected)), Settle(m', Failed(Rejected)) == m')
  }

  function OnClose(m: Manager): Manager {
    Settle(m, Failed(NotConnected))
  }

  // When a refresh that starts now may fetch its token.
  function Earliest(m: Manager, now: real): real {
    if m.lastRefreshAt.None? then now
    else m.lastRefreshAt.value + EffectiveInterval(m.minInterval, m.failures)
  }

  // ---------------------------------------------------------------- callers

  datatype Kind = Refresh | Escalate(jwt: string)

  datatype Result = Returned | Escalated(future: nat) | Deferred | Raised(why: Failure)

  datatype Pc =
    | Ready
    | Coalesced(f: nat)                           // awaiting another caller's claim
    | Draining(f: nat)                            // an escalation awaiting an in-flight refresh
    | Sleeping(f: nat, until: real, since: nat)   // owner: waiting out the floor
    | Fetching(f: nat, since: nat)                // owner: resolving the token
    | Offering(f: nat)                            // owner: an escalation about to send
    | Sending(f: nat)                             // owner: the frame is on its way
    | Awaiting(f: nat)                            // owner: awaiting the ack
    | Finished(result: Result)

  // `turn` numbers the waits of all callers in the order in which they began.
  datatype Caller = Caller(kind: Kind, pc: Pc, turn: nat)

  // An auth frame: the claim it belongs to, its sender, and for a refresh the failure count its
  // backoff was computed from.
  datatype Frame = Frame(f: nat, owner: nat, token: string, at: real, refresh: bool, since: nat)

  // A caller that goes round a loop without ever suspending; nothing else runs from then on.
  datatype Stuck = Stuck(caller: nat, claim: nat)

  datatype System = System(
    m: Manager,
    callers: seq<Caller>,
    frames: seq<Frame>,
    clock: real,
    turns: nat,
    stuck: Option<Stuck>)

  function Owned(pc: Pc): Option<nat> {
    match pc
    case Sleeping(f, _, _) => Some(f)
    case Fetching(f, _) => Some(f)
    case Offering(f) => Some(f)
    case Sending(f) => Some(f)
    case Awaiting(f) => Some(f)
    case _ => None
  }

  function AwaitedBy(pc: Pc): Option<nat> {
    match pc
    case Coalesced(f) => Some(f)
    case Draining(f) => Some(f)
    case Awaiting(f) => Some(f)
    case _ => None
  }

  predicate Sent(pc: Pc) {
    pc.Sending? || pc.Awaiting?
  }

  function At(s: System, o: nat, pc: Pc): System
    requires o < |s.callers|
  {
    s.(callers := s.callers[o := s.callers[o].(pc := pc)])
  }

  // The caller suspends on a future, behind everybody who waits already.
  function Await(s: System, o: nat, pc: Pc): System
    requires o < |s.callers|
  {
    s.(callers := s.callers[o := s.callers[o].(pc := pc, turn := s.turns)], turns := s.turns + 1)
  }

  // The owner leaves: its future is settled with the failure, if any, and the claim is released.
  function Exit(s: System, o: nat, why: Option<Failure>, result: Result): System
    requires o < |s.callers|
  {
    var m := if why.Some? then Settle(s.m, Failed(why.value)) else s.m;
    At(s.(m := Release(m)), o, Finished(result))
  }

  datatype Send = Starts | Refuses(why: Failure)

  // A fetched token is stored and the refresh is stamped.
  function Stamped(s: System, token: string): System {
    s.(m := Store(s.m, token).(lastRefreshAt := Some(s.clock)))
  }

  function SendFrame(s: System, o: nat, f: nat, token: string, since: nat): System
    requires o < |s.callers|
  {
    At(s.(frames := s.frames + [Frame(f, o, token, s.clock, s.callers[o].kind.Refresh?, since)]), o, Sending(f))
  }

  // The owner hands its token to send_auth: a frame leaves, or the call raises at once.
  function StartSend(s: System, o: nat, f: nat, token: string, since: nat, send: Send): System
    requires o < |s.callers|
  {
    match send
    case Starts => SendFrame(s, o, f, token, since)
    case Refuses(why) => Exit(s, o, Some(why), Raised(why))
  }

  // A refresh takes the free slot.
  function ClaimRefresh(s: System, o: nat): System
    requires o < |s.callers|
  {
    var f := |s.m.futures|;
    var earliest := Earliest(s.m, s.clock);
    At(s.(m := Claim(s.m)), o,
       if s.clock < earliest then Sleeping(f, earliest, s.m.failures) else Fetching(f, s.m.failures))
  }

  // An escalation finds the slot free: it stores its token, claims and sends, without a pause.
  function ClaimEscalation(s: System, o: nat, jwt: string, send: Send): System
    requires o < |s.callers|
  {
    var f := |s.m.futures|;
    StartSend(At(s.(m := Claim(Store(s.m, jwt))), o, Offering(f)), o, f, jwt, 0, send)
  }

  predicate Settled(s: System, f: nat) {
    f < |s.m.futures| && s.m.futures[f] != Open
  }

  // The outcomes after which escalate looks at the slot again.
  predicate TriesAgain(outcome: Future) {
    outcome == Acked || outcome == Failed(Rejected)
  }

  // The other outcomes end the escalation: deferred after a close, failed otherwise.
  function GiveUp(s: System, o: nat, jwt: string, why: Failure): System
    requires o < |s.callers|
  {
    if why == NotConnected then At(s.(m := Store(s.m, jwt)), o, Finished(Deferred))
    else At(s, o, Finished(Raised(why)))
  }

  // The head of escalate's loop. A slot whose future is settled but that is not released keeps
  // the loop going round for ever, because awaiting that future does not suspend.
  function Drain(s: System, o: nat, jwt: string, send: Send): System
    requires o < |s.callers|
  {
    if s.m.pending.None? then ClaimEscalation(s, o, jwt, send)
    else
      var f := s.m.pending.value;
      if !Settled(s, f) then Await(s, o, Draining(f))
      else if TriesAgain(s.m.futures[f]) then At(s, o, Draining(f)).(stuck := Some(Stuck(o, f)))
      else GiveUp(s, o, jwt, s.m.futures[f].why)
  }

  // The owner has seen its future settled.
  function LeaveOn(s: System, o: nat, f: nat): System
    requires o < |s.callers| && Settled(s, f)
  {
    var outcome := s.m.futures[f];
    if outcome.Acked?
    then Exit(s, o, None, if s.callers[o].kind.Refresh? then Returned else Escalated(f))
    else Exit(s, o, Some(outcome.why), Raised(outcome.why))
  }

  function ResultOf(outcome: Future): Result
    requires outcome != Open
  {
    if outcome.Acked? then Returned else Raised(outcome.why)
  }

  // A refresh that finds the slot taken waits for it, unless its future is settled already.
  function Coalesce(s: System, o: nat, f: nat): System
    requires o < |s.callers|
  {
    if Settled(s, f) then At(s, o, Finished(ResultOf(s.m.futures[f]))) else Await(s, o, Coalesced(f))
  }

  // Nobody has waited longer for the future that `o` waits for.
  predicate MayWake(s: System, o: nat)
    requires o < |s.callers|
  {
    forall x | 0 <= x < |s.callers| && AwaitedBy(s.callers[x].pc) == AwaitedBy(s.callers[o].pc) ::
      s.callers[o].turn <= s.callers[x].turn
  }

  datatype Move =
    | Tick(now: real)
    | Spawn(kind: Kind)
    | Begin(o: nat, connected: bool, send: Send)
    | WakeFromSleep(o: nat)
    | Fetched(o: nat, token: string, send: Send)
    | FetchFailed(o: nat, why: Failure)
    | SendDone(o: nat)
    | SendFailed(o: nat, why: Failure)
    | WakeOnFuture(o: nat, send: Send)
    | Cancel(o: nat)
    | AckArrives
    | ErrorArrives
    | Close
    | UpdateToken(token: string)

  function WakeOn(s: System, o: nat, send: Send): System
    requires o < |s.callers|
  {
    var caller := s.callers[o];
    var awaited := AwaitedBy(caller.pc);
    if awaited.None? || !Settled(s, awaited.value) || !MayWake(s, o) then s
    else
      var outcome := s.m.futures[awaited.value];
      match caller.pc
      case Coalesced(_) => At(s, o, Finished(ResultOf(outcome)))
      case Awaiting(f) => LeaveOn(s, o, f)
      case Draining(_) =>
        if caller.kind.Refresh? then s
        else if TriesAgain(outcome) then Drain(s, o, caller.kind.jwt, send)
        else GiveUp(s, o, caller.kind.jwt, outcome.why)
      case _ => s
  }

  // A cancellation cancels the shared future a caller waits for; once that is settled, it is
  // delivered when the caller's turn to wake comes.
  function CancelCaller(s: System, o: nat): System
    requires o < |s.callers|
  {
    var pc := s.callers[o].pc;
    var awaited := AwaitedBy(pc);
    if awaited.Some? && !Settled(s, awaited.value) && s.m.pending == awaited
    then s.(m := Settle(s.m, Failed(Cancelled)))
    else if awaited.Some? && !MayWake(s, o) then s
    else if Owned(pc).Some? then Exit(s, o, Some(Cancelled), Raised(Cancelled))
    else if pc.Finished? then s
    else At(s, o, Finished(Raised(Cancelled)))
  }

  // A move that is not enabled leaves the system as it is.
  function Next(s: System, move: Move): System {
    if s.stuck.Some? then s
    else
    match move
    case Tick(now) => if s.clock <= now then s.(clock := now) else s
    case Spawn(kind) => s.(callers := s.callers + [Caller(kind, Ready, 0)])
    case Begin(o, connected, send) =>
      if o >= |s.callers| || s.callers[o].pc != Ready then s
      else (
        match s.callers[o].kind
        case Refresh => if s.m.pending.Some? then Coalesce(s, o, s.m.pending.value) else ClaimRefresh(s, o)
        case Escalate(jwt) =>
          if !connected then At(s.(m := Store(s.m, jwt)), o, Finished(Deferred)) else Drain(s, o, jwt, send))
    case WakeFromSleep(o) =>
      if o < |s.callers| && s.callers[o].pc.Sleeping? && s.callers[o].pc.until <= s.clock
      then At(s, o, Fetching(s.callers[o].pc.f, s.callers[o].pc.since)) else s
    case Fetched(o, token, send) =>
      if o >= |s.callers| || !s.callers[o].pc.Fetching? then s
      else
        var pc := s.callers[o].pc;
        var resolved := if s.m.fetches then Some(token) else s.m.token;
        if resolved.None? then Exit(s, o, Some(Rejected), Raised(Rejected))
        else StartSend(Stamped(s, resolved.value), o, pc.f, resolved.value, pc.since, send)
    case FetchFailed(o, why) =>
      if o < |s.callers| && s.callers[o].pc.Fetching? then Exit(s, o, Some(why), Raised(why)) else s
    case SendDone(o) => if o < |s.callers| && s.callers[o].pc.Sending? then AfterSend(s, o, s.callers[o].pc.f) else s
    case SendFailed(o, why) =>
      if o < |s.callers| && s.callers[o].pc.Sending? then Exit(s, o, Some(why), Raised(why)) else s
    case WakeOnFuture(o, send) => if o < |s.callers| then WakeOn(s, o, send) else s
    case Cancel(o) => if o < |s.callers| then CancelCaller(s, o) else s
    case AckArrives => s.(m := OnAck(s.m))
    case ErrorArrives => s.(m := OnError(s.m).0)
    case Close => s.(m := OnClose(s.m))
    case UpdateToken(token) => s.(m := Store(s.m, token))
  }

  // The frame is out: the owner waits for its future, unless that is settled already.
  function AfterSend(s: System, o: nat, f: nat): System
    requires o < |s.callers|
  {
    if Settled(s, f) then LeaveOn(s, o, f) else Await(s, o, Awaiting(f))
  }

  function Start(token: Option<string>, fetches: bool, minInterval: real, clock: real): System {
    System(Manager(token, fetches, minInterval, None, [], None, 0), [], [], clock, 0, None)
  }

  function NextAll(s: System, moves: seq<Move>): System {
    if moves == [] then s else Next(NextAll(s, moves[..|moves| - 1]), moves[|moves| - 1])
  }

  // ---------------------------------------------------------------- the invariant

  ghost predicate OwnerOf(s: System, o: nat, f: nat) {
    o < |s.callers| && Owned(s.callers[o].pc) == Some(f)
  }

  // The claim is held by exactly one caller, and every other future is settled.
  ghost predicate Claims(s: System) {
    && (forall o: nat, f: nat | OwnerOf(s, o, f) :: s.m.pending == Some(f))
    && (forall o: nat, o': nat, f: nat, f': nat | OwnerOf(s, o, f) && OwnerOf(s, o', f') :: o == o')
    && (s.m.pending.Some? ==> s.m.pending.value + 1 == |s.m.futures|
                              && exists o: nat :: OwnerOf(s, o, s.m.pending.value))
    && (forall f: nat | f < |s.m.futures| && Some(f) != s.m.pending :: s.m.futures[f] != Open)
    && (forall o | 0 <= o < |s.callers| && AwaitedBy(s.callers[o].pc).Some? ::
          AwaitedBy(s.callers[o].pc).value < |s.m.futures|)
  }

  // Claims send frames in the order they were made, each at most one; the claim in progress has
  // sent its frame exactly when its owner has got that far, and it is then the last frame.
  ghost predicate FramesOk(s: System) {
    && (forall i, j | 0 <= i < j < |s.frames| :: s.frames[i].f < s.frames[j].f)
    && (forall i | 0 <= i < |s.frames| ::
          s.frames[i].f < |s.m.futures| && s.frames[i].owner < |s.callers|)
    && (forall o | 0 <= o < |s.callers| ::
          var pc := s.callers[o].pc;
          && (Owned(pc).Some? && !Sent(pc) ==> forall i | 0 <= i < |s.frames| :: s.frames[i].f < Owned(pc).value)
          && (Sent(pc) ==>
                (s.frames != []
                 && s.frames[|s.frames| - 1].f == pc.f && s.frames[|s.frames| - 1].owner == o)))
  }

  ghost predicate NoFrameOf(frames: seq<Frame>, o: nat) {
    forall i | 0 <= i < |frames| :: frames[i].owner != o
  }

  // `o` sent frame `i` for its own claim `f` with its own token, and sent nothing else.
  ghost predicate OnlyFrame(frames: seq<Frame>, o: nat, i: int, f: nat, jwt: string) {
    && 0 <= i < |frames| && frames[i].owner == o && frames[i].f == f
    && frames[i].token == jwt && !frames[i].refresh
    && forall k | 0 <= k < |frames| && k != i :: frames[k].owner != o
  }

  ghost predicate EscalationOk(s: System, o: nat)
    requires o < |s.callers|
  {
    var caller := s.callers[o];
    caller.kind.Escalate? ==>
      match caller.pc
      case Ready => NoFrameOf(s.frames, o)
      case Draining(_) => NoFrameOf(s.frames, o)
      case Offering(_) => NoFrameOf(s.frames, o)
      case Sending(f) => OnlyFrame(s.frames, o, |s.frames| - 1, f, caller.kind.jwt)
      case Awaiting(f) => OnlyFrame(s.frames, o, |s.frames| - 1, f, caller.kind.jwt)
      case Finished(r) =>
        && r != Returned
        && (r.Deferred? ==> NoFrameOf(s.frames, o))
        && (r.Escalated? ==> Settled(s, r.future) && s.m.futures[r.future] == Acked
                             && exists i :: OnlyFrame(s.frames, o, i, r.future, caller.kind.jwt))
      case _ => false
  }

  ghost predicate Escalations(s: System) {
    forall o: nat | o < |s.callers| :: EscalationOk(s, o)
  }

  function Interval(s: System, since: nat): real {
    EffectiveInterval(s.m.minInterval, since)
  }

  // No refresh frame is later than the stamp, the stamp is not in the future, an owner sleeps
  // exactly to the floor computed from the stamp, and one that has finished is past it.
  ghost predicate Spacing(s: System) {
    && (forall i | 0 <= i < |s.frames| && s.frames[i].refresh ::
          s.m.lastRefreshAt.Some? && s.frames[i].at <= s.m.lastRefreshAt.value)
    && (s.m.lastRefreshAt.Some? ==> s.m.lastRefreshAt.value <= s.clock)
    && (forall o | 0 <= o < |s.callers| ::
          var pc := s.callers[o].pc;
          && (pc.Sleeping? ==>
                s.m.lastRefreshAt.Some? && pc.until == s.m.lastRefreshAt.value + Interval(s, pc.since))
          && (pc.Fetching? && s.m.lastRefreshAt.Some? ==>
                s.clock >= s.m.lastRefreshAt.value + Interval(s, pc.since)))
    && (forall i, j | 0 <= i < j < |s.frames| && s.frames[i].refresh && s.frames[j].refresh ::
          s.frames[j].at >= s.frames[i].at
          && s.frames[j].at >= s.frames[i].at + Interval(s, s.frames[j].since))
  }

  ghost predicate Inv(s: System) {
    Claims(s) && FramesOk(s) && Escalations(s) && Spacing(s)
  }

  // ---------------------------------------------------------------- what each segment keeps

  // Settling the claim.
  lemma SettleKeepsInv(s: System, with: Future)
    requires Inv(s) && with != Open
    ensures Inv(s.(m := Settle(s.m, with)))
  {
    var s' := s.(m := Settle(s.m, with));
    SettleOnlySettles(s.m, with);
    SettleClaims(s, s');
    hide Claims, Settle;
    forall o: nat | o < |s.callers| ensures EscalationOk(s', o) {
      assert EscalationOk(s, o);
    }
  }

  ghost predicate SameButSettled(m: Manager, m': Manager) {
    && m' == m.(futures := m'.futures) && |m'.futures| == |m.futures|
    && forall f | 0 <= f < |m.futures| && m.futures[f] != Open :: m'.futures[f] == m.futures[f]
  }

  lemma SettleOnlySettles(m: Manager, with: Future)
    ensures SameButSettled(m, Settle(m, with))
  {
  }

  lemma SettleClaims(s: System, s': System)
    requires Claims(s) && s' == s.(m := s'.m) && SameButSettled(s.m, s'.m)
    ensures Claims(s')
  {
    assert forall o: nat, f: nat :: OwnerOf(s', o, f) <==> OwnerOf(s, o, f);
  }

  // Changes of the token and the failure count, and the passing of time.
  lemma TweakKeepsInv(s: System, token: Option<string>, failures: nat, clock: real)
    requires Inv(s) && s.clock <= clock
    ensures Inv(s.(m := s.m.(token := token, failures := failures), clock := clock))
  {
    var s' := s.(m := s.m.(token := token, failures := failures), clock := clock);
    assert forall o: nat, f: nat :: OwnerOf(s', o, f) <==> OwnerOf(s, o, f);
    forall o: nat | o < |s.callers| ensures EscalationOk(s', o) {
      assert EscalationOk(s, o);
    }
  }

  lemma SpawnKeepsInv(s: System, kind: Kind)
    requires Inv(s)
    ensures Inv(s.(callers := s.callers + [Caller(kind, Ready, 0)]))
  {
    var s' := s.(callers := s.callers + [Caller(kind, Ready, 0)]);
    SpawnClaims(s, kind);
    SpawnFrames(s, kind);
    hide Claims, Spacing;
    forall o: nat | o < |s'.callers| ensures EscalationOk(s', o) {
      if o < |s.callers| {
        assert EscalationOk(s, o);
      }
    }
  }

  lemma SpawnClaims(s: System, kind: Kind)
    requires Claims(s)
    ensures Claims(s.(callers := s.callers + [Caller(kind, Ready, 0)]))
  {
    var s' := s.(callers := s.callers + [Caller(kind, Ready, 0)]);
    assert forall o: nat, f: nat :: OwnerOf(s', o, f) <==> OwnerOf(s, o, f);
  }

  lemma SpawnFrames(s: System, kind: Kind)
    requires FramesOk(s) && Spacing(s)
    ensures FramesOk(s.(callers := s.callers + [Caller(kind, Ready, 0)]))
    ensures Spacing(s.(callers := s.callers + [Caller(kind, Ready, 0)]))
  {
    hide EffectiveInterval;
  }

  // The order of waits and the stuck flag play no part in the invariant.
  lemma TurnsKeepInv(s: System, o: nat, turn: nat, turns: nat, stuck: Option<Stuck>)
    requires Inv(s) && o < |s.callers|
    ensures Inv(s.(callers := s.callers[o := s.callers[o].(turn := turn)], turns := turns, stuck := stuck))
  {
    var s' := s.(callers := s.callers[o := s.callers[o].(turn := turn)], turns := turns, stuck := stuck);
    assert Claims(s') by {
      assert forall x: nat, f: nat :: OwnerOf(s', x, f) <==> OwnerOf(s, x, f);
    }
    assert FramesOk(s') && Spacing(s') by {
      hide EffectiveInterval, Claims, Escalations;
    }
    hide Claims, FramesOk, Spacing;
    forall x: nat | x < |s'.callers| ensures EscalationOk(s', x) {
      assert EscalationOk(s, x);
    }
  }

  lemma AwaitKeepsInv(s: System, o: nat, pc: Pc)
    requires o < |s.callers| && Inv(At(s, o, pc))
    ensures Inv(Await(s, o, pc))
  {
    hide Inv;
    TurnsKeepInv(At(s, o, pc), o, s.turns, s.turns + 1, s.stuck);
    assert Await(s, o, pc)
        == At(s, o, pc).(callers := At(s, o, pc).callers[o := At(s, o, pc).callers[o].(turn := s.turns)],
                         turns := s.turns + 1, stuck := s.stuck);
  }

  // A caller without a claim moves to another point without one.
  lemma WaitKeepsInv(s: System, o: nat, pc: Pc)
    requires Inv(s) && o < |s.callers| && Owned(s.callers[o].pc).None? && Owned(pc).None?
    requires AwaitedBy(pc).Some? ==> AwaitedBy(pc).value < |s.m.futures|
    requires EscalationOk(At(s, o, pc), o)
    ensures Inv(At(s, o, pc))
  {
    var s' := At(s, o, pc);
    WaitClaims(s, o, pc);
    WaitFrames(s, o, pc);
    hide Claims, FramesOk, Spacing, OwnerOf;
    forall x: nat | x < |s'.callers| ensures EscalationOk(s', x) {
      if x != o {
        assert EscalationOk(s, x);
      }
    }
  }

  lemma WaitClaims(s: System, o: nat, pc: Pc)
    requires Claims(s) && o < |s.callers| && Owned(s.callers[o].pc).None? && Owned(pc).None?
    requires AwaitedBy(pc).Some? ==> AwaitedBy(pc).value < |s.m.futures|
    ensures Claims(At(s, o, pc))
  {
    assert forall x: nat, f: nat :: OwnerOf(At(s, o, pc), x, f) <==> OwnerOf(s, x, f);
  }

  lemma WaitFrames(s: System, o: nat, pc: Pc)
    requires FramesOk(s) && Spacing(s) && o < |s.callers| && Owned(s.callers[o].pc).None? && Owned(pc).None?
    ensures FramesOk(At(s, o, pc)) && Spacing(At(s, o, pc))
  {
    hide EffectiveInterval;
  }

  // The owner leaves with its future settled.
  lemma ReleaseKeepsInv(s: System, o: nat, f: nat, result: Result)
    requires Inv(s) && OwnerOf(s, o, f) && Settled(s, f)
    requires EscalationOk(At(s.(m := Release(s.m)), o, Finished(result)), o)
    ensures Inv(At(s.(m := Release(s.m)), o, Finished(result)))
  {
    var s' := At(s.(m := Release(s.m)), o, Finished(result));
    ReleaseClaims(s, o, f, result);
    ReleaseFrames(s, o, result);
    hide Claims, FramesOk, Spacing, OwnerOf;
    forall x: nat | x < |s'.callers| ensures EscalationOk(s', x) {
      if x != o {
        assert EscalationOk(s, x);
      }
    }
  }

  lemma ReleaseClaims(s: System, o: nat, f: nat, result: Result)
    requires Claims(s) && OwnerOf(s, o, f) && Settled(s, f)
    ensures Claims(At(s.(m := Release(s.m)), o, Finished(result)))
  {
    var s' := At(s.(m := Release(s.m)), o, Finished(result));
    forall x: nat, g: nat ensures !OwnerOf(s', x, g) {
      assert OwnerOf(s', x, g) ==> OwnerOf(s, x, g) && x != o;
    }
  }

  lemma ReleaseFrames(s: System, o: nat, result: Result)
    requires FramesOk(s) && Spacing(s) && o < |s.callers|
    ensures FramesOk(At(s.(m := Release(s.m)), o, Finished(result)))
    ensures Spacing(At(s.(m := Release(s.m)), o, Finished(result)))
  {
    hide EffectiveInterval;
  }

  // The owner moves on within its claim, without sending.
  lemma AdvanceKeepsInv(s: System, o: nat, pc: Pc)
    requires Inv(s) && o < |s.callers|
    requires (s.callers[o].pc.Sleeping? && s.callers[o].pc.until <= s.clock
              && pc == Fetching(s.callers[o].pc.f, s.callers[o].pc.since))
             || (s.callers[o].pc.Sending? && pc == Awaiting(s.callers[o].pc.f))
    ensures Inv(At(s, o, pc))
  {
    var s' := At(s, o, pc);
    AdvanceClaims(s, o, pc);
    AdvanceFrames(s, o, pc);
    hide Claims, FramesOk, Spacing, OwnerOf;
    forall x: nat | x < |s'.callers| ensures EscalationOk(s', x) {
      assert EscalationOk(s, x);
    }
  }

  lemma AdvanceClaims(s: System, o: nat, pc: Pc)
    requires Claims(s) && o < |s.callers|
    requires Owned(pc).Some? && Owned(pc) == Owned(s.callers[o].pc)
    ensures Claims(At(s, o, pc))
  {
    assert OwnerOf(s, o, Owned(pc).value);
    assert forall x: nat, g: nat :: OwnerOf(At(s, o, pc), x, g) <==> OwnerOf(s, x, g);
  }

  lemma AdvanceFrames(s: System, o: nat, pc: Pc)
    requires FramesOk(s) && Spacing(s) && o < |s.callers|
    requires Owned(pc).Some? && Owned(pc) == Owned(s.callers[o].pc) && Sent(pc) == Sent(s.callers[o].pc)
    requires pc.Fetching? ==> s.callers[o].pc.Sleeping? && s.callers[o].pc.until <= s.clock
                              && pc.since == s.callers[o].pc.since
    requires !pc.Sleeping?
    ensures FramesOk(At(s, o, pc)) && Spacing(At(s, o, pc))
  {
    hide EffectiveInterval;
  }

  // A caller takes the free slot.
  lemma ClaimKeepsInv(s: System, o: nat, pc: Pc)
    requires Inv(s) && o < |s.callers| && s.m.pending.None? && Owned(s.callers[o].pc).None?
    requires Owned(pc) == Some(|s.m.futures|) && !Sent(pc)
    requires pc.Sleeping? ==>
               s.m.lastRefreshAt.Some? && pc.until == s.m.lastRefreshAt.value + Interval(s, pc.since)
    requires pc.Fetching? && s.m.lastRefreshAt.Some? ==>
               s.clock >= s.m.lastRefreshAt.value + Interval(s, pc.since)
    requires EscalationOk(At(s.(m := Claim(s.m)), o, pc), o)
    ensures Inv(At(s.(m := Claim(s.m)), o, pc))
  {
    var s' := At(s.(m := Claim(s.m)), o, pc);
    ClaimClaims(s, o, pc);
    ClaimFrames(s, o, pc);
    hide Claims, FramesOk, Spacing, OwnerOf;
    forall x: nat | x < |s'.callers| ensures EscalationOk(s', x) {
      if x != o {
        assert EscalationOk(s, x);
      }
    }
  }

  lemma ClaimClaims(s: System, o: nat, pc: Pc)
    requires Claims(s) && o < |s.callers| && s.m.pending.None?
    requires Owned(pc) == Some(|s.m.futures|) && !Sent(pc)
    ensures Claims(At(s.(m := Claim(s.m)), o, pc))
  {
    var s' := At(s.(m := Claim(s.m)), o, pc);
    var mine := |s.m.futures|;
    forall x: nat, g: nat ensures OwnerOf(s', x, g) <==> x == o && g == mine {
      assert !OwnerOf(s, x, g);
    }
    assert OwnerOf(s', o, mine);
  }

  lemma ClaimFrames(s: System, o: nat, pc: Pc)
    requires FramesOk(s) && Spacing(s) && o < |s.callers|
    requires Owned(pc) == Some(|s.m.futures|) && !Sent(pc)
    requires pc.Sleeping? ==>
               s.m.lastRefreshAt.Some? && pc.until == s.m.lastRefreshAt.value + Interval(s, pc.since)
    requires pc.Fetching? && s.m.lastRefreshAt.Some? ==>
               s.clock >= s.m.lastRefreshAt.value + Interval(s, pc.since)
    ensures FramesOk(At(s.(m := Claim(s.m)), o, pc)) && Spacing(At(s.(m := Claim(s.m)), o, pc))
  {
    hide EffectiveInterval;
  }

  // The owner's frame leaves: a refresh after its stamp, an escalation straight after its claim.
  lemma SendKeepsInv(s: System, o: nat, f: nat, token: string, since: nat)
    requires Inv(s) && OwnerOf(s, o, f)
    requires (s.callers[o].kind.Refresh? && s.callers[o].pc == Fetching(f, since))
             || (s.callers[o].kind == Escalate(token) && s.callers[o].pc == Offering(f))
    ensures var s0 := if s.callers[o].kind.Refresh? then Stamped(s, token) else s;
            Inv(SendFrame(s0, o, f, token, since))
  {
    hide EscalationOk, Interval, EffectiveInterval;
    var s0 := if s.callers[o].kind.Refresh? then Stamped(s, token) else s;
    var s' := SendFrame(s0, o, f, token, since);
    SoleOwner(s, o, f);
    hide Claims, FramesOk, Spacing;
    SendClaims(s, s', o, f);
    SendFrames(s, o, f, token, since);
    SendSpacing(s, o, f, token, since);
    hide OwnerOf, Escalations;
    SendEscalations(s, s', o, f);
  }

  lemma SendEscalations(s: System, s': System, o: nat, f: nat)
    requires Escalations(s) && o < |s.callers| && !Sent(s.callers[o].pc)
    requires forall x | 0 <= x < |s.callers| && x != o :: Owned(s.callers[x].pc).None?
    requires s'.m.futures == s.m.futures && s'.callers == s.callers[o := s.callers[o].(pc := Sending(f))]
    requires |s'.frames| == |s.frames| + 1 && s'.frames[..|s.frames|] == s.frames
    requires var frame := s'.frames[|s.frames|];
             && frame.owner == o && frame.f == f && frame.refresh == s.callers[o].kind.Refresh?
             && (s.callers[o].kind.Escalate? ==> frame.token == s.callers[o].kind.jwt)
    requires s.callers[o].kind.Escalate? ==> s.callers[o].pc.Offering?
    ensures Escalations(s')
  {
    hide EscalationOk;
    forall x: nat | x < |s'.callers| ensures EscalationOk(s', x) {
      SendEscalation(s, s', o, f, x);
    }
  }

  lemma SoleOwner(s: System, o: nat, f: nat)
    requires Claims(s) && OwnerOf(s, o, f)
    ensures s.m.pending == Some(f) && f + 1 == |s.m.futures|
    ensures forall x | 0 <= x < |s.callers| && x != o :: Owned(s.callers[x].pc).None?
  {
    forall x | 0 <= x < |s.callers| && x != o ensures Owned(s.callers[x].pc).None? {
      assert Owned(s.callers[x].pc).Some? ==> OwnerOf(s, x, Owned(s.callers[x].pc).value);
    }
  }

  lemma SendClaims(s: System, s': System, o: nat, f: nat)
    requires Claims(s) && OwnerOf(s, o, f)
    requires s'.m.pending == s.m.pending && s'.m.futures == s.m.futures
    requires s'.callers == s.callers[o := s.callers[o].(pc := Sending(f))]
    ensures Claims(s')
  {
    assert forall x: nat, g: nat :: OwnerOf(s', x, g) <==> OwnerOf(s, x, g);
  }

  lemma SendFrames(s: System, o: nat, f: nat, token: string, since: nat)
    requires Claims(s) && FramesOk(s) && OwnerOf(s, o, f) && !Sent(s.callers[o].pc)
    ensures FramesOk(SendFrame(s, o, f, token, since)) && FramesOk(SendFrame(Stamped(s, token), o, f, token, since))
  {
    var s' := SendFrame(s, o, f, token, since);
    SoleOwner(s, o, f);
    assert f < |s.m.futures|;
    hide Claims, OwnerOf;
  }

  lemma SendSpacing(s: System, o: nat, f: nat, token: string, since: nat)
    requires Claims(s) && Spacing(s) && OwnerOf(s, o, f)
    requires (s.callers[o].kind.Refresh? && s.callers[o].pc == Fetching(f, since))
             || (!s.callers[o].kind.Refresh? && s.callers[o].pc == Offering(f))
    ensures var s0 := if s.callers[o].kind.Refresh? then Stamped(s, token) else s;
            Spacing(SendFrame(s0, o, f, token, since))
  {
    hide EffectiveInterval;
    SoleOwner(s, o, f);
    hide Claims, OwnerOf;
  }

  lemma SendEscalation(s: System, s': System, o: nat, f: nat, x: nat)
    requires x < |s.callers| && o < |s.callers| && EscalationOk(s, x) && !Sent(s.callers[o].pc)
    requires s.callers[x].kind.Escalate? && x != o ==> Owned(s.callers[x].pc).None?
    requires s'.m.futures == s.m.futures && s'.callers == s.callers[o := s.callers[o].(pc := Sending(f))]
    requires |s'.frames| == |s.frames| + 1 && s'.frames[..|s.frames|] == s.frames
    requires var frame := s'.frames[|s.frames|];
             && frame.owner == o && frame.f == f && frame.refresh == s.callers[o].kind.Refresh?
             && (s.callers[o].kind.Escalate? ==> frame.token == s.callers[o].kind.jwt)
    requires s.callers[o].kind.Escalate? ==> s.callers[o].pc.Offering?
    ensures EscalationOk(s', x)
  {
    assert forall i | 0 <= i < |s.frames| :: s'.frames[i] == s.frames[i];
    if x != o && s.callers[x].kind.Escalate? && s.callers[x].pc.Finished? && s.callers[x].pc.result.Escalated? {
      var r := s.callers[x].pc.result.future;
      var i :| OnlyFrame(s.frames, x, i, r, s.callers[x].kind.jwt);
      assert OnlyFrame(s'.frames, x, i, r, s.callers[x].kind.jwt);
    }
  }

  // ---------------------------------------------------------------- every move

  // The owner leaves, having settled its future if it fails.
  lemma ExitKeepsInv(s: System, o: nat, f: nat, why: Option<Failure>, result: Result)
    requires Inv(s) && OwnerOf(s, o, f)
    requires why.None? ==> Settled(s, f)
    requires result.Raised?
             || (result.Returned? && s.callers[o].kind.Refresh?)
             || (result == Escalated(f) && why.None? && s.m.futures[f] == Acked && Sent(s.callers[o].pc))
    ensures Inv(Exit(s, o, why, result)) && Settled(Exit(s, o, why, result), f)
  {
    assert EscalationOk(s, o);
    hide EscalationOk, FramesOk, Spacing, Escalations;
    SoleOwner(s, o, f);
    hide Claims, OwnerOf;
    if why.Some? {
      var s1 := s.(m := Settle(s.m, Failed(why.value)));
      SettleKeepsInv(s, Failed(why.value));
      assert OwnerOf(s1, o, f) by { SameOwner(s, s1, o, f); }
      RaisedIsOk(s1, o, result);
      ReleaseKeepsInv(s1, o, f, result);
    } else {
      SuccessIsOk(s, o, f, result);
      ReleaseKeepsInv(s, o, f, result);
    }
  }

  lemma SameOwner(s: System, s': System, o: nat, f: nat)
    requires OwnerOf(s, o, f) && s'.callers == s.callers
    ensures OwnerOf(s', o, f)
  {
  }

  lemma RaisedIsOk(s: System, o: nat, result: Result)
    requires o < |s.callers| && (result.Raised? || (result.Returned? && s.callers[o].kind.Refresh?))
    ensures EscalationOk(At(s.(m := Release(s.m)), o, Finished(result)), o)
  {
  }

  lemma SuccessIsOk(s: System, o: nat, f: nat, result: Result)
    requires o < |s.callers| && Settled(s, f) && EscalationOk(s, o)
    requires result.Raised?
             || (result.Returned? && s.callers[o].kind.Refresh?)
             || (result == Escalated(f) && s.m.futures[f] == Acked && Sent(s.callers[o].pc) && s.callers[o].pc.f == f)
    ensures EscalationOk(At(s.(m := Release(s.m)), o, Finished(result)), o)
  {
  }

  lemma StartSendKeepsInv(s: System, o: nat, f: nat, token: string, since: nat, send: Send)
    requires Inv(s) && OwnerOf(s, o, f)
    requires (s.callers[o].kind.Refresh? && s.callers[o].pc == Fetching(f, since))
             || (s.callers[o].kind == Escalate(token) && s.callers[o].pc == Offering(f))
    ensures var s0 := if s.callers[o].kind.Refresh? then Stamped(s, token) else s;
            Inv(StartSend(s0, o, f, token, since, send))
  {
    match send
    case Starts => SendKeepsInv(s, o, f, token, since);
    case Refuses(why) =>
      ExitKeepsInv(s, o, f, Some(why), Raised(why));
      if s.callers[o].kind.Refresh? {
        StampKeepsInv(Exit(s, o, Some(why), Raised(why)), token);
        StampCommutes(s, o, why, token);
      }
  }

  // Stamping while nobody holds the claim.
  lemma StampKeepsInv(s: System, token: string)
    requires Inv(s) && s.m.pending.None?
    ensures Inv(Stamped(s, token))
  {
    var s' := Stamped(s, token);
    TweakKeepsInv(s, Some(token), s.m.failures, s.clock);
    hide EffectiveInterval;
    assert Claims(s') && Spacing(s') by {
      assert forall o: nat, f: nat :: OwnerOf(s', o, f) <==> OwnerOf(s, o, f);
      forall o: nat | o < |s.callers| ensures Owned(s.callers[o].pc).None? {
        OwnedMeansOwner(s, o);
      }
    }
    hide Claims, Spacing;
    forall o: nat | o < |s'.callers| ensures EscalationOk(s', o) {
      assert EscalationOk(s, o);
    }
  }

  lemma OwnedMeansOwner(s: System, o: nat)
    requires o < |s.callers|
    ensures Owned(s.callers[o].pc).Some? ==> OwnerOf(s, o, Owned(s.callers[o].pc).value)
  {
  }

  lemma StampCommutes(s: System, o: nat, why: Failure, token: string)
    requires o < |s.callers|
    ensures Exit(Stamped(s, token), o, Some(why), Raised(why)) == Stamped(Exit(s, o, Some(why), Raised(why)), token)
  {
  }

  // An escalation at the head of its loop waits again, gives up or spins, or stores, claims and
  // sends at once.
  lemma DrainKeepsInv(s: System, o: nat, jwt: string, send: Send)
    requires Inv(s) && o < |s.callers| && s.callers[o].kind == Escalate(jwt)
    requires s.callers[o].pc.Ready? || s.callers[o].pc.Draining?
    ensures Inv(Drain(s, o, jwt, send))
  {
    hide Inv;
    if s.m.pending.None? {
      ClaimEscalationKeepsInv(s, o, jwt, send);
    } else {
      var f := s.m.pending.value;
      DrainingKeepsInv(s, o, f);
      if !Settled(s, f) {
        AwaitKeepsInv(s, o, Draining(f));
      } else if TriesAgain(s.m.futures[f]) {
        var s1 := At(s, o, Draining(f));
        TurnsKeepInv(s1, o, s1.callers[o].turn, s1.turns, Some(Stuck(o, f)));
        assert s1.callers[o := s1.callers[o].(turn := s1.callers[o].turn)] == s1.callers;
      } else {
        GiveUpKeepsInv(s, o, jwt, s.m.futures[f].why);
      }
    }
  }

  lemma DrainingKeepsInv(s: System, o: nat, f: nat)
    requires Inv(s) && o < |s.callers| && s.callers[o].kind.Escalate? && s.m.pending == Some(f)
    requires s.callers[o].pc.Ready? || s.callers[o].pc.Draining?
    ensures Inv(At(s, o, Draining(f)))
  {
    assert EscalationOk(s, o);
    assert f < |s.m.futures|;
    assert NoFrameOf(s.frames, o);
    hide Inv, NoFrameOf;
    WaitKeepsInv(s, o, Draining(f));
  }

  lemma ClaimEscalationKeepsInv(s: System, o: nat, jwt: string, send: Send)
    requires Inv(s) && o < |s.callers| && s.callers[o].kind == Escalate(jwt) && s.m.pending.None?
    requires s.callers[o].pc.Ready? || s.callers[o].pc.Draining?
    ensures Inv(ClaimEscalation(s, o, jwt, send))
  {
    assert EscalationOk(s, o);
    assert NoFrameOf(s.frames, o);
    hide Inv, NoFrameOf;
    var f := |s.m.futures|;
    var stored := s.(m := Store(s.m, jwt));
    TweakKeepsInv(s, Some(jwt), s.m.failures, s.clock);
    assert stored.m == s.m.(token := Some(jwt), failures := s.m.failures) && stored.clock == s.clock;
    ClaimKeepsInv(stored, o, Offering(f));
    var claimed := At(s.(m := Claim(Store(s.m, jwt))), o, Offering(f));
    assert claimed == At(stored.(m := Claim(stored.m)), o, Offering(f));
    StartSendKeepsInv(claimed, o, f, jwt, 0, send);
  }

  // An escalation that has sent nothing stores its token and is deferred, or gives up.
  lemma DeferKeepsInv(s: System, o: nat, jwt: string)
    requires Inv(s) && o < |s.callers| && s.callers[o].kind == Escalate(jwt)
    requires s.callers[o].pc.Ready? || s.callers[o].pc.Draining?
    ensures Inv(At(s.(m := Store(s.m, jwt)), o, Finished(Deferred)))
  {
    assert EscalationOk(s, o);
    assert NoFrameOf(s.frames, o);
    hide Inv, NoFrameOf;
    TweakKeepsInv(s, Some(jwt), s.m.failures, s.clock);
    WaitKeepsInv(s.(m := Store(s.m, jwt)), o, Finished(Deferred));
  }

  lemma GiveUpKeepsInv(s: System, o: nat, jwt: string, why: Failure)
    requires Inv(s) && o < |s.callers| && s.callers[o].kind == Escalate(jwt)
    requires s.callers[o].pc.Ready? || s.callers[o].pc.Draining?
    ensures Inv(GiveUp(s, o, jwt, why))
  {
    hide Inv;
    if why == NotConnected {
      DeferKeepsInv(s, o, jwt);
    } else {
      WaitKeepsInv(s, o, Finished(Raised(why)));
    }
  }

  lemma BeginRefreshKeepsInv(s: System, o: nat)
    requires Inv(s) && o < |s.callers| && s.callers[o].kind == Refresh && s.callers[o].pc == Ready
    ensures s.m.pending.Some? ==> Inv(Coalesce(s, o, s.m.pending.value))
    ensures s.m.pending.None? ==> Inv(ClaimRefresh(s, o))
  {
    if s.m.pending.Some? {
      var f := s.m.pending.value;
      assert f < |s.m.futures|;
      hide Inv;
      if Settled(s, f) {
        WaitKeepsInv(s, o, Finished(ResultOf(s.m.futures[f])));
      } else {
        WaitKeepsInv(s, o, Coalesced(f));
        AwaitKeepsInv(s, o, Coalesced(f));
      }
    } else {
      hide Claims, FramesOk, Escalations;
      var f, earliest := |s.m.futures|, Earliest(s.m, s.clock);
      ClaimKeepsInv(s, o, if s.clock < earliest then Sleeping(f, earliest, s.m.failures)
                          else Fetching(f, s.m.failures));
    }
  }

  lemma BeginKeepsInv(s: System, o: nat, connected: bool, send: Send)
    requires Inv(s)
    ensures Inv(Next(s, Begin(o, connected, send)))
  {
    hide Inv, ClaimRefresh, Drain, Coalesce;
    if s.stuck.None? && o < |s.callers| && s.callers[o].pc == Ready {
      match s.callers[o].kind
      case Refresh => BeginRefreshKeepsInv(s, o);
      case Escalate(jwt) =>
        if connected {
          DrainKeepsInv(s, o, jwt, send);
        } else {
          DeferKeepsInv(s, o, jwt);
        }
    }
  }

  lemma FetchedKeepsInv(s: System, o: nat, token: string, send: Send)
    requires Inv(s)
    ensures Inv(Next(s, Fetched(o, token, send)))
  {
    if s.stuck.None? && o < |s.callers| && s.callers[o].pc.Fetching? {
      var pc := s.callers[o].pc;
      assert s.callers[o].kind.Refresh? by { assert EscalationOk(s, o); }
      assert OwnerOf(s, o, pc.f);
      hide Inv, OwnerOf;
      var resolved := if s.m.fetches then Some(token) else s.m.token;
      if resolved.None? {
        ExitKeepsInv(s, o, pc.f, Some(Rejected), Raised(Rejected));
      } else {
        StartSendKeepsInv(s, o, pc.f, resolved.value, pc.since, send);
      }
    }
  }

  lemma LeaveOnKeepsInv(s: System, o: nat, f: nat)
    requires Inv(s) && OwnerOf(s, o, f) && Sent(s.callers[o].pc) && Settled(s, f)
    ensures Inv(LeaveOn(s, o, f))
  {
    hide Inv, OwnerOf, Exit;
    var outcome := s.m.futures[f];
    assert o < |s.callers| by { OwnerBound(s, o, f); }
    if outcome.Acked? {
      ExitKeepsInv(s, o, f, None, if s.callers[o].kind.Refresh? then Returned else Escalated(f));
    } else {
      ExitKeepsInv(s, o, f, Some(outcome.why), Raised(outcome.why));
    }
  }

  lemma OwnerBound(s: System, o: nat, f: nat)
    requires OwnerOf(s, o, f)
    ensures o < |s.callers|
  {
  }

  lemma AfterSendKeepsInv(s: System, o: nat)
    requires Inv(s) && o < |s.callers| && s.callers[o].pc.Sending?
    ensures Inv(AfterSend(s, o, s.callers[o].pc.f))
  {
    var f := s.callers[o].pc.f;
    OwnedMeansOwner(s, o);
    hide Inv, OwnerOf, LeaveOn;
    if Settled(s, f) {
      LeaveOnKeepsInv(s, o, f);
    } else {
      AdvanceKeepsInv(s, o, Awaiting(f));
      AwaitKeepsInv(s, o, Awaiting(f));
    }
  }

  lemma WakeDrainKeepsInv(s: System, o: nat, send: Send)
    requires Inv(s) && o < |s.callers| && s.callers[o].pc.Draining?
    ensures Inv(WakeOn(s, o, send))
  {
    var caller := s.callers[o];
    hide Inv, Drain, GiveUp, MayWake;
    if Settled(s, caller.pc.f) && MayWake(s, o) && caller.kind.Escalate? {
      var outcome := s.m.futures[caller.pc.f];
      if TriesAgain(outcome) {
        DrainKeepsInv(s, o, caller.kind.jwt, send);
      } else {
        GiveUpKeepsInv(s, o, caller.kind.jwt, outcome.why);
      }
    }
  }

  lemma WakeKeepsInv(s: System, o: nat, send: Send)
    requires Inv(s) && o < |s.callers|
    ensures Inv(WakeOn(s, o, send))
  {
    var pc := s.callers[o].pc;
    OwnedMeansOwner(s, o);
    hide Inv, OwnerOf;
    if pc.Draining? {
      hide WakeOn;
      WakeDrainKeepsInv(s, o, send);
    } else if pc.Awaiting? && Settled(s, pc.f) {
      hide LeaveOn, MayWake;
      LeaveOnKeepsInv(s, o, pc.f);
    } else if pc.Coalesced? && Settled(s, pc.f) {
      hide MayWake;
      NoEscalationCoalesces(s, o);
      WaitKeepsInv(s, o, Finished(ResultOf(s.m.futures[pc.f])));
    }
  }

  lemma NoEscalationCoalesces(s: System, o: nat)
    requires Inv(s) && o < |s.callers| && s.callers[o].pc.Coalesced?
    ensures s.callers[o].kind.Refresh?
  {
    assert EscalationOk(s, o);
  }

  lemma CancelKeepsInv(s: System, o: nat)
    requires Inv(s) && o < |s.callers|
    ensures Inv(CancelCaller(s, o))
  {
    var pc := s.callers[o].pc;
    var awaited := AwaitedBy(pc);
    OwnedMeansOwner(s, o);
    hide Inv, OwnerOf, MayWake, Exit, Settle;
    if awaited.Some? && !Settled(s, awaited.value) && s.m.pending == awaited {
      SettleKeepsInv(s, Failed(Cancelled));
    } else if Owned(pc).Some? {
      ExitKeepsInv(s, o, Owned(pc).value, Some(Cancelled), Raised(Cancelled));
    } else if !pc.Finished? {
      WaitKeepsInv(s, o, Finished(Raised(Cancelled)));
    }
  }

  lemma FailKeepsInv(s: System, o: nat, why: Failure)
    requires Inv(s)
    requires o < |s.callers| && (s.callers[o].pc.Fetching? || s.callers[o].pc.Sending?)
    ensures Inv(Exit(s, o, Some(why), Raised(why)))
  {
    assert OwnerOf(s, o, s.callers[o].pc.f);
    hide Inv, OwnerOf, Exit;
    ExitKeepsInv(s, o, s.callers[o].pc.f, Some(why), Raised(why));
  }

  lemma NextKeepsInv(s: System, move: Move)
    requires Inv(s)
    ensures Inv(Next(s, move))
  {
    hide Inv, WakeOn, CancelCaller, StartSend, Exit, AfterSend;
    if s.stuck.None? {
      match move
      case Tick(now) => if s.clock <= now { TweakKeepsInv(s, s.m.token, s.m.failures, now); }
      case Spawn(kind) => SpawnKeepsInv(s, kind);
      case Begin(o, connected, send) => BeginKeepsInv(s, o, connected, send);
      case WakeFromSleep(o) =>
        if o < |s.callers| && s.callers[o].pc.Sleeping? && s.callers[o].pc.until <= s.clock {
          AdvanceKeepsInv(s, o, Fetching(s.callers[o].pc.f, s.callers[o].pc.since));
        }
      case Fetched(o, token, send) => FetchedKeepsInv(s, o, token, send);
      case FetchFailed(o, why) =>
        if o < |s.callers| && s.callers[o].pc.Fetching? { FailKeepsInv(s, o, why); }
      case SendDone(o) => if o < |s.callers| && s.callers[o].pc.Sending? { AfterSendKeepsInv(s, o); }
      case SendFailed(o, why) =>
        if o < |s.callers| && s.callers[o].pc.Sending? { FailKeepsInv(s, o, why); }
      case WakeOnFuture(o, send) => if o < |s.callers| { WakeKeepsInv(s, o, send); }
      case Cancel(o) => if o < |s.callers| { CancelKeepsInv(s, o); }
      case _ => HookKeepsInv(s, move);
    }
  }

  lemma HookKeepsInv(s: System, move: Move)
    requires Inv(s) && s.stuck.None?
    requires move.AckArrives? || move.ErrorArrives? || move.Close? || move.UpdateToken?
    ensures Inv(Next(s, move))
  {
    hide Inv;
    match move
    case AckArrives =>
      TweakKeepsInv(s, s.m.token, 0, s.clock);
      SettleKeepsInv(s.(m := s.m.(failures := 0)), Acked);
    case ErrorArrives =>
      TweakKeepsInv(s, s.m.token, s.m.failures + 1, s.clock);
      SettleKeepsInv(s.(m := s.m.(failures := s.m.failures + 1)), Failed(Rejected));
    case Close => SettleKeepsInv(s, Failed(NotConnected));
    case UpdateToken(token) => TweakKeepsInv(s, Some(token), s.m.failures, s.clock);
  }

  // Every state of every interleaving satisfies the invariant.
  lemma {:induction false} Reachable(
      token: Option<string>, fetches: bool, minInterval: real, clock: real, moves: seq<Move>)
    ensures var s := NextAll(Start(token, fetches, minInterval, clock), moves);
            Inv(s) && s.m.minInterval == minInterval
  {
    var start := Start(token, fetches, minInterval, clock);
    if moves == [] {
      assert forall o: nat, f: nat :: !OwnerOf(start, o, f);
    } else {
      hide Inv, Next, Start;
      var before := NextAll(start, moves[..|moves| - 1]);
      Reachable(token, fetches, minInterval, clock, moves[..|moves| - 1]);
      NextKeepsInv(before, moves[|moves| - 1]);
      NextKeepsInterval(before, moves[|moves| - 1]);
    }
  }

  lemma NextKeepsInterval(s: System, move: Move)
    ensures Next(s, move).m.minInterval == s.m.minInterval
  {
    hide Earliest;
  }

  // ---------------------------------------------------------------- single flight

  // In every interleaving: the slot is taken exactly while some caller is between its claim and
  // its release, and that caller is the only one; every future that is no longer claimed is
  // settled, so nobody is left waiting for one; and each claim has sent at most one frame.
  lemma SingleFlight(token: Option<string>, fetches: bool, minInterval: real, clock: real, moves: seq<Move>)
    ensures var s := NextAll(Start(token, fetches, minInterval, clock), moves);
            && (s.m.pending.Some? <==> exists o: nat, f: nat :: OwnerOf(s, o, f))
            && (forall o: nat, o': nat, f: nat, f': nat | OwnerOf(s, o, f) && OwnerOf(s, o', f') ::
                  o == o' && f == f' && s.m.pending == Some(f))
            && (forall o: nat | o < |s.callers| && AwaitedBy(s.callers[o].pc).Some? ::
                  var f := AwaitedBy(s.callers[o].pc).value;
                  Settled(s, f) || s.m.pending == Some(f))
            && (forall i, j | 0 <= i < |s.frames| && 0 <= j < |s.frames| && s.frames[i].f == s.frames[j].f :: i == j)
  {
    Reachable(token, fetches, minInterval, clock, moves);
    hide NextAll, Start, Escalations, Spacing;
  }

  // The claim of `f` ended with its owner, and with nobody else, at a settled future.
  ghost predicate ReleasedByOwner(s: System, s': System, o: nat, f: nat) {
    && OwnerOf(s, o, f) && |s'.callers| == |s.callers|
    && s'.callers[o].pc.Finished? && (forall x: nat | x < |s.callers| && x != o :: s'.callers[x] == s.callers[x])
    && s'.m.pending.None? && Settled(s', f)
  }

  lemma ExitReleases(s: System, o: nat, f: nat, why: Option<Failure>, result: Result)
    requires Claims(s) && OwnerOf(s, o, f) && (why.None? ==> Settled(s, f))
    ensures ReleasedByOwner(s, Exit(s, o, why, result), o, f)
  {
    SoleOwner(s, o, f);
    hide Claims;
  }

  // Whichever move ends a claim is a move of its owner, which leaves with its future settled: no
  // caller, hook or teardown clears the claim of another.
  lemma ClaimEndsOnlyWithItsOwner(s: System, move: Move, f: nat)
    requires Inv(s) && s.m.pending == Some(f) && Next(s, move).m.pending != Some(f)
    ensures exists o: nat :: ReleasedByOwner(s, Next(s, move), o, f)
  {
    var s' := Next(s, move);
    var o :| OwnerOf(s, o, f);
    OnlyOwnersRelease(s, move, o, f);
  }

  lemma OnlyOwnersRelease(s: System, move: Move, o: nat, f: nat)
    requires Claims(s) && OwnerOf(s, o, f) && s.m.pending == Some(f)
    ensures Next(s, move).m.pending == Some(f) || ReleasedByOwner(s, Next(s, move), o, f)
  {
    SoleOwner(s, o, f);
    assert forall x: nat, g: nat | OwnerOf(s, x, g) :: x == o && g == f;
    hide Claims, ReleasedByOwner, ClaimRefresh, ClaimEscalation, LeaveOn;
    if s.stuck.Some? {
      return;
    }
    match move
    case Fetched(x, token, send) => FetchedReleases(s, x, token, send, o, f);
    case FetchFailed(x, why) =>
      if x < |s.callers| && s.callers[x].pc.Fetching? {
        OwnedMeansOwner(s, x);
        ExitReleases(s, x, f, Some(why), Raised(why));
      }
    case SendFailed(x, why) =>
      if x < |s.callers| && s.callers[x].pc.Sending? {
        OwnedMeansOwner(s, x);
        ExitReleases(s, x, f, Some(why), Raised(why));
      }
    case SendDone(x) =>
      if x < |s.callers| && s.callers[x].pc.Sending? && Settled(s, s.callers[x].pc.f) {
        OwnedMeansOwner(s, x);
        LeaveOnReleases(s, x, f);
      }
    case WakeOnFuture(x, send) => WakeReleases(s, x, send, o, f);
    case Cancel(x) => CancelReleases(s, x, o, f);
    case _ =>
  }

  lemma FetchedReleases(s: System, x: nat, token: string, send: Send, o: nat, f: nat)
    requires Claims(s) && OwnerOf(s, o, f) && s.m.pending == Some(f)
    ensures var s' := Next(s, Fetched(x, token, send));
            s'.m.pending == Some(f) || ReleasedByOwner(s, s', o, f)
  {
    if x < |s.callers| && s.callers[x].pc.Fetching? {
      OwnedMeansOwner(s, x);
      assert x == o && s.callers[x].pc.f == f;
      ExitReleases(s, o, f, Some(Rejected), Raised(Rejected));
      var resolved := if s.m.fetches then Some(token) else s.m.token;
      if resolved.Some? && send.Refuses? {
        ExitReleases(s, o, f, Some(send.why), Raised(send.why));
        StampCommutes(s, o, send.why, resolved.value);
        hide Claims;
      }
    }
  }

  lemma LeaveOnReleases(s: System, o: nat, f: nat)
    requires Claims(s) && OwnerOf(s, o, f) && Settled(s, f)
    ensures ReleasedByOwner(s, LeaveOn(s, o, f), o, f)
  {
    var outcome := s.m.futures[f];
    OwnerBound(s, o, f);
    hide Claims, ReleasedByOwner, Exit, OwnerOf;
    if outcome.Acked? {
      ExitReleases(s, o, f, None, if s.callers[o].kind.Refresh? then Returned else Escalated(f));
    } else {
      ExitReleases(s, o, f, Some(outcome.why), Raised(outcome.why));
    }
  }

  lemma WakeReleases(s: System, x: nat, send: Send, o: nat, f: nat)
    requires Claims(s) && OwnerOf(s, o, f) && s.m.pending == Some(f)
    ensures var s' := Next(s, WakeOnFuture(x, send));
            s'.m.pending == Some(f) || ReleasedByOwner(s, s', o, f)
  {
    if x < |s.callers| && s.callers[x].pc.Awaiting? && Settled(s, s.callers[x].pc.f) {
      OwnedMeansOwner(s, x);
      assert x == o && s.callers[x].pc.f == f;
      hide Claims, ReleasedByOwner, LeaveOn;
      LeaveOnReleases(s, o, f);
    }
  }

  lemma CancelReleases(s: System, x: nat, o: nat, f: nat)
    requires Claims(s) && OwnerOf(s, o, f) && s.m.pending == Some(f)
    ensures var s' := Next(s, Cancel(x));
            s'.m.pending == Some(f) || ReleasedByOwner(s, s', o, f)
  {
    if x < |s.callers| && Owned(s.callers[x].pc).Some? {
      OwnedMeansOwner(s, x);
      assert x == o;
      ExitReleases(s, o, f, Some(Cancelled), Raised(Cancelled));
      hide ReleasedByOwner, Claims;
    }
  }

  // A settled future never changes again, and only an ack settles one as acknowledged.
  lemma FuturesAreFinal(s: System, move: Move, f: nat)
    requires f < |s.m.futures|
    ensures var s' := Next(s, move);
            && f < |s'.m.futures|
            && (s.m.futures[f] != Open ==> s'.m.futures[f] == s.m.futures[f])
            && (s.m.futures[f] == Open && s'.m.futures[f] == Acked ==>
                  move == AckArrives && s.m.pending == Some(f))
  {
    hide Earliest, WakeOn, CancelCaller, StartSend, ClaimEscalation;
    match move
    case Begin(o, _, send) =>
      if o < |s.callers| && s.callers[o].kind.Escalate? {
        ClaimFinal(s, o, s.callers[o].kind.jwt, send, f);
      }
    case Fetched(o, token, send) =>
      if o < |s.callers| && s.callers[o].pc.Fetching? {
        var resolved := if s.m.fetches then Some(token) else s.m.token;
        if resolved.Some? {
          SendFinal(Stamped(s, resolved.value), o, s.callers[o].pc.f, resolved.value, s.callers[o].pc.since, send, f);
        }
      }
    case WakeOnFuture(o, send) => if o < |s.callers| { WakeFinal(s, o, send, f); }
    case Cancel(o) => if o < |s.callers| { CancelFinal(s, o, f); }
    case _ =>
  }

  ghost predicate Final(s: System, s': System, f: nat) {
    f < |s.m.futures| && f < |s'.m.futures|
    && (s.m.futures[f] != Open ==> s'.m.futures[f] == s.m.futures[f])
    && (s.m.futures[f] == Open ==> s'.m.futures[f] != Acked)
  }

  lemma SendFinal(s: System, o: nat, g: nat, token: string, since: nat, send: Send, f: nat)
    requires o < |s.callers| && f < |s.m.futures|
    ensures Final(s, StartSend(s, o, g, token, since, send), f)
  {
  }

  lemma ClaimFinal(s: System, o: nat, jwt: string, send: Send, f: nat)
    requires o < |s.callers| && f < |s.m.futures|
    ensures Final(s, ClaimEscalation(s, o, jwt, send), f)
  {
    hide StartSend;
    var claimed := At(s.(m := Claim(Store(s.m, jwt))), o, Offering(|s.m.futures|));
    SendFinal(claimed, o, |s.m.futures|, jwt, 0, send, f);
  }

  lemma WakeFinal(s: System, o: nat, send: Send, f: nat)
    requires o < |s.callers| && f < |s.m.futures|
    ensures Final(s, WakeOn(s, o, send), f)
  {
    hide ClaimEscalation;
    if s.callers[o].kind.Escalate? {
      ClaimFinal(s, o, s.callers[o].kind.jwt, send, f);
    }
  }

  lemma CancelFinal(s: System, o: nat, f: nat)
    requires o < |s.callers| && f < |s.m.futures|
    ensures Final(s, CancelCaller(s, o), f)
  {
  }

  // ---------------------------------------------------------------- escalation

  // An escalation never rides on another caller's claim. If it returns True it sent exactly one
  // frame, for its own claim and with its own token, and its own future was acknowledged; if it
  // returns False it sent nothing.
  lemma EscalationIsNeverCoalesced(
      token: Option<string>, fetches: bool, minInterval: real, clock: real, moves: seq<Move>, o: nat)
    requires var s := NextAll(Start(token, fetches, minInterval, clock), moves);
             o < |s.callers| && s.callers[o].kind.Escalate?
    ensures var s := NextAll(Start(token, fetches, minInterval, clock), moves);
            var pc := s.callers[o].pc;
            && !pc.Coalesced? && !pc.Sleeping? && !pc.Fetching?
            && (pc.Finished? && pc.result.Escalated? ==>
                  && pc.result.future < |s.m.futures| && s.m.futures[pc.result.future] == Acked
                  && exists i :: OnlyFrame(s.frames, o, i, pc.result.future, s.callers[o].kind.jwt))
            && (pc.Finished? && pc.result.Deferred? ==> NoFrameOf(s.frames, o))
  {
    var s := NextAll(Start(token, fetches, minInterval, clock), moves);
    Reachable(token, fetches, minInterval, clock, moves);
    hide NextAll, Start, Claims, FramesOk, Spacing;
    assert EscalationOk(s, o);
  }

  // Escalation `o` has just returned False only with its own token stored.
  ghost predicate DefersStored(s: System, s': System, o: nat)
    requires o < |s.callers|
  {
    && o < |s'.callers| && s'.callers[o].kind == s.callers[o].kind
    && (s.callers[o].pc != Finished(Deferred) && s'.callers[o].pc == Finished(Deferred) ==>
          s.callers[o].kind.Escalate? && s'.m.token == Some(s.callers[o].kind.jwt))
  }

  lemma DrainDefers(s: System, x: nat, jwt: string, send: Send, o: nat)
    requires x < |s.callers| && o < |s.callers| && s.callers[x].kind == Escalate(jwt)
    ensures DefersStored(s, Drain(s, x, jwt, send), o)
  {
    hide Settle;
  }

  lemma GiveUpDefers(s: System, x: nat, jwt: string, why: Failure, o: nat)
    requires x < |s.callers| && o < |s.callers| && s.callers[x].kind == Escalate(jwt)
    ensures DefersStored(s, GiveUp(s, x, jwt, why), o)
  {
  }

  // At the moment it returns False, the stored token is the escalation's.
  lemma DeferredEscalationIsStored(s: System, move: Move, o: nat)
    requires o < |s.callers| && s.callers[o].kind.Escalate?
    requires s.callers[o].pc != Finished(Deferred)
    ensures var s' := Next(s, move);
            && o < |s'.callers| && s'.callers[o].kind == s.callers[o].kind
            && (s'.callers[o].pc == Finished(Deferred) ==> s'.m.token == Some(s.callers[o].kind.jwt))
  {
    hide Earliest, Settle, Drain, GiveUp, MayWake;
    if move.Begin? && move.o < |s.callers| && s.callers[move.o].kind.Escalate? {
      DrainDefers(s, move.o, s.callers[move.o].kind.jwt, move.send, o);
    } else if move.WakeOnFuture? && move.o < |s.callers| && s.callers[move.o].kind.Escalate? {
      var x := move.o;
      DrainDefers(s, x, s.callers[x].kind.jwt, move.send, o);
      var awaited := AwaitedBy(s.callers[x].pc);
      if awaited.Some? && Settled(s, awaited.value) && s.m.futures[awaited.value].Failed? {
        GiveUpDefers(s, x, s.callers[x].kind.jwt, s.m.futures[awaited.value].why, o);
      }
    }
  }

  // A call of escalate without a connection, and one that waits for a refresh which a close cuts
  // off, returns False with its token stored and leaves the slot, the futures and the wire alone.
  lemma OfflineEscalationDefers(s: System, o: nat, send: Send)
    requires s.stuck.None? && o < |s.callers| && s.callers[o].kind.Escalate?
    requires var pc := s.callers[o].pc;
             || pc == Ready
             || (pc.Draining? && pc.f < |s.m.futures| && s.m.futures[pc.f] == Failed(NotConnected) && MayWake(s, o))
    ensures var s' := Next(s, if s.callers[o].pc == Ready then Begin(o, false, send) else WakeOnFuture(o, send));
            && o < |s'.callers| && s'.callers[o].pc == Finished(Deferred)
            && s'.m == s.m.(token := Some(s.callers[o].kind.jwt)) && s'.frames == s.frames && s'.stuck.None?
  {
    hide MayWake;
  }

  // An escalation that finds the slot free, at a connected call or when the refresh it waited for was
  // acknowledged or rejected, claims it, stores its token and sends it, all in the same segment.
  lemma FreeSlotEscalatesAtOnce(s: System, o: nat)
    requires s.stuck.None? && o < |s.callers| && s.callers[o].kind.Escalate? && s.m.pending.None?
    requires var pc := s.callers[o].pc;
             || pc == Ready
             || (pc.Draining? && pc.f < |s.m.futures| && MayWake(s, o)
                 && (s.m.futures[pc.f] == Acked || s.m.futures[pc.f] == Failed(Rejected)))
    ensures var s' := Next(s, if s.callers[o].pc == Ready then Begin(o, true, Starts) else WakeOnFuture(o, Starts));
            var (f, jwt) := (|s.m.futures|, s.callers[o].kind.jwt);
            && o < |s'.callers| && s'.callers[o].pc == Sending(f) && s'.m.pending == Some(f)
            && s'.m.futures == s.m.futures + [Open] && s'.m.token == Some(jwt)
            && s'.frames == s.frames + [Frame(f, o, jwt, s.clock, false, 0)]
  {
    hide MayWake;
  }

  // What makes an escalation that holds no claim raise: its own cancellation, its own send being
  // refused, or a future that ended in a cancellation or an exception foreign to the library. So
  // neither a rejected refresh nor one cut off by a close ever aborts it.
  lemma RejectedRefreshNeverAborts(s: System, move: Move, o: nat, why: Failure)
    requires Inv(s) && o < |s.callers| && s.callers[o].kind.Escalate?
    requires !s.callers[o].pc.Finished? && Owned(s.callers[o].pc).None?
    requires Next(s, move).callers[o].pc == Finished(Raised(why))
    ensures || (move == Cancel(o) && why == Cancelled)
            || ((move == Begin(o, true, Refuses(why)) || move == WakeOnFuture(o, Refuses(why))) && s.m.pending.None?)
            || ((why == Cancelled || why == Foreign)
                && exists f: nat :: f < |s.m.futures| && s.m.futures[f] == Failed(why)
                     && (AwaitedBy(s.callers[o].pc) == Some(f) || s.m.pending == Some(f)))
  {
    assert EscalationOk(s, o);
    hide Inv, EscalationOk, Next;
    OnlyItsMovesFinish(s, move, o);
    if move.Begin? {
      BeginRaises(s, o, move.connected, move.send, why);
    } else if move.WakeOnFuture? {
      WakeRaises(s, o, move.send, why);
    } else {
      CancelRaises(s, o);
    }
  }

  // An escalation that holds no claim is finished by its own moves only.
  lemma OnlyItsMovesFinish(s: System, move: Move, o: nat)
    requires o < |s.callers| && !s.callers[o].pc.Finished? && Owned(s.callers[o].pc).None?
    requires Next(s, move).callers[o].pc.Finished?
    ensures (move.Begin? || move.WakeOnFuture? || move.Cancel?) && move.o == o
  {
    hide Earliest, Settle, Drain, MayWake, GiveUp;
    if (move.Begin? || move.WakeOnFuture?) && move.o < |s.callers| && move.o != o && s.callers[move.o].kind.Escalate? {
      LeavesOthers(s, move.o, s.callers[move.o].kind.jwt, move.send, o);
    }
  }

  lemma LeavesOthers(s: System, x: nat, jwt: string, send: Send, o: nat)
    requires x < |s.callers| && o < |s.callers| && x != o
    ensures Drain(s, x, jwt, send).callers[o] == s.callers[o]
    ensures forall why :: GiveUp(s, x, jwt, why).callers[o] == s.callers[o]
  {
    hide Settle;
  }

  lemma BeginRaises(s: System, o: nat, connected: bool, send: Send, why: Failure)
    requires o < |s.callers| && s.callers[o].kind.Escalate? && !s.callers[o].pc.Finished?
    requires Next(s, Begin(o, connected, send)).callers[o].pc == Finished(Raised(why))
    ensures || (connected && send == Refuses(why) && s.m.pending.None?)
            || ((why == Cancelled || why == Foreign) && s.m.pending.Some?
                && s.m.pending.value < |s.m.futures| && s.m.futures[s.m.pending.value] == Failed(why))
  {
    hide Drain;
    DrainRaises(s, o, s.callers[o].kind.jwt, send, why);
  }

  lemma WakeRaises(s: System, o: nat, send: Send, why: Failure)
    requires o < |s.callers| && EscalationOk(s, o) && s.callers[o].kind.Escalate?
    requires !s.callers[o].pc.Finished? && Owned(s.callers[o].pc).None?
    requires Next(s, WakeOnFuture(o, send)).callers[o].pc == Finished(Raised(why))
    ensures || (send == Refuses(why) && s.m.pending.None?)
            || ((why == Cancelled || why == Foreign)
                && exists f: nat :: f < |s.m.futures| && s.m.futures[f] == Failed(why)
                     && (AwaitedBy(s.callers[o].pc) == Some(f) || s.m.pending == Some(f)))
  {
    hide Drain, MayWake;
    assert s.callers[o].pc.Draining?;
    DrainRaises(s, o, s.callers[o].kind.jwt, send, why);
    var f := s.callers[o].pc.f;
    if !TriesAgain(s.m.futures[f]) {
      assert s.m.futures[f] == Failed(why) && AwaitedBy(s.callers[o].pc) == Some(f);
    }
  }

  lemma CancelRaises(s: System, o: nat)
    requires o < |s.callers| && !s.callers[o].pc.Finished? && Next(s, Cancel(o)).callers[o].pc.Finished?
    ensures Next(s, Cancel(o)).callers[o].pc == Finished(Raised(Cancelled))
  {
    hide Settle, MayWake;
  }

  // When the head of the loop raises.
  lemma DrainRaises(s: System, o: nat, jwt: string, send: Send, why: Failure)
    requires o < |s.callers| && !s.callers[o].pc.Finished?
    ensures Drain(s, o, jwt, send).callers[o].pc == Finished(Raised(why)) ==>
              || (send == Refuses(why) && s.m.pending.None?)
              || ((why == Cancelled || why == Foreign) && s.m.pending.Some?
                  && s.m.pending.value < |s.m.futures| && s.m.futures[s.m.pending.value] == Failed(why))
  {
    hide Settle;
  }

  // ---------------------------------------------------------------- what callers come to know

  // The tokens a refresh sends: the fetched one with get_token, the stored one without, and with
  // neither the refresh fails, its claim with it, and nothing is sent.
  lemma RefreshSendsTheRightToken(s: System, o: nat, fetched: string)
    requires Inv(s) && s.stuck.None? && o < |s.callers| && s.callers[o].pc.Fetching?
    ensures var s' := Next(s, Fetched(o, fetched, Starts));
            var f := s.callers[o].pc.f;
            && (s.m.fetches || s.m.token.Some? ==>
                  && |s'.frames| == |s.frames| + 1 && s'.frames[|s.frames|].f == f
                  && s'.frames[|s.frames|].token == (if s.m.fetches then fetched else s.m.token.value)
                  && s'.m.pending == s.m.pending)
            && (!s.m.fetches && s.m.token.None? ==>
                  && s'.frames == s.frames && s'.m.pending.None? && s'.m.lastRefreshAt == s.m.lastRefreshAt
                  && s'.callers[o].pc == Finished(Raised(Rejected)))
  {
    hide Inv;
  }

  // A token handed over in time is the one that a refresh without get_token sends.
  lemma UpdatedTokenIsSent(s: System, o: nat, token: string, other: string)
    requires Inv(s) && s.stuck.None? && o < |s.callers| && s.callers[o].pc.Fetching? && !s.m.fetches
    ensures var s' := Next(Next(s, UpdateToken(token)), Fetched(o, other, Starts));
            && |s'.frames| == |s.frames| + 1 && s'.frames[|s.frames|].token == token
            && s'.m.token == Some(token)
  {
    hide Inv;
  }

  // An ack, an error and a close settle an open claim as acknowledged, rejected and not connected;
  // on a settled claim, or without one, they settle nothing.
  lemma HooksSettleTheClaim(s: System, hook: Move)
    requires Claims(s) && s.stuck.None? && (hook.AckArrives? || hook.ErrorArrives? || hook.Close?)
    ensures var s' := Next(s, hook);
            && |s'.m.futures| == |s.m.futures| && s'.m.pending == s.m.pending && s'.callers == s.callers
            && forall f: nat | f < |s.m.futures| ::
                 s'.m.futures[f] == if s.m.futures[f] != Open then s.m.futures[f]
                                    else if hook.AckArrives? then Acked
                                    else Failed(if hook.ErrorArrives? then Rejected else NotConnected)
  {
    forall f: nat | f < |s.m.futures| && s.m.futures[f] == Open ensures s.m.pending == Some(f) {
      OpenIsPending(s, f);
    }
    hide Claims;
  }

  lemma OpenIsPending(s: System, f: nat)
    requires Claims(s) && f < |s.m.futures| && s.m.futures[f] == Open
    ensures s.m.pending == Some(f)
  {
  }

  // Whoever waits for an acknowledged future returns, and whoever waits for a failed one raises the
  // same failure; an escalation that waits for another's goes on or gives up instead.
  lemma WaitersSeeTheOutcome(s: System, o: nat, send: Send)
    requires s.stuck.None? && o < |s.callers| && MayWake(s, o)
    requires s.callers[o].pc.Coalesced? || s.callers[o].pc.Awaiting?
    requires Settled(s, s.callers[o].pc.f)
    ensures var (pc, outcome) := (s.callers[o].pc, s.m.futures[s.callers[o].pc.f]);
            var s' := Next(s, WakeOnFuture(o, send));
            && o < |s'.callers| && s'.callers[o].pc.Finished?
            && (var result := s'.callers[o].pc.result;
                && (outcome.Failed? ==> result == Raised(outcome.why))
                && (outcome == Acked && (pc.Coalesced? || s.callers[o].kind.Refresh?) ==> result == Returned)
                && (outcome == Acked && pc.Awaiting? && s.callers[o].kind.Escalate? ==> result == Escalated(pc.f)))
  {
    hide MayWake, Settle;
  }

  // A failed send raises its failure in the owner, and in everybody who waits on the claim.
  lemma FailedSendFailsTheClaim(s: System, o: nat, why: Failure)
    requires Claims(s) && s.stuck.None? && o < |s.callers| && s.callers[o].pc.Sending?
    requires s.callers[o].pc.f < |s.m.futures| && s.m.futures[s.callers[o].pc.f] == Open
    ensures var (f, s') := (s.callers[o].pc.f, Next(s, SendFailed(o, why)));
            && s'.m.pending.None? && s'.m.futures == s.m.futures[f := Failed(why)]
            && s'.callers[o].pc == Finished(Raised(why))
  {
    OwnedMeansOwner(s, o);
    SoleOwner(s, o, s.callers[o].pc.f);
    hide Claims;
  }

  // ---------------------------------------------------------------- escalations that spin

  // Once a caller goes round without suspending, nothing else ever runs.
  lemma {:induction false} StuckForEver(s: System, more: seq<Move>)
    requires s.stuck.Some?
    ensures NextAll(s, more) == s
  {
    if more != [] {
      StuckForEver(s, more[..|more| - 1]);
    }
  }

  // The owner of claim `f` waits for its future, in the second statement since before `o` does.
  ghost predicate OwnerWaits(s: System, f: nat) {
    exists x | 0 <= x < |s.callers| :: s.callers[x].pc == Awaiting(f)
  }

  ghost predicate OwnerWaitsBefore(s: System, o: nat, f: nat)
    requires o < |s.callers|
  {
    exists x | 0 <= x < |s.callers| :: s.callers[x].pc == Awaiting(f) && s.callers[x].turn < s.callers[o].turn
  }

  ghost predicate CanSpin(s: System, o: nat, f: nat)
    requires o < |s.callers|
  {
    && s.m.pending == Some(f) && f < |s.m.futures|
    && (s.m.futures[f] == Open || TriesAgain(s.m.futures[f]))
    && !OwnerWaitsBefore(s, o, f)
  }

  lemma {:induction false} NextAllCons(s: System, move: Move, more: seq<Move>)
    ensures NextAll(s, [move] + more) == NextAll(Next(s, move), more)
    decreases |more|
  {
    hide Next;
    if more == [] {
      assert [move] + more == [move] && [move][..0] == [];
      assert NextAll(s, [move]) == Next(NextAll(s, []), move);
    } else {
      var n := |more| - 1;
      assert ([move] + more)[..|[move] + more| - 1] == [move] + more[..n];
      NextAllCons(s, move, more[..n]);
    }
  }

  // The callers that wake before `o` when future `f` is settled.
  ghost function Ahead(s: System, o: nat, f: nat): set<nat>
    requires o < |s.callers|
  {
    set x: nat | x < |s.callers| && AwaitedBy(s.callers[x].pc) == Some(f) && s.callers[x].turn < s.callers[o].turn
  }

  lemma {:induction false} EarliestAhead(s: System, o: nat, f: nat, x: nat) returns (y: nat)
    requires o < |s.callers| && x in Ahead(s, o, f)
    ensures y in Ahead(s, o, f) && MayWake(s, y)
    decreases s.callers[x].turn
  {
    if MayWake(s, x) {
      y := x;
    } else {
      var z: nat :| z < |s.callers| && AwaitedBy(s.callers[z].pc) == Some(f) && s.callers[z].turn < s.callers[x].turn;
      y := EarliestAhead(s, o, f, z);
    }
  }

  // A schedule that makes `o` spin: the callers ahead of it are cancelled in their turn, and the
  // owner of the settled claim is not among them.
  lemma {:induction false} SpinSchedule(s: System, o: nat, f: nat) returns (more: seq<Move>)
    requires s.stuck.None? && o < |s.callers| && s.callers[o].kind.Escalate? && s.callers[o].pc == Draining(f)
    requires CanSpin(s, o, f) && TriesAgain(s.m.futures[f])
    ensures NextAll(s, more).stuck == Some(Stuck(o, f))
    decreases |Ahead(s, o, f)|
  {
    if x: nat :| x in Ahead(s, o, f) {
      var y := EarliestAhead(s, o, f, x);
      var s' := Next(s, Cancel(y));
      CancelAhead(s, o, f, y);
      var rest := SpinSchedule(s', o, f);
      more := [Cancel(y)] + rest;
      NextAllCons(s, Cancel(y), rest);
    } else {
      more := [WakeOnFuture(o, Starts)];
      NothingAhead(s, o, f);
      NextAllCons(s, WakeOnFuture(o, Starts), []);
      assert more == [WakeOnFuture(o, Starts)] + [];
    }
  }

  lemma NothingAhead(s: System, o: nat, f: nat)
    requires s.stuck.None? && o < |s.callers| && s.callers[o].kind.Escalate? && s.callers[o].pc == Draining(f)
    requires CanSpin(s, o, f) && TriesAgain(s.m.futures[f]) && forall x: nat :: x !in Ahead(s, o, f)
    ensures Next(s, WakeOnFuture(o, Starts)).stuck == Some(Stuck(o, f))
  {
    assert MayWake(s, o) by {
      forall x | 0 <= x < |s.callers| && AwaitedBy(s.callers[x].pc) == Some(f)
        ensures s.callers[o].turn <= s.callers[x].turn
      {
        assert x !in Ahead(s, o, f);
      }
    }
    hide MayWake;
  }

  lemma CancelAhead(s: System, o: nat, f: nat, y: nat)
    requires s.stuck.None? && o < |s.callers| && s.callers[o].pc == Draining(f)
    requires CanSpin(s, o, f) && TriesAgain(s.m.futures[f]) && y in Ahead(s, o, f) && MayWake(s, y)
    ensures var s' := Next(s, Cancel(y));
            && s' == At(s, y, Finished(Raised(Cancelled))) && y != o
            && CanSpin(s', o, f) && |Ahead(s', o, f)| < |Ahead(s, o, f)|
  {
    assert s.callers[y].pc != Awaiting(f);
    hide MayWake;
    var s' := Next(s, Cancel(y));
    assert s' == At(s, y, Finished(Raised(Cancelled)));
    assert Ahead(s', o, f) <= Ahead(s, o, f) - {y};
    Smaller(Ahead(s', o, f), Ahead(s, o, f), y);
  }

  lemma Smaller(a: set<nat>, b: set<nat>, y: nat)
    requires a <= b - {y} && y in b
    ensures |a| < |b|
  {
    Subset(a, b - {y});
  }

  lemma {:induction false} Subset(a: set<nat>, b: set<nat>)
    requires a <= b
    ensures |a| <= |b|
  {
    if x :| x in a {
      Subset(a - {x}, b - {x});
    }
  }

  // Nothing can make `o` spin on claim `f` any more.
  ghost predicate Barred(s: System, o: nat, f: nat) {
    && o < |s.callers| && f < |s.m.futures| && s.stuck != Some(Stuck(o, f))
    && (|| s.m.pending != Some(f)
        || (s.m.futures[f] != Open && !TriesAgain(s.m.futures[f]))
        || (AwaitedBy(s.callers[o].pc) == Some(f) && OwnerWaitsBefore(s, o, f)))
  }

  // A move that gets stuck is one of the caller that spins, at a claim that is settled but held.
  lemma SpinStep(s: System, move: Move, o: nat, f: nat)
    requires s.stuck.None? && Next(s, move).stuck == Some(Stuck(o, f))
    ensures s.m.pending == Some(f) && f < |s.m.futures| && TriesAgain(s.m.futures[f])
    ensures (move.Begin? && move.o == o && o < |s.callers| && s.callers[o].pc == Ready)
            || (move.WakeOnFuture? && move.o == o && o < |s.callers| && MayWake(s, o))
  {
    hide Earliest, Settle, MayWake;
  }

  // A claim that is over stays over.
  lemma ClaimsAreFresh(s: System, move: Move, f: nat)
    requires f < |s.m.futures| && s.m.pending != Some(f)
    ensures Next(s, move).m.pending != Some(f)
  {
    hide Earliest, MayWake;
  }

  lemma BarredStep(s: System, move: Move, o: nat, f: nat)
    requires Inv(s) && Barred(s, o, f)
    ensures Barred(Next(s, move), o, f)
  {
    var s' := Next(s, move);
    FuturesAreFinal(s, move, f);
    CallersStay(s, move, o);
    if s.stuck.None? {
      if s'.stuck == Some(Stuck(o, f)) {
        hide Next;
        SpinStep(s, move, o, f);
        hide Inv;
        assert false by { CannotWake(s, move, o, f); }
      }
      if s.m.pending != Some(f) {
        hide Next, Inv;
        ClaimsAreFresh(s, move, f);
      } else if s.m.futures[f] == Open || TriesAgain(s.m.futures[f]) {
        hide Next;
        var x :| 0 <= x < |s.callers| && s.callers[x].pc == Awaiting(f) && s.callers[x].turn < s.callers[o].turn;
        OwnerStaysAhead(s, move, o, x, f);
      }
    }
  }

  lemma CallersStay(s: System, move: Move, o: nat)
    requires o < |s.callers|
    ensures o < |Next(s, move).callers|
  {
    hide Earliest, Settle, MayWake;
  }

  lemma CannotWake(s: System, move: Move, o: nat, f: nat)
    requires Barred(s, o, f) && s.m.pending == Some(f) && TriesAgain(s.m.futures[f])
    ensures s.callers[o].pc != Ready && !MayWake(s, o)
  {
    var x :| 0 <= x < |s.callers| && s.callers[x].pc == Awaiting(f) && s.callers[x].turn < s.callers[o].turn;
    assert AwaitedBy(s.callers[x].pc) == AwaitedBy(s.callers[o].pc);
  }

  // An owner that waits ahead of `o` goes on waiting ahead of it, or ends the claim, or is
  // cancelled; and `o` cannot move before that.
  lemma OwnerStaysAhead(s: System, move: Move, o: nat, x: nat, f: nat)
    requires Inv(s) && s.stuck.None? && s.m.pending == Some(f) && o < |s.callers| && x < |s.callers|
    requires AwaitedBy(s.callers[o].pc) == Some(f)
    requires s.callers[x].pc == Awaiting(f) && s.callers[x].turn < s.callers[o].turn
    ensures var s' := Next(s, move);
            && f < |s.m.futures| && f < |s'.m.futures| && o < |s'.callers|
            && (|| s'.m.pending != Some(f)
                || (s'.m.futures[f] != Open && !TriesAgain(s'.m.futures[f]))
                || (x < |s'.callers| && s'.callers[x] == s.callers[x] && s'.callers[o] == s.callers[o]))
  {
    assert f < |s.m.futures|;
    FuturesAreFinal(s, move, f);
    CallersStay(s, move, o);
    assert !MayWake(s, o) by { assert AwaitedBy(s.callers[x].pc) == AwaitedBy(s.callers[o].pc); }
    hide Inv, MayWake;
    if move.Tick? || move.Spawn? || move.AckArrives? || move.ErrorArrives? || move.Close? || move.UpdateToken? {
      hide Settle;
    } else if move.o != x && move.o != o {
      if move.o < |s.callers| {
        hide Next, PacesNothingNew;
        CallerMoveTouches(s, move, move.o);
      }
    } else {
      WaiterMoves(s, move, f);
    }
  }

  // What the moves of a caller that waits for the open or settled claim can do.
  lemma WaiterMoves(s: System, move: Move, f: nat)
    requires s.stuck.None? && s.m.pending == Some(f) && f < |s.m.futures|
    requires move.Begin? || move.WakeFromSleep? || move.Fetched? || move.FetchFailed?
             || move.SendDone? || move.SendFailed? || move.WakeOnFuture? || move.Cancel?
    requires move.o < |s.callers| && AwaitedBy(s.callers[move.o].pc) == Some(f)
    requires s.callers[move.o].pc == Awaiting(f) || !MayWake(s, move.o)
    ensures var s' := Next(s, move);
            s' == s || s'.m.pending.None? || s' == s.(m := Settle(s.m, Failed(Cancelled)))
    ensures Next(s, move) == s.(m := Settle(s.m, Failed(Cancelled))) ==>
              Next(s, move) == s || Next(s, move).m.futures[f] == Failed(Cancelled)
  {
    hide MayWake;
  }

  lemma {:induction false} BarredForEver(s: System, more: seq<Move>, o: nat, f: nat)
    requires Inv(s) && Barred(s, o, f)
    ensures Barred(NextAll(s, more), o, f) && Inv(NextAll(s, more))
  {
    hide Inv, Barred, Next;
    if more != [] {
      BarredForEver(s, more[..|more| - 1], o, f);
      BarredStep(NextAll(s, more[..|more| - 1]), more[|more| - 1], o, f);
      NextKeepsInv(NextAll(s, more[..|more| - 1]), more[|more| - 1]);
    }
  }

  // An escalation that waits for claim `f` can end up spinning on it, under some schedule, if and
  // only if the claim is held, open or settled by an ack or a rejection, and its owner did not
  // begin to wait for it before the escalation did.
  lemma WaitingEscalationSpinsIff(s: System, o: nat, f: nat)
    requires Inv(s) && s.stuck.None?
    requires o < |s.callers| && s.callers[o].kind.Escalate? && s.callers[o].pc == Draining(f)
    ensures (exists more :: NextAll(s, more).stuck == Some(Stuck(o, f))) <==> CanSpin(s, o, f)
  {
    assert f < |s.m.futures|;
    hide Inv, Next;
    if CanSpin(s, o, f) {
      if s.m.futures[f] == Open {
        var s' := Next(s, AckArrives);
        AckMakesSpin(s, o, f);
        var rest := SpinSchedule(s', o, f);
        NextAllCons(s, AckArrives, rest);
        assert NextAll(s, [AckArrives] + rest).stuck == Some(Stuck(o, f));
      } else {
        var more := SpinSchedule(s, o, f);
        assert NextAll(s, more).stuck == Some(Stuck(o, f));
      }
    } else {
      forall more ensures NextAll(s, more).stuck != Some(Stuck(o, f)) {
        BarredForEver(s, more, o, f);
      }
    }
  }

  lemma AckMakesSpin(s: System, o: nat, f: nat)
    requires s.stuck.None? && o < |s.callers| && CanSpin(s, o, f) && s.m.futures[f] == Open
    ensures var s' := Next(s, AckArrives);
            && s'.stuck.None? && s'.callers == s.callers && CanSpin(s', o, f) && TriesAgain(s'.m.futures[f])
  {
  }

  ghost predicate TurnsOk(s: System) {
    s.stuck.None? ==>
      forall x | 0 <= x < |s.callers| && AwaitedBy(s.callers[x].pc).Some? :: s.callers[x].turn < s.turns
  }

  lemma TurnsStep(s: System, move: Move)
    requires TurnsOk(s)
    ensures TurnsOk(Next(s, move))
  {
    if move.Tick? || move.Spawn? || move.AckArrives? || move.ErrorArrives? || move.Close? || move.UpdateToken? {
      hide Settle;
    } else if move.o < |s.callers| {
      hide Next, PacesNothingNew;
      CallerMoveTouches(s, move, move.o);
      MoverIsLast(s, move);
    }
  }

  // A caller that begins to wait takes the last turn.
  lemma MoverIsLast(s: System, move: Move)
    requires move.Begin? || move.WakeFromSleep? || move.Fetched? || move.FetchFailed?
             || move.SendDone? || move.SendFailed? || move.WakeOnFuture? || move.Cancel?
    requires move.o < |s.callers|
    ensures var s' := Next(s, move);
            && s.turns <= s'.turns && move.o < |s'.callers|
            && (s'.stuck.None? && AwaitedBy(s'.callers[move.o].pc).Some? && s'.callers[move.o] != s.callers[move.o] ==>
                  s'.callers[move.o].turn < s'.turns
                  || (AwaitedBy(s.callers[move.o].pc).Some? && s'.callers[move.o].turn == s.callers[move.o].turn))
  {
    hide Earliest, Settle, MayWake;
  }

  lemma {:induction false} TurnsHold(
      token: Option<string>, fetches: bool, minInterval: real, clock: real, moves: seq<Move>)
    ensures TurnsOk(NextAll(Start(token, fetches, minInterval, clock), moves))
  {
    var start := Start(token, fetches, minInterval, clock);
    if moves != [] {
      hide TurnsOk, Next, Start;
      TurnsHold(token, fetches, minInterval, clock, moves[..|moves| - 1]);
      TurnsStep(NextAll(start, moves[..|moves| - 1]), moves[|moves| - 1]);
    }
  }

  // In every run: a connected call of escalate that finds claim `f` held can hang the event loop
  // on that claim, under some continuation, if and only if the claim is already settled by an ack
  // or a rejection, or is open while its owner is still sleeping, fetching or sending.
  lemma EscalateSpinsOnFoundClaimIff(
      token: Option<string>, fetches: bool, minInterval: real, clock: real, moves: seq<Move>,
      o: nat, send: Send, f: nat)
    requires var s := NextAll(Start(token, fetches, minInterval, clock), moves);
             && s.stuck.None? && o < |s.callers| && s.callers[o].kind.Escalate? && s.callers[o].pc == Ready
             && s.m.pending == Some(f)
    ensures var s := NextAll(Start(token, fetches, minInterval, clock), moves);
            && f < |s.m.futures|
            && ((exists more :: NextAll(Next(s, Begin(o, true, send)), more).stuck == Some(Stuck(o, f)))
                <==> TriesAgain(s.m.futures[f]) || (s.m.futures[f] == Open && !OwnerWaits(s, f)))
  {
    var s := NextAll(Start(token, fetches, minInterval, clock), moves);
    Reachable(token, fetches, minInterval, clock, moves);
    TurnsHold(token, fetches, minInterval, clock, moves);
    hide NextAll, Start;
    BeginSpinsIff(s, o, send, f);
  }

  lemma BeginSpinsIff(s: System, o: nat, send: Send, f: nat)
    requires Inv(s) && TurnsOk(s) && s.stuck.None? && s.m.pending == Some(f)
    requires o < |s.callers| && s.callers[o].kind.Escalate? && s.callers[o].pc == Ready
    ensures f < |s.m.futures|
    ensures (exists more :: NextAll(Next(s, Begin(o, true, send)), more).stuck == Some(Stuck(o, f)))
            <==> TriesAgain(s.m.futures[f]) || (s.m.futures[f] == Open && !OwnerWaits(s, f))
  {
    assert f < |s.m.futures|;
    var s' := Next(s, Begin(o, true, send));
    NextKeepsInv(s, Begin(o, true, send));
    hide Inv;
    if s.m.futures[f] == Open {
      assert s' == Await(s, o, Draining(f));
      assert OwnerWaitsBefore(s', o, f) <==> OwnerWaits(s, f) by { LastInLine(s, o, f); }
      hide Next, NextAll, OwnerWaits, OwnerWaitsBefore;
      WaitingEscalationSpinsIff(s', o, f);
    } else if TriesAgain(s.m.futures[f]) {
      StuckAlready(s', Stuck(o, f));
    } else {
      assert Barred(s', o, f);
      hide Next, Barred;
      forall more ensures NextAll(s', more).stuck != Some(Stuck(o, f)) {
        BarredForEver(s', more, o, f);
        BarredMeans(NextAll(s', more), o, f);
      }
    }
  }

  lemma StuckAlready(s: System, stuck: Stuck)
    requires s.stuck == Some(stuck)
    ensures exists more :: NextAll(s, more).stuck == Some(stuck)
  {
    assert NextAll(s, []) == s;
  }

  lemma BarredMeans(s: System, o: nat, f: nat)
    requires Barred(s, o, f)
    ensures s.stuck != Some(Stuck(o, f))
  {
  }

  lemma LastInLine(s: System, o: nat, f: nat)
    requires TurnsOk(s) && s.stuck.None? && o < |s.callers| && s.callers[o].pc == Ready
    ensures OwnerWaitsBefore(Await(s, o, Draining(f)), o, f) <==> OwnerWaits(s, f)
  {
    var s' := Await(s, o, Draining(f));
    if x :| 0 <= x < |s.callers| && s.callers[x].pc == Awaiting(f) {
      assert s'.callers[x] == s.callers[x] && AwaitedBy(s.callers[x].pc).Some?;
    }
    if x :| 0 <= x < |s'.callers| && s'.callers[x].pc == Awaiting(f) {
      assert s.callers[x].pc == Awaiting(f);
    }
  }

  // ---------------------------------------------------------------- spinning on any claim

  ghost predicate SpinsAt(s: System, o: nat) {
    s.stuck.Some? && s.stuck.value.caller == o
  }

  lemma {:induction false} NextAllAppend(s: System, a: seq<Move>, b: seq<Move>)
    ensures NextAll(s, a + b) == NextAll(NextAll(s, a), b)
    decreases |b|
  {
    hide Next;
    if b == [] {
      assert a + b == a;
    } else {
      var n := |b| - 1;
      assert (a + b)[..|a + b| - 1] == a + b[..n];
      NextAllAppend(s, a, b[..n]);
    }
  }

  // `o` and future `f` are as before; other callers are as before or wait for nothing.
  ghost predicate Quieter(s: System, s': System, o: nat, f: nat) {
    && |s'.callers| == |s.callers| && o < |s.callers| && s'.callers[o] == s.callers[o]
    && f < |s.m.futures| && f < |s'.m.futures| && s'.m.futures[f] == s.m.futures[f]
    && s'.stuck.None?
    && forall x | 0 <= x < |s.callers| :: s'.callers[x] == s.callers[x] || AwaitedBy(s'.callers[x].pc).None?
  }

  lemma QuieterAhead(s: System, s': System, o: nat, f: nat)
    requires Quieter(s, s', o, f)
    ensures Ahead(s', o, f) <= Ahead(s, o, f)
  {
  }

  // Cancelling a waiter in its turn, once its future is settled.
  lemma CancelInTurn(s: System, y: nat, f: nat)
    requires Inv(s) && s.stuck.None? && y < |s.callers| && AwaitedBy(s.callers[y].pc) == Some(f)
    requires Settled(s, f) && MayWake(s, y)
    ensures var s' := Next(s, Cancel(y));
            && s'.stuck.None? && s'.m.futures == s.m.futures
            && s'.callers == s.callers[y := s.callers[y].(pc := Finished(Raised(Cancelled)))]
            && s'.m.pending == (if s.callers[y].pc.Awaiting? then None else s.m.pending)
  {
    OwnedMeansOwner(s, y);
    if s.callers[y].pc.Awaiting? {
      SoleOwner(s, y, f);
    }
    hide Inv, MayWake, OwnerOf;
  }

  // Futures and other callers are as before; some waiters for `f` wait no longer, and the claim may
  // have ended with one of them.
  ghost predicate Thinned(s: System, s': System, o: nat, f: nat) {
    && s'.stuck.None? && s'.m.futures == s.m.futures
    && (s'.m.pending == s.m.pending || s'.m.pending.None?)
    && |s'.callers| == |s.callers| && o < |s.callers| && s'.callers[o] == s.callers[o]
    && forall x | 0 <= x < |s.callers| ::
         s'.callers[x] == s.callers[x]
         || (AwaitedBy(s.callers[x].pc) == Some(f) && AwaitedBy(s'.callers[x].pc).None?)
  }

  lemma ThinOne(s: System, o: nat, f: nat, y: nat)
    requires Inv(s) && s.stuck.None? && o < |s.callers| && Settled(s, f)
    requires y in Ahead(s, o, f) && MayWake(s, y)
    ensures var s' := Next(s, Cancel(y));
            Thinned(s, s', o, f) && |Ahead(s', o, f)| < |Ahead(s, o, f)|
  {
    CancelInTurn(s, y, f);
    hide Inv, Next, MayWake;
    var s' := Next(s, Cancel(y));
    assert Ahead(s', o, f) <= Ahead(s, o, f) - {y};
    Smaller(Ahead(s', o, f), Ahead(s, o, f), y);
  }

  lemma ThinnedTwice(s: System, s1: System, s2: System, o: nat, f: nat)
    requires Thinned(s, s1, o, f) && Thinned(s1, s2, o, f)
    ensures Thinned(s, s2, o, f)
  {
  }

  // Everybody who waits ahead of `o` for a settled future can be cancelled in turn.
  lemma {:induction false} ClearAhead(s: System, o: nat, f: nat) returns (more: seq<Move>)
    requires Inv(s) && s.stuck.None? && o < |s.callers| && AwaitedBy(s.callers[o].pc) == Some(f) && Settled(s, f)
    ensures var s' := NextAll(s, more);
            Inv(s') && Thinned(s, s', o, f) && Ahead(s', o, f) == {}
    decreases |Ahead(s, o, f)|
  {
    if x: nat :| x in Ahead(s, o, f) {
      hide Inv, Next, MayWake, NextAll, Ahead;
      var y := EarliestAhead(s, o, f, x);
      var s' := Next(s, Cancel(y));
      ThinOne(s, o, f, y);
      NextKeepsInv(s, Cancel(y));
      var rest := ClearAhead(s', o, f);
      more := [Cancel(y)] + rest;
      NextAllCons(s, Cancel(y), rest);
      ThinnedTwice(s, s', NextAll(s, more), o, f);
    } else {
      more := [];
    }
  }

  // A claim other than the one `o` waits for can be ended without touching `o`.
  lemma FreeSlot(s: System, o: nat, f: nat, h: nat) returns (more: seq<Move>)
    requires Inv(s) && s.stuck.None? && o < |s.callers| && s.callers[o].pc == Draining(f)
    requires Settled(s, f) && s.m.pending == Some(h) && h != f
    ensures var s' := NextAll(s, more);
            Inv(s') && Quieter(s, s', o, f) && s'.m.pending.None?
  {
    assert h < |s.m.futures|;
    var z: nat :| OwnerOf(s, z, h);
    OwnerBound(s, z, h);
    NextKeepsInv(s, Cancel(z));
    if !s.callers[z].pc.Awaiting? {
      more := [Cancel(z)];
      NextAllOne(s, Cancel(z));
      OwnerLeaves(s, z, o, f, h);
    } else if s.m.futures[h] == Open {
      var s1 := Next(s, Cancel(z));
      assert s.callers[z].pc == Awaiting(h);
      SettleForOwner(s, z, h);
      hide Inv, Next, OwnerOf, NextAll;
      var rest := FreeSettledSlot(s1, o, f, h, z);
      more := [Cancel(z)] + rest;
      NextAllCons(s, Cancel(z), rest);
    } else {
      assert s.callers[z].pc == Awaiting(h);
      hide Inv, Next, OwnerOf, NextAll;
      more := FreeSettledSlot(s, o, f, h, z);
    }
  }

  lemma OwnerLeaves(s: System, z: nat, o: nat, f: nat, h: nat)
    requires s.stuck.None? && o < |s.callers| && s.callers[o].pc == Draining(f) && Settled(s, f)
    requires s.m.pending == Some(h) && h != f && OwnerOf(s, z, h) && !s.callers[z].pc.Awaiting?
    ensures var s' := Next(s, Cancel(z));
            Quieter(s, s', o, f) && s'.m.pending.None?
  {
    hide MayWake;
  }

  lemma FreeSettledSlot(s: System, o: nat, f: nat, h: nat, z: nat) returns (more: seq<Move>)
    requires Inv(s) && s.stuck.None? && o < |s.callers| && s.callers[o].pc == Draining(f) && Settled(s, f)
    requires s.m.pending == Some(h) && h != f && Settled(s, h) && z < |s.callers| && s.callers[z].pc == Awaiting(h)
    ensures var s' := NextAll(s, more);
            Inv(s') && Quieter(s, s', o, f) && s'.m.pending.None?
  {
    hide Inv, Next, NextAll, MayWake;
    var first := ClearAhead(s, z, h);
    var s1 := NextAll(s, first);
    AloneMayWake(s1, z, h);
    CancelInTurn(s1, z, h);
    NextKeepsInv(s1, Cancel(z));
    more := first + [Cancel(z)];
    NextAllAppend(s, first, [Cancel(z)]);
    NextAllOne(s1, Cancel(z));
  }

  lemma NextAllOne(s: System, move: Move)
    ensures NextAll(s, [move]) == Next(s, move)
  {
    hide Next;
    assert [move][..0] == [];
    assert NextAll(s, []) == s;
  }

  lemma SettleForOwner(s: System, z: nat, h: nat)
    requires s.stuck.None? && s.m.pending == Some(h) && h < |s.m.futures|
    requires z < |s.callers| && s.callers[z].pc == Awaiting(h) && s.m.futures[h] == Open
    ensures var s' := Next(s, Cancel(z));
            && s'.stuck.None? && s'.callers == s.callers && s'.m.pending == Some(h)
            && s'.m.futures == s.m.futures[h := Failed(Cancelled)]
  {
    hide MayWake;
  }

  lemma AloneMayWake(s: System, o: nat, f: nat)
    requires o < |s.callers| && AwaitedBy(s.callers[o].pc) == Some(f) && Ahead(s, o, f) == {}
    ensures MayWake(s, o)
  {
    forall x | 0 <= x < |s.callers| && AwaitedBy(s.callers[x].pc) == Some(f)
      ensures s.callers[o].turn <= s.callers[x].turn
    {
      assert x !in Ahead(s, o, f);
    }
  }

  // With the slot free and nobody ahead, a new refresh takes the slot before `o` wakes, and `o`
  // comes to wait for an owner that does not wait yet.
  lemma ReclaimAndSpin(s: System, o: nat, f: nat) returns (more: seq<Move>)
    requires Inv(s) && s.stuck.None? && o < |s.callers| && s.callers[o].kind.Escalate?
    requires s.callers[o].pc == Draining(f) && Settled(s, f) && TriesAgain(s.m.futures[f])
    requires s.m.pending.None? && Ahead(s, o, f) == {}
    ensures SpinsAt(NextAll(s, more), o)
  {
    var n, g := |s.callers|, |s.m.futures|;
    var s1 := Next(s, Spawn(Refresh));
    var s2 := Next(s1, Begin(n, true, Starts));
    var s3 := Next(s2, WakeOnFuture(o, Starts));
    Reclaimed(s, o, f);
    NextKeepsInv(s, Spawn(Refresh));
    NextKeepsInv(s1, Begin(n, true, Starts));
    NextKeepsInv(s2, WakeOnFuture(o, Starts));
    hide Inv, Next, NextAll;
    WaitingEscalationSpinsIff(s3, o, g);
    var rest :| NextAll(s3, rest).stuck == Some(Stuck(o, g));
    more := [Spawn(Refresh)] + ([Begin(n, true, Starts)] + ([WakeOnFuture(o, Starts)] + rest));
    NextAllCons(s, Spawn(Refresh), [Begin(n, true, Starts)] + ([WakeOnFuture(o, Starts)] + rest));
    NextAllCons(s1, Begin(n, true, Starts), [WakeOnFuture(o, Starts)] + rest);
    NextAllCons(s2, WakeOnFuture(o, Starts), rest);
  }

  lemma Reclaimed(s: System, o: nat, f: nat)
    requires Claims(s) && s.stuck.None? && o < |s.callers| && s.callers[o].kind.Escalate?
    requires s.callers[o].pc == Draining(f) && Settled(s, f) && TriesAgain(s.m.futures[f])
    requires s.m.pending.None? && Ahead(s, o, f) == {}
    ensures var s2 := Next(Next(s, Spawn(Refresh)), Begin(|s.callers|, true, Starts));
            var s3 := Next(s2, WakeOnFuture(o, Starts));
            && s3.stuck.None? && o < |s3.callers| && s3.callers[o].kind == s.callers[o].kind
            && s3.callers[o].pc == Draining(|s.m.futures|) && CanSpin(s3, o, |s.m.futures|)
  {
    var n, g := |s.callers|, |s.m.futures|;
    var s1 := Next(s, Spawn(Refresh));
    assert s1 == s.(callers := s.callers + [Caller(Refresh, Ready, 0)]);
    var s2 := Next(s1, Begin(n, true, Starts));
    assert s2 == ClaimRefresh(s1, n);
    assert |s2.callers| == n + 1 && AwaitedBy(s2.callers[n].pc).None?;
    assert forall x | 0 <= x < n :: s2.callers[x] == s.callers[x];
    assert s2.m.pending == Some(g) && s2.m.futures == s.m.futures + [Open] && s2.stuck.None?;
    hide ClaimRefresh;
    assert Ahead(s2, o, f) <= Ahead(s, o, f);
    AloneMayWake(s2, o, f);
    hide MayWake;
    var s3 := Next(s2, WakeOnFuture(o, Starts));
    assert s3 == Await(s2, o, Draining(g));
    forall x | 0 <= x < |s3.callers| ensures s3.callers[x].pc != Awaiting(g) {
      if x < n && x != o {
        assert AwaitedBy(s.callers[x].pc).Some? ==> AwaitedBy(s.callers[x].pc).value < g;
      }
    }
  }

  // An escalation that waits for a future that is open, or settled so that it tries again, can be
  // made to spin, on that claim or on a later one.
  lemma WaitingEscalationCanSpin(s: System, o: nat, f: nat) returns (more: seq<Move>)
    requires Inv(s) && s.stuck.None? && o < |s.callers| && s.callers[o].kind.Escalate?
    requires s.callers[o].pc == Draining(f) && f < |s.m.futures|
    requires s.m.futures[f] == Open || TriesAgain(s.m.futures[f])
    ensures SpinsAt(NextAll(s, more), o)
  {
    if s.m.futures[f] == Open {
      var s1 := Next(s, AckArrives);
      assert s.m.pending == Some(f);
      NextKeepsInv(s, AckArrives);
      assert s1.stuck.None? && s1.callers == s.callers && s1.m.futures == s.m.futures[f := Acked];
      hide Inv, Next;
      var rest := SettledEscalationCanSpin(s1, o, f);
      more := [AckArrives] + rest;
      NextAllCons(s, AckArrives, rest);
    } else {
      more := SettledEscalationCanSpin(s, o, f);
    }
  }

  lemma SettledEscalationCanSpin(s: System, o: nat, f: nat) returns (more: seq<Move>)
    requires Inv(s) && s.stuck.None? && o < |s.callers| && s.callers[o].kind.Escalate?
    requires s.callers[o].pc == Draining(f) && Settled(s, f) && TriesAgain(s.m.futures[f])
    ensures SpinsAt(NextAll(s, more), o)
  {
    hide Inv, Next, NextAll, MayWake;
    var first := ClearAhead(s, o, f);
    var s1 := NextAll(s, first);
    var rest: seq<Move>;
    if s1.m.pending == Some(f) {
      AloneMayWake(s1, o, f);
      rest := [WakeOnFuture(o, Starts)];
      NextAllOne(s1, WakeOnFuture(o, Starts));
      assert SpinsAt(Next(s1, WakeOnFuture(o, Starts)), o) by { WakesIntoSpin(s1, o, f); }
    } else if s1.m.pending.Some? {
      var second := FreeSlot(s1, o, f, s1.m.pending.value);
      var s2 := NextAll(s1, second);
      QuieterAhead(s1, s2, o, f);
      var third := ReclaimAndSpin(s2, o, f);
      rest := second + third;
      NextAllAppend(s1, second, third);
    } else {
      rest := ReclaimAndSpin(s1, o, f);
    }
    more := first + rest;
    NextAllAppend(s, first, rest);
  }

  lemma WakesIntoSpin(s: System, o: nat, f: nat)
    requires s.stuck.None? && o < |s.callers| && s.callers[o].kind.Escalate? && s.callers[o].pc == Draining(f)
    requires Settled(s, f) && TriesAgain(s.m.futures[f]) && s.m.pending == Some(f) && MayWake(s, o)
    ensures SpinsAt(Next(s, WakeOnFuture(o, Starts)), o)
  {
    hide MayWake;
  }

  // `o` is past its loop, or waits for a future whose outcome ends it.
  ghost predicate OutOfLoop(s: System, o: nat) {
    && o < |s.callers| && !SpinsAt(s, o) && s.callers[o].pc != Ready
    && (s.callers[o].pc.Draining? ==> Settled(s, s.callers[o].pc.f) && !TriesAgain(s.m.futures[s.callers[o].pc.f]))
  }

  lemma OutOfLoopStep(s: System, move: Move, o: nat)
    requires OutOfLoop(s, o)
    ensures OutOfLoop(Next(s, move), o)
  {
    if s.callers[o].pc.Draining? {
      FuturesAreFinal(s, move, s.callers[o].pc.f);
    }
    if s.stuck.None? {
      if SpinsAt(Next(s, move), o) {
        var f := Next(s, move).stuck.value.claim;
        assert Next(s, move).stuck == Some(Stuck(o, f));
        hide Next, MayWake;
        SpinNeedsAWait(s, move, o, f);
        assert false;
      }
      hide MayWake;
      if move.Tick? || move.Spawn? || move.AckArrives? || move.ErrorArrives? || move.Close? || move.UpdateToken? {
        hide Settle;
      } else if move.o < |s.callers| {
        hide Next, PacesNothingNew;
        CallerMoveTouches(s, move, move.o);
        if move.o == o {
          StaysOut(s, move, o);
        }
      }
    }
  }

  lemma SpinNeedsAWait(s: System, move: Move, o: nat, f: nat)
    requires s.stuck.None? && Next(s, move).stuck == Some(Stuck(o, f))
    ensures o < |s.callers|
    ensures s.callers[o].pc == Ready
            || (s.callers[o].pc.Draining? && Settled(s, s.callers[o].pc.f)
                && TriesAgain(s.m.futures[s.callers[o].pc.f]))
  {
    hide Earliest, Settle, MayWake;
  }

  lemma StaysOut(s: System, move: Move, o: nat)
    requires OutOfLoop(s, o) && s.stuck.None?
    requires move.Begin? || move.WakeFromSleep? || move.Fetched? || move.FetchFailed?
             || move.SendDone? || move.SendFailed? || move.WakeOnFuture? || move.Cancel?
    requires move.o == o
    ensures var s' := Next(s, move);
            o < |s'.callers| && s'.callers[o].pc != Ready
            && (s'.callers[o].pc.Draining? ==> s'.callers[o].pc == s.callers[o].pc)
  {
    hide Earliest, Settle, MayWake;
  }

  lemma {:induction false} OutOfLoopForEver(s: System, more: seq<Move>, o: nat)
    requires OutOfLoop(s, o)
    ensures OutOfLoop(NextAll(s, more), o) && !SpinsAt(NextAll(s, more), o)
  {
    hide Next;
    if more != [] {
      hide OutOfLoop, SpinsAt;
      OutOfLoopForEver(s, more[..|more| - 1], o);
      OutOfLoopStep(NextAll(s, more[..|more| - 1]), more[|more| - 1], o);
      assert !SpinsAt(NextAll(s, more), o) by { OutIsNotSpinning(NextAll(s, more), o); }
    }
  }

  lemma OutIsNotSpinning(s: System, o: nat)
    requires OutOfLoop(s, o)
    ensures !SpinsAt(s, o)
  {
  }

  // An escalation that waits can hang the event loop, on this claim or on any later one, if and
  // only if the future it waits for is open or settled by an ack or a rejection.
  lemma WaitingEscalationEverSpinsIff(s: System, o: nat, f: nat)
    requires Inv(s) && s.stuck.None?
    requires o < |s.callers| && s.callers[o].kind.Escalate? && s.callers[o].pc == Draining(f)
    ensures f < |s.m.futures|
    ensures (exists more :: SpinsAt(NextAll(s, more), o)) <==> s.m.futures[f] == Open || TriesAgain(s.m.futures[f])
  {
    assert f < |s.m.futures|;
    if s.m.futures[f] == Open || TriesAgain(s.m.futures[f]) {
      var more := WaitingEscalationCanSpin(s, o, f);
    } else {
      hide Inv;
      forall more ensures !SpinsAt(NextAll(s, more), o) {
        OutOfLoopForEver(s, more, o);
      }
    }
  }

  // In every run: a connected call of escalate can hang the event loop, under some continuation,
  // if and only if it finds the slot taken by a claim that is open or settled by an ack or a
  // rejection; that is, whenever it has to wait for a refresh that has not already failed. If the
  // owner of the claim found waits ahead of it, it is a later claim that it spins on.
  lemma EscalateSpinsIff(
      token: Option<string>, fetches: bool, minInterval: real, clock: real, moves: seq<Move>, o: nat, send: Send)
    requires var s := NextAll(Start(token, fetches, minInterval, clock), moves);
             s.stuck.None? && o < |s.callers| && s.callers[o].kind.Escalate? && s.callers[o].pc == Ready
    ensures var s := NextAll(Start(token, fetches, minInterval, clock), moves);
            && (s.m.pending.Some? ==> s.m.pending.value < |s.m.futures|)
            && ((exists more :: SpinsAt(NextAll(Next(s, Begin(o, true, send)), more), o))
                <==> s.m.pending.Some? && (var found := s.m.futures[s.m.pending.value];
                                           found == Open || TriesAgain(found)))
  {
    var s := NextAll(Start(token, fetches, minInterval, clock), moves);
    Reachable(token, fetches, minInterval, clock, moves);
    hide NextAll, Start;
    BeginEverSpinsIff(s, o, send);
  }

  lemma NothingMore(s: System, o: nat)
    requires SpinsAt(s, o)
    ensures exists more :: SpinsAt(NextAll(s, more), o)
  {
    assert NextAll(s, []) == s;
  }

  lemma BeginEverSpinsIff(s: System, o: nat, send: Send)
    requires Inv(s) && s.stuck.None? && o < |s.callers| && s.callers[o].kind.Escalate? && s.callers[o].pc == Ready
    ensures s.m.pending.Some? ==> s.m.pending.value < |s.m.futures|
    ensures (exists more :: SpinsAt(NextAll(Next(s, Begin(o, true, send)), more), o))
            <==> s.m.pending.Some? && (var found := s.m.futures[s.m.pending.value];
                                       found == Open || TriesAgain(found))
  {
    var s' := Next(s, Begin(o, true, send));
    NextKeepsInv(s, Begin(o, true, send));
    assert s.m.pending.Some? ==> s.m.pending.value < |s.m.futures|;
    hide Inv;
    if s.m.pending.Some? && s.m.futures[s.m.pending.value] == Open {
      var f := s.m.pending.value;
      assert s' == Await(s, o, Draining(f));
      hide Next, NextAll, SpinsAt;
      WaitingEscalationEverSpinsIff(s', o, f);
    } else if s.m.pending.Some? && TriesAgain(s.m.futures[s.m.pending.value]) {
      NothingMore(s', o);
    } else {
      assert OutOfLoop(s', o);
      hide Next, OutOfLoop, SpinsAt;
      forall more ensures !SpinsAt(NextAll(s', more), o) {
        OutOfLoopForEver(s', more, o);
      }
    }
  }

  // An escalation begins while a refresh is still fetching its token; the refresh is sent and
  // acked, and the event loop hangs: the escalation wakes first and goes round for ever.
  lemma OrdinaryRefreshHangsEscalation(token: Option<string>, minInterval: real, clock: real, later: seq<Move>)
    ensures var moves := [Spawn(Refresh), Spawn(Escalate("jwt")), Begin(0, true, Starts), Begin(1, true, Starts),
                          Fetched(0, "fresh", Starts), SendDone(0), AckArrives, WakeOnFuture(1, Starts)];
            var s := NextAll(Start(token, true, minInterval, clock), moves);
            && s.stuck == Some(Stuck(1, 0)) && s.m.futures == [Acked] && s.m.pending == Some(0)
            && NextAll(s, later) == s
  {
    var s0 := Start(token, true, minInterval, clock);
    var m1, m2 := Spawn(Refresh), Spawn(Escalate("jwt"));
    var m3, m4 := Begin(0, true, Starts), Begin(1, true, Starts);
    var m5, m6, m7, m8 := Fetched(0, "fresh", Starts), SendDone(0), AckArrives, WakeOnFuture(1, Starts);
    HangBegins(token, minInterval, clock);
    var s7 := HangStates(token, minInterval, clock);
    hide Next, Start, Draining0;
    EightMoves(s0, m1, m2, m3, m4, m5, m6, m7, m8);
    StuckForEver(Next(s7, m8), later);
  }

  function Draining0(token: Option<string>, minInterval: real, clock: real): System {
    var m := Manager(token, true, minInterval, Some(0), [Open], None, 0);
    System(m, [Caller(Refresh, Fetching(0, 0), 0), Caller(Escalate("jwt"), Draining(0), 0)], [], clock, 1, None)
  }

  lemma HangBegins(token: Option<string>, minInterval: real, clock: real)
    ensures var s2 := Next(Next(Start(token, true, minInterval, clock), Spawn(Refresh)), Spawn(Escalate("jwt")));
            Next(Next(s2, Begin(0, true, Starts)), Begin(1, true, Starts)) == Draining0(token, minInterval, clock)
  {
    var s0 := Start(token, true, minInterval, clock);
    var s2 := s0.(callers := [Caller(Refresh, Ready, 0), Caller(Escalate("jwt"), Ready, 0)]);
    assert Next(Next(s0, Spawn(Refresh)), Spawn(Escalate("jwt"))) == s2;
    var s3 := s2.(m := s0.m.(pending := Some(0), futures := [Open]),
                  callers := [Caller(Refresh, Fetching(0, 0), 0), Caller(Escalate("jwt"), Ready, 0)]);
    assert Next(s2, Begin(0, true, Starts)) == s3;
    assert Next(s3, Begin(1, true, Starts)) == Draining0(token, minInterval, clock);
  }

  lemma HangStates(token: Option<string>, minInterval: real, clock: real) returns (s7: System)
    ensures s7 == Next(Next(Next(Draining0(token, minInterval, clock), Fetched(0, "fresh", Starts)), SendDone(0)),
                       AckArrives)
    ensures var s := Next(s7, WakeOnFuture(1, Starts));
            s.stuck == Some(Stuck(1, 0)) && s.m.futures == [Acked] && s.m.pending == Some(0)
  {
    var s4 := Draining0(token, minInterval, clock);
    var draining := s4.callers[1];
    var s5 := s4.(m := s4.m.(token := Some("fresh"), lastRefreshAt := Some(clock)),
                  frames := [Frame(0, 0, "fresh", clock, true, 0)],
                  callers := [Caller(Refresh, Sending(0), 0), draining]);
    assert Next(s4, Fetched(0, "fresh", Starts)) == s5;
    var s6 := s5.(callers := [Caller(Refresh, Awaiting(0), 1), draining], turns := 2);
    assert Next(s5, SendDone(0)) == s6;
    s7 := s6.(m := s6.m.(futures := [Acked], failures := 0));
    assert Next(s6, AckArrives) == s7;
  }

  lemma EightMoves(s: System, m1: Move, m2: Move, m3: Move, m4: Move, m5: Move, m6: Move, m7: Move, m8: Move)
    ensures NextAll(s, [m1, m2, m3, m4, m5, m6, m7, m8])
         == Next(Next(Next(Next(Next(Next(Next(Next(s, m1), m2), m3), m4), m5), m6), m7), m8)
  {
    hide Next;
    var all := [m1, m2, m3, m4, m5, m6, m7, m8];
    SixMoves(s, m1, m2, m3, m4, m5, m6);
    var seven := all[..7];
    assert |seven| == 7 && seven[..6] == all[..6] == [m1, m2, m3, m4, m5, m6] && seven[6] == m7;
    assert NextAll(s, seven) == Next(NextAll(s, all[..6]), m7);
  }

  // The refresh is already waiting for its ack when the escalation begins, so the escalation wakes
  // after it has left; but another refresh has taken the slot by then, and the escalation spins on
  // that one.
  lemma LaterRefreshHangsEscalation(token: Option<string>, minInterval: real, clock: real)
    requires minInterval > 0.0
    ensures var opening := [Spawn(Refresh), Spawn(Escalate("jwt")), Spawn(Refresh), Begin(0, true, Starts),
                            Fetched(0, "fresh", Starts), SendDone(0)];
            var meanwhile := [Begin(1, true, Starts), AckArrives, WakeOnFuture(0, Starts), Begin(2, true, Starts),
                              WakeOnFuture(1, Starts)];
            var later := [Tick(clock + minInterval), WakeFromSleep(2), Fetched(2, "later", Starts), SendDone(2),
                          AckArrives, WakeOnFuture(1, Starts)];
            var s := NextAll(Start(token, true, minInterval, clock), opening);
            && s.m.pending == Some(0) && s.m.futures == [Open] && OwnerWaits(s, 0)
            && |s.callers| == 3 && s.callers[1].pc == Ready
            && NextAll(NextAll(s, meanwhile), later).stuck == Some(Stuck(1, 1))
  {
    var s0 := Start(token, true, minInterval, clock);
    var s1, s2 := Opened(token, minInterval, clock), Reopened(token, minInterval, clock);
    SixMoves(s0, Spawn(Refresh), Spawn(Escalate("jwt")), Spawn(Refresh), Begin(0, true, Starts),
             Fetched(0, "fresh", Starts), SendDone(0));
    FiveMoves(s1, Begin(1, true, Starts), AckArrives, WakeOnFuture(0, Starts), Begin(2, true, Starts),
              WakeOnFuture(1, Starts));
    SixMoves(s2, Tick(clock + minInterval), WakeFromSleep(2), Fetched(2, "later", Starts), SendDone(2),
             AckArrives, WakeOnFuture(1, Starts));
    hide Next, NextAll, Start;
    OpeningMoves(token, minInterval, clock);
    MeanwhileMoves(token, minInterval, clock);
    LaterMoves(token, minInterval, clock);
    assert s1.callers[0].pc == Awaiting(0);
  }

  function Opened(token: Option<string>, minInterval: real, clock: real): System {
    System(Manager(Some("fresh"), true, minInterval, Some(0), [Open], Some(clock), 0),
           [Caller(Refresh, Awaiting(0), 0), Caller(Escalate("jwt"), Ready, 0), Caller(Refresh, Ready, 0)],
           [Frame(0, 0, "fresh", clock, true, 0)], clock, 1, None)
  }

  function Reopened(token: Option<string>, minInterval: real, clock: real): System {
    System(Manager(Some("fresh"), true, minInterval, Some(1), [Acked, Open], Some(clock), 0),
           [Caller(Refresh, Finished(Returned), 0), Caller(Escalate("jwt"), Draining(1), 2),
            Caller(Refresh, Sleeping(1, clock + minInterval, 0), 0)],
           [Frame(0, 0, "fresh", clock, true, 0)], clock, 3, None)
  }

  lemma OpeningMoves(token: Option<string>, minInterval: real, clock: real)
    ensures var s3 := Next(Next(Next(Start(token, true, minInterval, clock), Spawn(Refresh)),
                                Spawn(Escalate("jwt"))), Spawn(Refresh));
            Next(Next(Next(s3, Begin(0, true, Starts)), Fetched(0, "fresh", Starts)), SendDone(0))
            == Opened(token, minInterval, clock)
  {
    var s0 := Start(token, true, minInterval, clock);
    var idle := Caller(Refresh, Ready, 0);
    var s3 := s0.(callers := [idle, Caller(Escalate("jwt"), Ready, 0), idle]);
    assert Next(Next(Next(s0, Spawn(Refresh)), Spawn(Escalate("jwt"))), Spawn(Refresh)) == s3;
    var s4 := s3.(m := s0.m.(pending := Some(0), futures := [Open]),
                  callers := s3.callers[0 := Caller(Refresh, Fetching(0, 0), 0)]);
    assert Next(s3, Begin(0, true, Starts)) == s4;
    var s5 := s4.(m := Opened(token, minInterval, clock).m, frames := [Frame(0, 0, "fresh", clock, true, 0)],
                  callers := s3.callers[0 := Caller(Refresh, Sending(0), 0)]);
    assert Next(s4, Fetched(0, "fresh", Starts)) == s5;
    assert Next(s5, SendDone(0)) == Opened(token, minInterval, clock);
  }

  lemma MeanwhileMoves(token: Option<string>, minInterval: real, clock: real)
    requires minInterval > 0.0
    ensures var s2 := Next(Next(Opened(token, minInterval, clock), Begin(1, true, Starts)), AckArrives);
            Next(Next(Next(s2, WakeOnFuture(0, Starts)), Begin(2, true, Starts)), WakeOnFuture(1, Starts))
            == Reopened(token, minInterval, clock)
  {
    hide Next;
    AckedMoves(token, minInterval, clock);
    ReopeningMoves(token, minInterval, clock);
  }

  function AckedSystem(token: Option<string>, minInterval: real, clock: real): System {
    var s := Opened(token, minInterval, clock);
    s.(m := s.m.(futures := [Acked]), callers := s.callers[1 := Caller(Escalate("jwt"), Draining(0), 1)], turns := 2)
  }

  lemma AckedMoves(token: Option<string>, minInterval: real, clock: real)
    ensures Next(Next(Opened(token, minInterval, clock), Begin(1, true, Starts)), AckArrives)
         == AckedSystem(token, minInterval, clock)
  {
    var s0 := Opened(token, minInterval, clock);
    var s1 := s0.(callers := s0.callers[1 := Caller(Escalate("jwt"), Draining(0), 1)], turns := 2);
    assert Next(s0, Begin(1, true, Starts)) == s1;
    assert Next(s1, AckArrives) == AckedSystem(token, minInterval, clock);
  }

  lemma ReopeningMoves(token: Option<string>, minInterval: real, clock: real)
    requires minInterval > 0.0
    ensures var s2 := AckedSystem(token, minInterval, clock);
            Next(Next(Next(s2, WakeOnFuture(0, Starts)), Begin(2, true, Starts)), WakeOnFuture(1, Starts))
            == Reopened(token, minInterval, clock)
  {
    var s2 := AckedSystem(token, minInterval, clock);
    var s3 := s2.(m := s2.m.(pending := None), callers := s2.callers[0 := Caller(Refresh, Finished(Returned), 0)]);
    assert MayWake(s2, 0);
    assert Next(s2, WakeOnFuture(0, Starts)) == s3;
    var s4 := s3.(m := s3.m.(pending := Some(1), futures := [Acked, Open]),
                  callers := s3.callers[2 := Caller(Refresh, Sleeping(1, clock + minInterval, 0), 0)]);
    assert Next(s3, Begin(2, true, Starts)) == s4;
    assert MayWake(s4, 1);
    assert Next(s4, WakeOnFuture(1, Starts)) == Reopened(token, minInterval, clock);
  }

  lemma LaterMoves(token: Option<string>, minInterval: real, clock: real)
    requires minInterval > 0.0
    ensures var s2 := Next(Next(Reopened(token, minInterval, clock), Tick(clock + minInterval)), WakeFromSleep(2));
            var s4 := Next(Next(s2, Fetched(2, "later", Starts)), SendDone(2));
            Next(Next(s4, AckArrives), WakeOnFuture(1, Starts)).stuck == Some(Stuck(1, 1))
  {
    var s0 := Reopened(token, minInterval, clock);
    var now := clock + minInterval;
    var s2 := s0.(clock := now, callers := s0.callers[2 := Caller(Refresh, Fetching(1, 0), 0)]);
    assert Next(Next(s0, Tick(now)), WakeFromSleep(2)) == s2;
    var s3 := s2.(m := s2.m.(token := Some("later"), lastRefreshAt := Some(now)),
                  frames := s2.frames + [Frame(1, 2, "later", now, true, 0)],
                  callers := s2.callers[2 := Caller(Refresh, Sending(1), 0)]);
    assert Next(s2, Fetched(2, "later", Starts)) == s3;
    var s4 := s3.(callers := s3.callers[2 := Caller(Refresh, Awaiting(1), 3)], turns := 4);
    assert Next(s3, SendDone(2)) == s4;
    var s5 := s4.(m := s4.m.(futures := [Acked, Acked]));
    assert Next(s4, AckArrives) == s5;
    assert MayWake(s5, 1);
  }

  lemma SixMoves(s: System, m1: Move, m2: Move, m3: Move, m4: Move, m5: Move, m6: Move)
    ensures NextAll(s, [m1, m2, m3, m4, m5, m6]) == Next(Next(Next(Next(Next(Next(s, m1), m2), m3), m4), m5), m6)
  {
    hide Next;
    FiveMoves(s, m1, m2, m3, m4, m5);
    assert [m1, m2, m3, m4, m5, m6][..5] == [m1, m2, m3, m4, m5];
  }

  lemma FiveMoves(s: System, m1: Move, m2: Move, m3: Move, m4: Move, m5: Move)
    ensures NextAll(s, [m1, m2, m3, m4, m5]) == Next(Next(Next(Next(Next(s, m1), m2), m3), m4), m5)
  {
    hide Next;
    var all := [m1, m2, m3, m4, m5];
    assert all[..4][..3] == all[..3] && all[..3][..2] == all[..2] && all[..2][..1] == all[..1] && all[..1][..0] == [];
    assert NextAll(s, all[..1]) == Next(s, m1);
    assert NextAll(s, all[..2]) == Next(Next(s, m1), m2);
    assert NextAll(s, all[..3]) == Next(Next(Next(s, m1), m2), m3);
  }

  // ---------------------------------------------------------------- refresh spacing

  // Whatever acks, errors and concurrent triggers arrive, a refresh frame leaves at least the
  // effective interval after every earlier one, the interval being computed from the failures
  // that stood when it started; and so at least min(300, min_interval) after it.
  lemma RefreshesAreSpaced(
      token: Option<string>, fetches: bool, minInterval: real, clock: real, moves: seq<Move>, i: nat, j: nat)
    requires var s := NextAll(Start(token, fetches, minInterval, clock), moves);
             i < j < |s.frames| && s.frames[i].refresh && s.frames[j].refresh
    ensures var s := NextAll(Start(token, fetches, minInterval, clock), moves);
            && s.frames[j].at - s.frames[i].at >= EffectiveInterval(minInterval, s.frames[j].since)
            && s.frames[j].at - s.frames[i].at >= MinReal(MAX_REFRESH_BACKOFF, minInterval)
  {
    var s := NextAll(Start(token, fetches, minInterval, clock), moves);
    Reachable(token, fetches, minInterval, clock, moves);
    hide NextAll, Start, Claims, FramesOk, Escalations, EffectiveInterval;
    assert s.frames[j].at >= s.frames[i].at;
    IntervalAtLeast(minInterval, s.frames[j].since);
  }

  lemma IntervalAtLeast(minInterval: real, failures: nat)
    ensures minInterval >= 0.0 ==>
              EffectiveInterval(minInterval, failures) >= MinReal(MAX_REFRESH_BACKOFF, minInterval)
  {
    if minInterval >= 0.0 && failures > 0 {
      Pow2Positive(failures);
      Grow(minInterval, Pow2(failures));
    }
  }

  lemma Grow(a: real, p: real)
    requires a >= 0.0 && p >= 1.0
    ensures a * p >= a
  {
    assert a * (p - 1.0) >= 0.0;
  }

  // The auth errors that have arrived since the last ack.
  function ErrorsSinceAck(moves: seq<Move>): nat {
    if moves == [] then 0
    else
      var earlier := ErrorsSinceAck(moves[..|moves| - 1]);
      match moves[|moves| - 1]
      case AckArrives => 0
      case ErrorArrives => earlier + 1
      case _ => earlier
  }

  lemma FailuresStep(s: System, move: Move)
    ensures s.stuck.Some? ==> Next(s, move).stuck.Some?
    ensures s.stuck.None? ==>
              Next(s, move).m.failures ==
              (match move case AckArrives => 0 case ErrorArrives => s.m.failures + 1 case _ => s.m.failures)
  {
    hide Earliest;
  }

  lemma {:induction false} FailuresAreErrorsSinceAck(
      token: Option<string>, fetches: bool, minInterval: real, clock: real, moves: seq<Move>)
    ensures var s := NextAll(Start(token, fetches, minInterval, clock), moves);
            s.stuck.None? ==> s.m.failures == ErrorsSinceAck(moves)
  {
    if moves != [] {
      hide Next, Start;
      FailuresAreErrorsSinceAck(token, fetches, minInterval, clock, moves[..|moves| - 1]);
      FailuresStep(NextAll(Start(token, fetches, minInterval, clock), moves[..|moves| - 1]), moves[|moves| - 1]);
    }
  }

  // Some refresh that holds claim `f`, or has sent its frame, computed its floor from `since`.
  ghost predicate PacedBy(s: System, f: nat, since: nat) {
    || (exists o: nat :: o < |s.callers| && Paces(s.callers[o].pc, f, since))
    || (exists i: nat :: i < |s.frames| && s.frames[i].refresh && s.frames[i].f == f && s.frames[i].since == since)
  }

  predicate Paces(pc: Pc, f: nat, since: nat) {
    (pc.Sleeping? || pc.Fetching?) && pc.f == f && pc.since == since
  }

  // Move `k` of the run claimed future `f` while `since` errors stood.
  ghost predicate ClaimedAt(start: System, moves: seq<Move>, k: nat, f: nat, since: nat) {
    k < |moves| && |NextAll(start, moves[..k]).m.futures| == f
    && NextAll(start, moves[..k + 1]).m.pending == Some(f)
    && NextAll(start, moves[..k]).m.failures == since && NextAll(start, moves[..k]).stuck.None?
  }

  // What one caller's move can do to the callers and frames.
  ghost predicate Touches(s: System, s': System, o: nat) {
    && o < |s.callers| && |s'.callers| == |s.callers|
    && (forall x: nat | x < |s.callers| && x != o :: s'.callers[x] == s.callers[x])
    && (s'.frames == s.frames || (|s'.frames| == |s.frames| + 1 && s'.frames[..|s.frames|] == s.frames))
  }

  // Nothing new is paced by this move, except a claim made by it.
  ghost predicate PacesNothingNew(s: System, s': System, o: nat)
    requires o < |s.callers| && o < |s'.callers|
  {
    && (forall f, since | Paces(s'.callers[o].pc, f, since) ::
          Paces(s.callers[o].pc, f, since)
          || (f == |s.m.futures| && since == s.m.failures && s'.m.pending == Some(f)))
    && (|s'.frames| == |s.frames| + 1 && s'.frames[|s.frames|].refresh ==>
          Paces(s.callers[o].pc, s'.frames[|s.frames|].f, s'.frames[|s.frames|].since))
  }

  lemma TouchIsPaced(s: System, s': System, o: nat, f: nat, since: nat)
    requires Touches(s, s', o) && PacesNothingNew(s, s', o) && PacedBy(s', f, since)
    ensures PacedBy(s, f, since)
            || (f == |s.m.futures| && since == s.m.failures && s'.m.pending == Some(f))
  {
    hide Paces;
    if x: nat :| x < |s'.callers| && Paces(s'.callers[x].pc, f, since) {
      assert x != o ==> Paces(s.callers[x].pc, f, since);
    } else {
      var i: nat :| i < |s'.frames| && s'.frames[i].refresh && s'.frames[i].f == f && s'.frames[i].since == since;
      assert i < |s.frames| ==> s.frames[i] == s'.frames[i];
    }
  }

  lemma CallerMoveTouches(s: System, move: Move, o: nat)
    requires o < |s.callers|
    requires (move.Begin? || move.WakeFromSleep? || move.Fetched? || move.FetchFailed?
              || move.SendDone? || move.SendFailed? || move.WakeOnFuture? || move.Cancel?) && move.o == o
    ensures Touches(s, Next(s, move), o) && PacesNothingNew(s, Next(s, move), o)
  {
    hide Earliest, Settle;
  }

  lemma OtherMovePaces(s: System, move: Move, f: nat, since: nat)
    requires move.Tick? || move.Spawn? || move.AckArrives? || move.ErrorArrives? || move.Close? || move.UpdateToken?
    requires PacedBy(Next(s, move), f, since)
    ensures PacedBy(s, f, since)
  {
    hide Settle;
    var s' := Next(s, move);
    if x: nat :| x < |s'.callers| && Paces(s'.callers[x].pc, f, since) {
      assert x < |s.callers| && Paces(s.callers[x].pc, f, since);
    }
  }

  lemma PacedStep(s: System, move: Move, f: nat, since: nat)
    requires PacedBy(Next(s, move), f, since)
    ensures PacedBy(s, f, since)
            || (f == |s.m.futures| && since == s.m.failures && Next(s, move).m.pending == Some(f) && s.stuck.None?)
  {
    if s.stuck.Some? {
      hide PacedBy;
    } else if move.Tick? || move.Spawn? || move.AckArrives? || move.ErrorArrives? || move.Close? || move.UpdateToken? {
      hide Next, PacedBy;
      OtherMovePaces(s, move, f, since);
    } else if move.o < |s.callers| {
      hide Next, PacedBy, Touches, PacesNothingNew;
      CallerMoveTouches(s, move, move.o);
      TouchIsPaced(s, Next(s, move), move.o, f, since);
    } else {
      hide PacedBy;
    }
  }

  lemma {:induction false} PacedSinceClaim(start: System, moves: seq<Move>, f: nat, since: nat) returns (k: nat)
    requires start.callers == [] && start.frames == []
    requires PacedBy(NextAll(start, moves), f, since)
    ensures ClaimedAt(start, moves, k, f, since)
  {
    hide Next, PacedBy;
    k := 0;
    if moves == [] {
      NothingPaced(start, f, since);
      assert false;
    } else {
      var n := |moves| - 1;
      var s := NextAll(start, moves[..n]);
      PacedStep(s, moves[n], f, since);
      if PacedBy(s, f, since) {
        k := PacedSinceClaim(start, moves[..n], f, since);
        assert moves[..n][..k] == moves[..k] && moves[..n][..k + 1] == moves[..k + 1];
      } else {
        k := n;
        assert moves[..n + 1] == moves;
      }
    }
  }

  lemma NothingPaced(start: System, f: nat, since: nat)
    requires start.callers == [] && start.frames == []
    ensures !PacedBy(start, f, since)
  {
  }

  // The interval after `errors` errors: the floor itself, and with errors the floor doubled once
  // for each of them, up to five minutes.
  function Backoff300(minInterval: real, errors: nat, pow: nat -> real): real {
    if errors == 0 then minInterval else MinReal(300.0, Product(minInterval, pow(errors)))
  }

  lemma IntervalDoubles(minInterval: real, errors: nat, pow: nat -> real)
    requires Doubling(pow)
    ensures EffectiveInterval(minInterval, errors) == Backoff300(minInterval, errors, pow)
  {
    DoublingIsPow2(pow, errors);
    IntervalIs(minInterval, errors);
    hide EffectiveInterval, Product;
  }

  lemma IntervalIs(minInterval: real, errors: nat)
    ensures EffectiveInterval(minInterval, errors)
         == if errors == 0 then minInterval else MinReal(300.0, Product(minInterval, Pow2(errors)))
  {
  }

  // A refresh frame leaves at least min(300, min_interval * 2^errors) after every earlier one, for
  // the auth errors that had arrived, with no ack since, when its caller took the slot; with no
  // error it leaves at least min_interval after it.
  lemma RefreshBacksOffPerError(
      token: Option<string>, fetches: bool, minInterval: real, clock: real, moves: seq<Move>, i: nat, j: nat,
      pow: nat -> real)
    returns (k: nat)
    requires Doubling(pow)
    requires var s := NextAll(Start(token, fetches, minInterval, clock), moves);
             i < j < |s.frames| && s.frames[i].refresh && s.frames[j].refresh
    ensures k < |moves|
    ensures var start := Start(token, fetches, minInterval, clock);
            var s := NextAll(start, moves);
            var errors := ErrorsSinceAck(moves[..k]);
            && ClaimedAt(start, moves, k, s.frames[j].f, errors)
            && (errors == 0 ==> s.frames[j].at - s.frames[i].at >= minInterval)
            && (errors > 0 ==> s.frames[j].at - s.frames[i].at >= MinReal(300.0, Product(minInterval, pow(errors))))
  {
    hide *;
    var start := Start(token, fetches, minInterval, clock);
    var frame := NextAll(start, moves).frames[j];
    RefreshesAreSpaced(token, fetches, minInterval, clock, moves, i, j);
    StartIsEmpty(token, fetches, minInterval, clock);
    FrameIsPaced(NextAll(start, moves), j);
    k := PacedSinceClaim(start, moves, frame.f, frame.since);
    ClaimBounds(start, moves, k, frame.f, frame.since);
    FailuresAreErrorsSinceAck(token, fetches, minInterval, clock, moves[..k]);
    IntervalDoubles(minInterval, ErrorsSinceAck(moves[..k]), pow);
    BackoffCases(minInterval, ErrorsSinceAck(moves[..k]), pow);
  }

  lemma BackoffCases(minInterval: real, errors: nat, pow: nat -> real)
    ensures errors == 0 ==> Backoff300(minInterval, errors, pow) == minInterval
    ensures errors > 0 ==> Backoff300(minInterval, errors, pow) == MinReal(300.0, Product(minInterval, pow(errors)))
  {
  }

  // And it does not wait longer: in every run a refresh that sleeps will wake exactly at the last
  // refresh plus that interval.
  lemma RefreshSleepsToTheFloor(
      token: Option<string>, fetches: bool, minInterval: real, clock: real, moves: seq<Move>, o: nat,
      pow: nat -> real)
    returns (k: nat)
    requires Doubling(pow)
    requires var s := NextAll(Start(token, fetches, minInterval, clock), moves);
             o < |s.callers| && s.callers[o].pc.Sleeping?
    ensures k < |moves|
    ensures var start := Start(token, fetches, minInterval, clock);
            var s := NextAll(start, moves);
            var errors := ErrorsSinceAck(moves[..k]);
            && ClaimedAt(start, moves, k, s.callers[o].pc.f, errors) && s.m.lastRefreshAt.Some?
            && (errors == 0 ==> s.callers[o].pc.until == s.m.lastRefreshAt.value + minInterval)
            && (errors > 0 ==>
                  s.callers[o].pc.until == s.m.lastRefreshAt.value + MinReal(300.0, Product(minInterval, pow(errors))))
  {
    hide *;
    var start := Start(token, fetches, minInterval, clock);
    var s := NextAll(start, moves);
    var pc := s.callers[o].pc;
    Reachable(token, fetches, minInterval, clock, moves);
    SleeperIs(s, o);
    StartIsEmpty(token, fetches, minInterval, clock);
    k := PacedSinceClaim(start, moves, pc.f, pc.since);
    ClaimBounds(start, moves, k, pc.f, pc.since);
    FailuresAreErrorsSinceAck(token, fetches, minInterval, clock, moves[..k]);
    IntervalDoubles(minInterval, ErrorsSinceAck(moves[..k]), pow);
    BackoffCases(minInterval, ErrorsSinceAck(moves[..k]), pow);
  }

  lemma SleeperIs(s: System, o: nat)
    requires Inv(s) && o < |s.callers| && s.callers[o].pc.Sleeping?
    ensures s.m.lastRefreshAt.Some?
    ensures s.callers[o].pc.until
         == s.m.lastRefreshAt.value + EffectiveInterval(s.m.minInterval, s.callers[o].pc.since)
    ensures PacedBy(s, s.callers[o].pc.f, s.callers[o].pc.since)
  {
    hide Claims, FramesOk, Escalations, EffectiveInterval;
    assert Paces(s.callers[o].pc, s.callers[o].pc.f, s.callers[o].pc.since);
  }

  lemma ClaimBounds(start: System, moves: seq<Move>, k: nat, f: nat, since: nat)
    requires ClaimedAt(start, moves, k, f, since)
    ensures k < |moves| && NextAll(start, moves[..k]).m.failures == since
    ensures NextAll(start, moves[..k]).stuck.None?
  {
    hide NextAll;
  }

  lemma StartIsEmpty(token: Option<string>, fetches: bool, minInterval: real, clock: real)
    ensures var start := Start(token, fetches, minInterval, clock);
            start.callers == [] && start.frames == []
  {
  }

  lemma FrameIsPaced(s: System, j: nat)
    requires j < |s.frames| && s.frames[j].refresh
    ensures PacedBy(s, s.frames[j].f, s.frames[j].since)
  {
  }

  // Whatever frame leaves carries the stored token, at the present time, for the claim that holds
  // the slot; a refresh is stamped with that time.
  lemma FrameCarriesTheStoredToken(s: System, move: Move)
    requires Claims(s) && Next(s, move).frames != s.frames
    ensures var s' := Next(s, move);
            && |s'.frames| == |s.frames| + 1 && s'.frames[..|s.frames|] == s.frames
            && var frame := s'.frames[|s.frames|];
               && s'.m.token == Some(frame.token) && s'.m.pending == Some(frame.f) && frame.at == s.clock
               && OwnerOf(s', frame.owner, frame.f)
               && (frame.refresh ==> s'.m.lastRefreshAt == Some(frame.at))
  {
    hide Earliest, Settle, Claims;
    if move.Fetched? && move.o < |s.callers| && s.callers[move.o].pc.Fetching? {
      OwnedMeansOwner(s, move.o);
      SoleOwner(s, move.o, s.callers[move.o].pc.f);
    }
  }

  // An auth error is reported as unsolicited exactly when no claimed future is open, so an error
  // that answers our own frame never triggers another refresh.
  lemma UnsolicitedIffNothingInFlight(m: Manager)
    requires m.pending.Some? ==> m.pending.value < |m.futures|
    ensures OnError(m).1 <==> m.pending.None? || m.futures[m.pending.value] != Open
  {
  }
}

/** The manager as the object the client holds, one method per synchronous segment. */
module AuthObject {
  import opened Prelude
  import opened Backoff
  import opened AuthSpec

  class AuthManager {
    const fetches: bool
    const minInterval: real
    var token: Option<string>
    var pending: Option<nat>
    var futures: seq<Future>
    var lastRefreshAt: Option<real>
    var failures: nat

    ghost function View(): Manager
      reads this
    {
      Manager(token, fetches, minInterval, pending, futures, lastRefreshAt, failures)
    }

    ghost predicate Valid()
      reads this
    {
      pending.Some? ==> pending.value < |futures|
    }

    constructor (token: Option<string>, fetches: bool, minInterval: real, clock: real)
      ensures Valid() && View() == Start(token, fetches, minInterval, clock).m
    {
      this.token, this.fetches, this.minInterval := token, fetches, minInterval;
      pending, futures, lastRefreshAt, failures := None, [], None, 0;
    }

    method UpdateToken(t: string)
      requires Valid()
      modifies this`token
      ensures Valid() && View() == Store(old(View()), t)
    {
      token := Some(t);
    }

    // Take the slot, if it is free.
    method TryClaim() returns (f: Option<nat>)
      requires Valid()
      modifies this`pending, this`futures
      ensures Valid()
      ensures f.Some? <==> old(pending).None?
      ensures View() == if f.Some? then Claim(old(View())) else old(View())
      ensures f.Some? ==> f == pending
    {
      if pending.Some? {
        return None;
      }
      f := Some(|futures|);
      pending := f;
      futures := futures + [Open];
    }

    method SettlePending(with: Future) returns (done: bool)
      requires Valid()
      modifies this`futures
      ensures Valid() && View() == Settle(old(View()), with)
      ensures done <==> old(pending).Some? && old(futures)[old(pending).value] == Open
    {
      done := pending.Some? && futures[pending.value] == Open;
      if done {
        futures := futures[pending.value := with];
      }
    }

    // The except and finally clauses of the claim's owner.
    method Leave(why: Option<Failure>)
      requires Valid()
      modifies this`pending, this`futures
      ensures Valid()
      ensures View() == Release(if why.Some? then Settle(old(View()), Failed(why.value)) else old(View()))
    {
      if why.Some? {
        var done := SettlePending(Failed(why.value));
      }
      pending := None;
    }

    method PowerOfTwo(n: nat) returns (p: real)
      ensures p == Pow2(n)
    {
      p := 1.0;
      for i := 0 to n
        invariant p == Pow2(i)
      {
        p := 2.0 * p;
      }
    }

    // How long a refresh that starts at `now` must sleep.
    method FloorSleep(now: real, ghost pow: nat -> real) returns (sleep: real)
      requires Doubling(pow)
      ensures lastRefreshAt.None? ==> sleep == 0.0
      ensures lastRefreshAt.Some? ==>
                var interval :=
                  if failures == 0 then minInterval else MinReal(300.0, Product(minInterval, pow(failures)));
                var earliest := lastRefreshAt.value + interval;
                sleep == if now < earliest then earliest - now else 0.0
      ensures sleep == if now < Earliest(View(), now) then Earliest(View(), now) - now else 0.0
    {
      if lastRefreshAt.None? {
        return 0.0;
      }
      var interval := minInterval;
      if failures > 0 {
        var p := PowerOfTwo(failures);
        interval := MinReal(MAX_REFRESH_BACKOFF, minInterval * p);
      }
      IntervalDoubles(minInterval, failures, pow);
      IntervalIs(minInterval, failures);
      var earliest := lastRefreshAt.value + interval;
      sleep := if now < earliest then earliest - now else 0.0;
    }

    method StampRefresh(now: real, t: string)
      requires Valid()
      modifies this`token, this`lastRefreshAt
      ensures Valid() && View() == Store(old(View()), t).(lastRefreshAt := Some(now))
    {
      token := Some(t);
      lastRefreshAt := Some(now);
    }

    method OnAuthAck()
      requires Valid()
      modifies this`failures, this`futures
      ensures Valid() && View() == OnAck(old(View()))
    {
      failures := 0;
      var done := SettlePending(Acked);
    }

    method OnAuthError() returns (unsolicited: bool)
      requires Valid()
      modifies this`failures, this`futures
      ensures Valid() && (View(), unsolicited) == OnError(old(View()))
    {
      failures := failures + 1;
      var settled := SettlePending(Failed(Rejected));
      unsolicited := !settled;
    }

    method Close()
      requires Valid()
      modifies this`futures
      ensures Valid() && View() == OnClose(old(View()))
    {
      var done := SettlePending(Failed(NotConnected));
    }
  }
}
