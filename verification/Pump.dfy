/**
 * The read pump, the consumer, the recovery timer and callers from outside, interleaved over one
 * engine and one pausable queue. A move is one atomic segment between suspension points.
 */
module PumpSpec {
  import opened Prelude
  import opened RecoverySpec
  import opened RecoveryRuns
  import opened DeliverySpec
  import RecoveryTimers

  datatype Delivered =
    | MessageItem(id: nat)
    | GapItem(channel: string, lastPos: string)
    | PossibleGapItem(channel: string)

  // What arrives on the wire, as far as delivery and recovery are concerned.
  datatype WireFrame =
    | LiveFrame(channel: string, pos: Option<string>, id: nat)
    | ReplayFrame(channel: string, pos: Option<string>, id: nat)
    | HistoryFrame(channel: string, pos: Option<string>, id: nat)
    | GapFrame(channel: string, lastPos: string)
    | ReplayCompleteFrame(channel: string)
    | HistoryEndFrame(channel: string)
    | NotAvailableFrame(resubscribed: seq<string>)
    | RecoveryErrorFrame(channel: string, code: string)
    | NoReplayFrame(channels: seq<string>)
    | OtherFrame

  // The steps of dispatching a frame.
  datatype Task = Notify(event: Event) | Deliver(item: Delivered)

  function PossibleGapTasks(channels: seq<string>): seq<Task> {
    seq(|channels|, i requires 0 <= i < |channels| => Deliver(PossibleGapItem(channels[i])))
  }

  function Dispatch(frame: WireFrame): seq<Task> {
    match frame
    case LiveFrame(c, p, id) => [Notify(NotePos(c, p)), Deliver(MessageItem(id))]
    case ReplayFrame(c, p, id) => [Notify(NotePos(c, p)), Notify(ReplayMessage(c)), Deliver(MessageItem(id))]
    case HistoryFrame(c, p, id) => [Notify(NotePos(c, p)), Notify(HistoryMessage(c)), Deliver(MessageItem(id))]
    case GapFrame(c, p) => [Deliver(GapItem(c, p)), Notify(Gap(c, p))]
    case ReplayCompleteFrame(c) => [Notify(ReplayComplete(c))]
    case HistoryEndFrame(c) => [Notify(HistoryComplete(c))]
    case NotAvailableFrame(cs) => [Notify(NotAvailable(cs))] + PossibleGapTasks(cs)
    case RecoveryErrorFrame(c, code) => [Notify(RecoveryFailure(c, code))]
    case NoReplayFrame(cs) => PossibleGapTasks(cs)
    case OtherFrame => []
  }

  // `run` is the engine's history; `stalls` counts the puts that suspended. `blockedAt` and
  // `stallsAt` record both after every call on the engine.
  datatype World = World(
    init: Engine,
    run: seq<Step>,
    queue: Queue<Delivered>,
    todo: seq<Task>,
    blocked: bool,
    put: seq<Delivered>,
    got: seq<Output<Delivered>>,
    stalls: nat,
    blockedAt: seq<bool>,
    stallsAt: seq<nat>)

  function Start(clientId: string, floor: real, window: real, maxsize: int, policy: Policy): World {
    World(NewEngine(clientId, floor, window), [], EmptyQueue(maxsize, true, policy), [], false, [], [], 0, [], [])
  }

  function EngineOf(w: World): Engine {
    Before(w.init, w.run, |w.run|)
  }

  predicate TimeOk(w: World, now: real) {
    w.run == [] || w.run[|w.run| - 1].now <= now
  }

  function Call(w: World, now: real, ev: Event): World {
    var (post, actions) := Apply(EngineOf(w), now, ev);
    w.(run := w.run + [Step(now, ev, actions, post)],
       blockedAt := w.blockedAt + [w.blocked],
       stallsAt := w.stallsAt + [w.stalls])
  }

  function PutNow(w: World, item: Delivered): World
    requires !IsFull(w.queue) && w.queue.canPause && w.todo != []
  {
    w.(queue := Put(w.queue, item).value, put := w.put + [item], todo := w.todo[1..])
  }

  datatype Move =
    | Receive(frame: WireFrame)           // the pump reads the next frame
    | Work(now: real)                     // the pump runs its next task
    | Resume(now: real)                   // a suspended put finds room
    | Cancel(now: real)                   // the pump is cancelled inside a suspended put
    | Consume                             // the consumer gets one item
    | Outside(now: real, event: Event)    // the timer, a caller or the supervisor calls the engine

  // The calls made by the timer, by `history` and by the supervisor.
  predicate FromOutside(ev: Event) {
    ev.Due? || ev.HistoryRequest? || ev.BuildReconnect? || ev.MarkConnected? || ev.Disconnect?
  }

  // A move that is not enabled leaves the world as it is. Between two frames a cancellation has
  // nothing to cut off; while a frame is dispatched the pump suspends only inside a put.
  function Next(w: World, m: Move): World {
    match m
    case Receive(f) => if w.todo == [] && !w.blocked then w.(todo := Dispatch(f)) else w
    case Work(now) =>
      if w.todo == [] || w.blocked || !TimeOk(w, now) then w
      else (
        match w.todo[0]
        case Notify(ev) => Call(w.(todo := w.todo[1..]), now, ev)
        case Deliver(item) =>
          if IsFull(w.queue)
          then Call(w.(blocked := true, stalls := w.stalls + 1), now, Backpressure(true))
          else if w.queue.canPause then PutNow(w, item) else w)
    case Resume(now) =>
      if w.blocked && w.todo != [] && w.todo[0].Deliver? && !IsFull(w.queue) && w.queue.canPause && TimeOk(w, now)
      then Call(PutNow(w, w.todo[0].item).(blocked := false), now, Backpressure(false))
      else w
    case Cancel(now) =>
      if w.blocked && TimeOk(w, now) then Call(w.(blocked := false, todo := []), now, Backpressure(false)) else w
    case Consume =>
      (match Get(w.queue)
       case None => w
       case Some(r) => w.(queue := r.1, got := w.got + [r.0]))
    case Outside(now, ev) => if TimeOk(w, now) && FromOutside(ev) then Call(w, now, ev) else w
  }

  function NextAll(w: World, moves: seq<Move>): World {
    if moves == [] then w else Next(NextAll(w, moves[..|moves| - 1]), moves[|moves| - 1])
  }

  // ---------------------------------------------------------------- the invariant

  function LedgerOf(w: World): Ledger<Delivered> {
    Ledger(w.queue, w.put, w.got, 0)
  }

  ghost predicate PauseInv(w: World) {
    && IsRun(w.init, w.run)
    && |w.blockedAt| == |w.run| && |w.stallsAt| == |w.run|
    && (forall k | 0 <= k < |w.run| ::
          w.blockedAt[k] == w.run[k].post.paused && w.stallsAt[k] == w.run[k].post.episodes)
    && EngineOf(w).paused == w.blocked && EngineOf(w).episodes == w.stalls
  }

  // No dispatched task is itself a back-pressure call.
  predicate PlainTasks(todo: seq<Task>) {
    forall i | 0 <= i < |todo| :: todo[i].Notify? ==> !todo[i].event.Backpressure?
  }

  ghost predicate WorldInv(w: World) {
    && PauseInv(w) && PausableLaw(LedgerOf(w)) && PlainTasks(w.todo)
    && (w.blocked ==> w.todo != [] && w.todo[0].Deliver?)
  }

  lemma CallKeepsPauseInv(w: World, now: real, ev: Event, blocked: bool, stalls: nat)
    requires PauseInv(w) && TimeOk(w, now)
    requires blocked == (if ev.Backpressure? then ev.on else w.blocked)
    requires stalls == w.stalls + (if ev == Backpressure(true) && !w.blocked then 1 else 0)
    ensures PauseInv(Call(w.(blocked := blocked, stalls := stalls), now, ev))
  {
    hide Apply, IsRun;
    RunExtends(w.init, w.run, now, ev);
    ApplyKeepsConfiguration(EngineOf(w), now, ev);
  }

  lemma PutKeepsLaw(w: World, item: Delivered)
    requires PausableLaw(LedgerOf(w)) && !IsFull(w.queue) && w.todo != []
    ensures PausableLaw(LedgerOf(PutNow(w, item)))
  {
    PausableStep(LedgerOf(w), OpPut(item));
  }

  lemma DispatchIsPlain(frame: WireFrame)
    ensures PlainTasks(Dispatch(frame))
  {
  }

  lemma WorkKeepsInv(w: World, now: real)
    requires WorldInv(w)
    ensures WorldInv(Next(w, Work(now)))
  {
    hide PauseInv, PausableLaw, Apply;
    if w.todo != [] && !w.blocked && TimeOk(w, now) {
      match w.todo[0]
      case Notify(ev) =>
        PauseIgnoresTasks(w, w.(todo := w.todo[1..]));
        CallKeepsPauseInv(w.(todo := w.todo[1..]), now, ev, w.blocked, w.stalls);
      case Deliver(item) =>
        if IsFull(w.queue) {
          CallKeepsPauseInv(w, now, Backpressure(true), true, w.stalls + 1);
        } else {
          assert w.queue.canPause by { LawIsPausable(w); }
          PutKeepsLaw(w, item);
          PauseIgnoresTasks(w, PutNow(w, item));
        }
    }
  }

  lemma LawIsPausable(w: World)
    requires PausableLaw(LedgerOf(w))
    ensures w.queue.canPause && w.queue.dropped == 0
  {
  }

  lemma PauseIgnoresTasks(w: World, w': World)
    requires PauseInv(w) && w'.init == w.init && w'.run == w.run && w'.blocked == w.blocked
    requires w'.stalls == w.stalls && w'.blockedAt == w.blockedAt && w'.stallsAt == w.stallsAt
    ensures PauseInv(w')
  {
    hide IsRun;
  }

  lemma ResumeKeepsInv(w: World, now: real)
    requires WorldInv(w)
    ensures WorldInv(Next(w, Resume(now)))
  {
    hide PauseInv, PausableLaw, Apply;
    if w.blocked && w.todo[0].Deliver? && !IsFull(w.queue) && w.queue.canPause && TimeOk(w, now) {
      var item := w.todo[0].item;
      PutKeepsLaw(w, item);
      PauseIgnoresTasks(w, PutNow(w, item));
      CallKeepsPauseInv(PutNow(w, item), now, Backpressure(false), false, w.stalls);
    }
  }

  lemma CancelKeepsInv(w: World, now: real)
    requires WorldInv(w)
    ensures WorldInv(Next(w, Cancel(now)))
  {
    hide PauseInv, PausableLaw, Apply;
    if w.blocked && TimeOk(w, now) {
      PauseIgnoresTasks(w, w.(todo := []));
      CallKeepsPauseInv(w.(todo := []), now, Backpressure(false), false, w.stalls);
    }
  }

  lemma ConsumeKeepsInv(w: World)
    requires WorldInv(w)
    ensures WorldInv(Next(w, Consume))
  {
    hide PauseInv, PausableLaw;
    LawIsPausable(w);
    PausableStep(LedgerOf(w), OpGet);
    PauseIgnoresTasks(w, Next(w, Consume));
    LawIgnoresWaiting(LedgerOf(w), Exec(LedgerOf(w), OpGet));
  }

  lemma LawIgnoresWaiting(h: Ledger<Delivered>, h': Ledger<Delivered>)
    requires PausableLaw(h')
    ensures PausableLaw(h'.(waiting := 0))
  {
  }

  lemma OutsideKeepsInv(w: World, now: real, ev: Event)
    requires WorldInv(w)
    ensures WorldInv(Next(w, Outside(now, ev)))
  {
    hide PauseInv, PausableLaw, Apply;
    if TimeOk(w, now) && FromOutside(ev) {
      CallKeepsPauseInv(w, now, ev, w.blocked, w.stalls);
    }
  }

  lemma {:induction false} ReachableWorld(
      clientId: string, floor: real, window: real, maxsize: int, policy: Policy, moves: seq<Move>)
    ensures WorldInv(NextAll(Start(clientId, floor, window, maxsize, policy), moves))
  {
    var start := Start(clientId, floor, window, maxsize, policy);
    if moves == [] {
      assert start.put[0..] == [];
    } else {
      hide WorldInv, Next, Start;
      var w, m := NextAll(start, moves[..|moves| - 1]), moves[|moves| - 1];
      ReachableWorld(clientId, floor, window, maxsize, policy, moves[..|moves| - 1]);
      match m
      case Receive(f) => ReceiveKeepsInv(w, f);
      case Work(now) => WorkKeepsInv(w, now);
      case Resume(now) => ResumeKeepsInv(w, now);
      case Cancel(now) => CancelKeepsInv(w, now);
      case Consume => ConsumeKeepsInv(w);
      case Outside(now, ev) => OutsideKeepsInv(w, now, ev);
    }
  }

  lemma ReceiveKeepsInv(w: World, f: WireFrame)
    requires WorldInv(w)
    ensures WorldInv(Next(w, Receive(f)))
  {
    hide PauseInv, PausableLaw, Dispatch;
    DispatchIsPlain(f);
    PauseIgnoresTasks(w, w.(todo := Dispatch(f)));
  }

  // ---------------------------------------------------------------- gaps reach the consumer first

  datatype GapMark = GapMark(channel: string, lastPos: string)

  function HeardGaps(run: seq<Step>): seq<GapMark> {
    if run == [] then []
    else
      var ev := run[|run| - 1].event;
      HeardGaps(run[..|run| - 1]) + if ev.Gap? then [GapMark(ev.channel, ev.lastPos)] else []
  }

  function QueuedGaps(put: seq<Delivered>): seq<GapMark> {
    if put == [] then []
    else
      var item := put[|put| - 1];
      QueuedGaps(put[..|put| - 1]) + if item.GapItem? then [GapMark(item.channel, item.lastPos)] else []
  }

  // The gap that has been queued and is about to be told to the engine.
  function Owed(todo: seq<Task>): seq<GapMark> {
    if todo != [] && todo[0].Notify? && todo[0].event.Gap?
    then [GapMark(todo[0].event.channel, todo[0].event.lastPos)] else []
  }

  // A gap is told to the engine straight after it is queued, and every queued gap is.
  predicate GapsFollowItems(todo: seq<Task>) {
    && (forall i | 0 < i < |todo| && todo[i].Notify? && todo[i].event.Gap? ::
          i == 1 && todo[0] == Deliver(GapItem(todo[1].event.channel, todo[1].event.lastPos)))
    && (forall i | 0 <= i < |todo| && todo[i].Deliver? && todo[i].item.GapItem? ::
          i + 1 < |todo| && todo[i + 1] == Notify(Gap(todo[i].item.channel, todo[i].item.lastPos)))
  }

  // The gaps told to the engine, with the one about to be, are exactly those queued.
  ghost predicate GapsLaw(w: World) {
    && GapsFollowItems(w.todo)
    && QueuedGaps(w.put) == HeardGaps(w.run) + Owed(w.todo)
    && (w.blocked ==> Owed(w.todo) == [])
  }

  lemma HeardStep(run: seq<Step>, s: Step)
    ensures HeardGaps(run + [s]) ==
            HeardGaps(run) + if s.event.Gap? then [GapMark(s.event.channel, s.event.lastPos)] else []
  {
    assert (run + [s])[..|run|] == run;
  }

  lemma QueuedStep(put: seq<Delivered>, item: Delivered)
    ensures QueuedGaps(put + [item]) ==
            QueuedGaps(put) + if item.GapItem? then [GapMark(item.channel, item.lastPos)] else []
  {
    assert (put + [item])[..|put|] == put;
  }

  // Putting an item of the current frame.
  lemma PutKeepsGapsLaw(w: World, item: Delivered)
    requires GapsLaw(w) && w.todo != [] && w.todo[0] == Deliver(item) && !IsFull(w.queue) && w.queue.canPause
    ensures GapsLaw(PutNow(w, item).(blocked := false))
  {
    hide HeardGaps, QueuedGaps;
    QueuedStep(w.put, item);
    var heard := HeardGaps(w.run);
    assert heard + Owed(w.todo) == heard && heard + [] == heard;
  }

  // The call on the engine that the head task asks for.
  lemma TaskKeepsGapsLaw(w: World, now: real, ev: Event)
    requires GapsLaw(w) && !w.blocked && w.todo != [] && w.todo[0] == Notify(ev)
    ensures GapsLaw(Call(w.(todo := w.todo[1..]), now, ev))
  {
    hide HeardGaps, QueuedGaps, Apply;
    var (post, actions) := Apply(EngineOf(w), now, ev);
    HeardStep(w.run, Step(now, ev, actions, post));
    var heard := HeardGaps(w.run);
    assert Owed(w.todo[1..]) == [];
    assert heard + Owed(w.todo) + [] == heard + Owed(w.todo);
  }

  // Any other call.
  lemma CallKeepsGapsLaw(w: World, now: real, ev: Event)
    requires GapsLaw(w) && !ev.Gap?
    ensures GapsLaw(Call(w, now, ev))
  {
    hide HeardGaps, QueuedGaps, Apply;
    var (post, actions) := Apply(EngineOf(w), now, ev);
    HeardStep(w.run, Step(now, ev, actions, post));
    assert HeardGaps(w.run) + [] == HeardGaps(w.run);
  }

  lemma ReceiveKeepsGapsLaw(w: World, f: WireFrame)
    requires GapsLaw(w) && w.todo == []
    ensures GapsLaw(w.(todo := Dispatch(f)))
  {
    hide HeardGaps, QueuedGaps;
  }

  lemma WorkKeepsGapsLaw(w: World, now: real)
    requires GapsLaw(w)
    ensures GapsLaw(Next(w, Work(now)))
  {
    hide Call, HeardGaps, QueuedGaps;
    if w.todo != [] && !w.blocked && TimeOk(w, now) {
      match w.todo[0]
      case Notify(ev) => TaskKeepsGapsLaw(w, now, ev);
      case Deliver(item) =>
        if IsFull(w.queue) {
          CallKeepsGapsLaw(w.(blocked := true, stalls := w.stalls + 1), now, Backpressure(true));
        } else if w.queue.canPause {
          PutKeepsGapsLaw(w, item);
          assert PutNow(w, item).(blocked := false) == PutNow(w, item);
        }
    }
  }

  // A put that is cut off takes the rest of its frame with it, the gap as well as the call.
  lemma CancelKeepsGapsLaw(w: World, now: real)
    requires GapsLaw(w)
    ensures GapsLaw(Next(w, Cancel(now)))
  {
    hide Call, HeardGaps, QueuedGaps;
    if w.blocked && TimeOk(w, now) {
      assert HeardGaps(w.run) + [] == HeardGaps(w.run);
      CallKeepsGapsLaw(w.(blocked := false, todo := []), now, Backpressure(false));
    }
  }

  lemma NextKeepsGapsLaw(w: World, m: Move)
    requires GapsLaw(w)
    ensures GapsLaw(Next(w, m))
  {
    match m
    case Receive(f) =>
      hide GapsLaw, Dispatch;
      if w.todo == [] && !w.blocked { ReceiveKeepsGapsLaw(w, f); }
    case Work(now) =>
      hide GapsLaw, Next;
      WorkKeepsGapsLaw(w, now);
    case Resume(now) =>
      hide GapsLaw, Call;
      if w.blocked && w.todo != [] && w.todo[0].Deliver? && !IsFull(w.queue) && w.queue.canPause && TimeOk(w, now) {
        PutKeepsGapsLaw(w, w.todo[0].item);
        CallKeepsGapsLaw(PutNow(w, w.todo[0].item).(blocked := false), now, Backpressure(false));
      }
    case Cancel(now) =>
      hide GapsLaw, Next;
      CancelKeepsGapsLaw(w, now);
    case Consume => hide QueuedGaps, HeardGaps;
    case Outside(now, ev) =>
      hide GapsLaw, Call;
      if FromOutside(ev) { CallKeepsGapsLaw(w, now, ev); }
  }

  // In every run, cancellations included, the gaps put in the delivery queue are exactly the gaps
  // the engine has been told of, in the same order, followed by the one it is about to be told of:
  // the consumer learns of each loss no later than the replay that repairs it, and of no other.
  lemma {:induction false} GapsAreDeliveredFirst(
      clientId: string, floor: real, window: real, maxsize: int, policy: Policy, moves: seq<Move>)
    ensures var w := NextAll(Start(clientId, floor, window, maxsize, policy), moves);
            GapsLaw(w) && QueuedGaps(w.put) == HeardGaps(w.run) + Owed(w.todo) && |Owed(w.todo)| <= 1
  {
    var start := Start(clientId, floor, window, maxsize, policy);
    if moves == [] {
      assert GapsLaw(start);
    } else {
      hide GapsLaw, Next, Start;
      GapsAreDeliveredFirst(clientId, floor, window, maxsize, policy, moves[..|moves| - 1]);
      NextKeepsGapsLaw(NextAll(start, moves[..|moves| - 1]), moves[|moves| - 1]);
    }
    hide Start, NextAll, HeardGaps, QueuedGaps;
    assert GapsLaw(NextAll(start, moves));
  }

  // ---------------------------------------------------------------- every frame is carried out

  // What a received frame owes the consumer, and what it owes the engine.
  function ItemsOf(frame: WireFrame): seq<Delivered> {
    match frame
    case LiveFrame(_, _, id) => [MessageItem(id)]
    case ReplayFrame(_, _, id) => [MessageItem(id)]
    case HistoryFrame(_, _, id) => [MessageItem(id)]
    case GapFrame(c, p) => [GapItem(c, p)]
    case NotAvailableFrame(cs) => seq(|cs|, i requires 0 <= i < |cs| => PossibleGapItem(cs[i]))
    case NoReplayFrame(cs) => seq(|cs|, i requires 0 <= i < |cs| => PossibleGapItem(cs[i]))
    case _ => []
  }

  function EventsOf(frame: WireFrame): seq<Event> {
    match frame
    case LiveFrame(c, p, _) => [NotePos(c, p)]
    case ReplayFrame(c, p, _) => [NotePos(c, p), ReplayMessage(c)]
    case HistoryFrame(c, p, _) => [NotePos(c, p), HistoryMessage(c)]
    case GapFrame(c, p) => [Gap(c, p)]
    case ReplayCompleteFrame(c) => [ReplayComplete(c)]
    case HistoryEndFrame(c) => [HistoryComplete(c)]
    case NotAvailableFrame(cs) => [NotAvailable(cs)]
    case RecoveryErrorFrame(c, code) => [RecoveryFailure(c, code)]
    case _ => []
  }

  function OwedItems(todo: seq<Task>): seq<Delivered> {
    if todo == [] then []
    else (if todo[0].Deliver? then [todo[0].item] else []) + OwedItems(todo[1..])
  }

  function OwedEvents(todo: seq<Task>): seq<Event> {
    if todo == [] then []
    else (if todo[0].Notify? then [todo[0].event] else []) + OwedEvents(todo[1..])
  }

  // The calls on the engine that the pump has made for frames.
  function PumpCalls(run: seq<Step>): seq<Event> {
    if run == [] then []
    else
      var ev := run[|run| - 1].event;
      PumpCalls(run[..|run| - 1]) + if FromOutside(ev) || ev.Backpressure? then [] else [ev]
  }

  predicate Reads(w: World, m: Move) {
    m.Receive? && w.todo == [] && !w.blocked
  }

  predicate CutsOff(w: World, m: Move) {
    m.Cancel? && w.blocked && TimeOk(w, m.now)
  }

  function Dropped<T>(s: seq<T>, n: nat): seq<T> {
    if n <= |s| then s[..|s| - n] else []
  }

  // The items and calls owed by all frames received so far, in order, less those that were still
  // owed when the pump was cancelled.
  function ItemsDue(w: World, moves: seq<Move>): seq<Delivered> {
    if moves == [] then []
    else
      var before, m := NextAll(w, moves[..|moves| - 1]), moves[|moves| - 1];
      var earlier := ItemsDue(w, moves[..|moves| - 1]);
      if Reads(before, m) then earlier + ItemsOf(m.frame)
      else if CutsOff(before, m) then Dropped(earlier, |OwedItems(before.todo)|)
      else earlier
  }

  function CallsDue(w: World, moves: seq<Move>): seq<Event> {
    if moves == [] then []
    else
      var before, m := NextAll(w, moves[..|moves| - 1]), moves[|moves| - 1];
      var earlier := CallsDue(w, moves[..|moves| - 1]);
      if Reads(before, m) then earlier + EventsOf(m.frame)
      else if CutsOff(before, m) then Dropped(earlier, |OwedEvents(before.todo)|)
      else earlier
  }

  // A message is put only after the engine has been told all about its frame.
  predicate MessagesLast(todo: seq<Task>) {
    forall i | 0 <= i < |todo| && todo[i].Deliver? && todo[i].item.MessageItem? :: i + 1 == |todo|
  }

  // A frame calls for no call of the timer, of a caller or of the queue.
  predicate PlainCalls(todo: seq<Task>) {
    forall i | 0 <= i < |todo| && todo[i].Notify? ::
      !FromOutside(todo[i].event) && !todo[i].event.Backpressure?
  }

  ghost predicate Carried(w: World, items: seq<Delivered>, calls: seq<Event>) {
    && items == w.put + OwedItems(w.todo)
    && calls == PumpCalls(w.run) + OwedEvents(w.todo)
    && MessagesLast(w.todo)
    && PlainCalls(w.todo)
    && (w.blocked ==> w.todo != [] && w.todo[0].Deliver?)
  }

  lemma {:induction false} OwedPossibleGaps(cs: seq<string>)
    ensures OwedItems(PossibleGapTasks(cs)) == seq(|cs|, i requires 0 <= i < |cs| => PossibleGapItem(cs[i]))
    ensures OwedEvents(PossibleGapTasks(cs)) == []
    decreases |cs|
  {
    if cs == [] {
      assert PossibleGapTasks(cs) == [];
    } else {
      OwedPossibleGaps(cs[1..]);
      assert PossibleGapTasks(cs)[1..] == PossibleGapTasks(cs[1..]);
    }
  }

  lemma OwedCons(t: Task, rest: seq<Task>)
    ensures OwedItems([t] + rest) == (if t.Deliver? then [t.item] else []) + OwedItems(rest)
    ensures OwedEvents([t] + rest) == (if t.Notify? then [t.event] else []) + OwedEvents(rest)
    ensures OwedItems([]) == [] && OwedEvents([]) == []
  {
    assert ([t] + rest)[1..] == rest;
  }

  function ItemOf(t: Task): seq<Delivered> {
    if t.Deliver? then [t.item] else []
  }

  function EventOf(t: Task): seq<Event> {
    if t.Notify? then [t.event] else []
  }

  lemma OwedShort(t1: Task, t2: Task, t3: Task)
    ensures OwedItems([t1]) == ItemOf(t1) && OwedEvents([t1]) == EventOf(t1)
    ensures OwedItems([t1, t2]) == ItemOf(t1) + ItemOf(t2) && OwedEvents([t1, t2]) == EventOf(t1) + EventOf(t2)
    ensures OwedItems([t1, t2, t3]) == ItemOf(t1) + (ItemOf(t2) + ItemOf(t3))
    ensures OwedEvents([t1, t2, t3]) == EventOf(t1) + (EventOf(t2) + EventOf(t3))
  {
    OwedCons(t3, []);
    OwedCons(t2, []);
    OwedCons(t1, []);
    OwedCons(t2, [t3]);
    OwedCons(t1, [t2]);
    OwedCons(t1, [t2, t3]);
    hide OwedItems, OwedEvents;
    assert [t1] + [] == [t1] && [t2] + [] == [t2] && [t3] + [] == [t3];
    assert [t1] + [t2] == [t1, t2] && [t2] + [t3] == [t2, t3] && [t1] + [t2, t3] == [t1, t2, t3];
    assert ItemOf(t1) + [] == ItemOf(t1) && ItemOf(t2) + [] == ItemOf(t2) && ItemOf(t3) + [] == ItemOf(t3);
    assert EventOf(t1) + [] == EventOf(t1) && EventOf(t2) + [] == EventOf(t2) && EventOf(t3) + [] == EventOf(t3);
  }

  // The tasks of a frame are what the frame owes.
  lemma DispatchIsOwed(frame: WireFrame)
    ensures OwedItems(Dispatch(frame)) == ItemsOf(frame) && OwedEvents(Dispatch(frame)) == EventsOf(frame)
  {
    hide OwedItems, OwedEvents;
    match frame
    case LiveFrame(c, p, id) => OwedShort(Notify(NotePos(c, p)), Deliver(MessageItem(id)), Notify(Due));
    case ReplayFrame(c, p, id) =>
      OwedShort(Notify(NotePos(c, p)), Notify(ReplayMessage(c)), Deliver(MessageItem(id)));
    case HistoryFrame(c, p, id) =>
      OwedShort(Notify(NotePos(c, p)), Notify(HistoryMessage(c)), Deliver(MessageItem(id)));
    case GapFrame(c, p) => OwedShort(Deliver(GapItem(c, p)), Notify(Gap(c, p)), Notify(Due));
    case ReplayCompleteFrame(c) => OwedShort(Notify(ReplayComplete(c)), Notify(Due), Notify(Due));
    case HistoryEndFrame(c) => OwedShort(Notify(HistoryComplete(c)), Notify(Due), Notify(Due));
    case NotAvailableFrame(cs) =>
      OwedPossibleGaps(cs);
      OwedCons(Notify(NotAvailable(cs)), PossibleGapTasks(cs));
    case RecoveryErrorFrame(c, code) => OwedShort(Notify(RecoveryFailure(c, code)), Notify(Due), Notify(Due));
    case NoReplayFrame(cs) => OwedPossibleGaps(cs);
    case OtherFrame => OwedCons(Notify(Due), []);
  }

  lemma DispatchShape(frame: WireFrame)
    ensures MessagesLast(Dispatch(frame))
    ensures PlainCalls(Dispatch(frame))
  {
  }

  lemma PumpCallsStep(run: seq<Step>, s: Step)
    ensures PumpCalls(run + [s])
         == PumpCalls(run) + if FromOutside(s.event) || s.event.Backpressure? then [] else [s.event]
  {
    assert (run + [s])[..|run|] == run;
  }

  lemma ReceiveCarries(w: World, f: WireFrame, items: seq<Delivered>, calls: seq<Event>)
    requires Carried(w, items, calls) && w.todo == [] && !w.blocked
    ensures Carried(w.(todo := Dispatch(f)), items + ItemsOf(f), calls + EventsOf(f))
  {
    DispatchIsOwed(f);
    DispatchShape(f);
    OwedCons(Notify(Due), []);
    hide OwedItems, OwedEvents, PumpCalls, Dispatch, ItemsOf, EventsOf, MessagesLast, PlainCalls;
    assert w.put + [] == w.put && PumpCalls(w.run) + [] == PumpCalls(w.run);
  }

  lemma TaskCarries(w: World, now: real, ev: Event, items: seq<Delivered>, calls: seq<Event>)
    requires Carried(w, items, calls) && !w.blocked && w.todo != [] && w.todo[0] == Notify(ev)
    ensures Carried(Call(w.(todo := w.todo[1..]), now, ev), items, calls)
  {
    var (post, actions) := Apply(EngineOf(w), now, ev);
    PumpCallsStep(w.run, Step(now, ev, actions, post));
    NotifyOwed(ev, w.todo, PumpCalls(w.run));
    ShapeOfRest(w.todo);
    hide OwedItems, OwedEvents, PumpCalls, Apply, MessagesLast, PlainCalls;
  }

  lemma EmptyPrefix<T>(s: seq<T>)
    ensures [] + s == s
  {
  }

  lemma NotifyOwed(ev: Event, todo: seq<Task>, made: seq<Event>)
    requires todo != [] && todo[0] == Notify(ev)
    ensures OwedItems(todo) == OwedItems(todo[1..])
    ensures made + OwedEvents(todo) == made + [ev] + OwedEvents(todo[1..])
  {
    var rest := todo[1..];
    assert todo == [todo[0]] + rest;
    OwedCons(todo[0], rest);
    hide OwedItems, OwedEvents;
    EmptyPrefix(OwedItems(rest));
  }

  lemma ShapeOfRest(todo: seq<Task>)
    requires MessagesLast(todo) && PlainCalls(todo) && todo != []
    ensures MessagesLast(todo[1..]) && PlainCalls(todo[1..])
    ensures todo[0].Notify? ==> !FromOutside(todo[0].event) && !todo[0].event.Backpressure?
  {
  }

  lemma PutCarries(w: World, items: seq<Delivered>, calls: seq<Event>)
    requires Carried(w, items, calls) && w.todo != [] && w.todo[0].Deliver? && !IsFull(w.queue) && w.queue.canPause
    ensures Carried(PutNow(w, w.todo[0].item).(blocked := false), items, calls)
  {
    DeliverOwed(w.todo, w.put);
    ShapeOfRest(w.todo);
    hide OwedItems, OwedEvents, PumpCalls, MessagesLast, PlainCalls;
  }

  lemma DeliverOwed(todo: seq<Task>, put: seq<Delivered>)
    requires todo != [] && todo[0].Deliver?
    ensures OwedEvents(todo) == OwedEvents(todo[1..])
    ensures put + OwedItems(todo) == put + [todo[0].item] + OwedItems(todo[1..])
  {
    var rest := todo[1..];
    assert todo == [todo[0]] + rest;
    OwedCons(todo[0], rest);
    hide OwedItems, OwedEvents;
    EmptyPrefix(OwedEvents(rest));
  }

  lemma CallCarries(w: World, now: real, ev: Event, items: seq<Delivered>, calls: seq<Event>)
    requires Carried(w, items, calls) && (FromOutside(ev) || ev.Backpressure?)
    ensures Carried(Call(w, now, ev), items, calls)
  {
    var (post, actions) := Apply(EngineOf(w), now, ev);
    PumpCallsStep(w.run, Step(now, ev, actions, post));
    hide OwedItems, OwedEvents, PumpCalls, Apply, MessagesLast, PlainCalls;
    assert PumpCalls(w.run) + [] == PumpCalls(w.run);
  }

  lemma CutCarries(w: World, items: seq<Delivered>, calls: seq<Event>)
    requires Carried(w, items, calls)
    ensures Carried(w.(todo := [], blocked := false),
                    Dropped(items, |OwedItems(w.todo)|), Dropped(calls, |OwedEvents(w.todo)|))
  {
    OwedCons(Notify(Due), []);
    hide OwedItems, OwedEvents, PumpCalls;
    assert w.put + [] == w.put && PumpCalls(w.run) + [] == PumpCalls(w.run);
  }

  lemma NextCarries(w: World, m: Move, items: seq<Delivered>, calls: seq<Event>)
    requires Carried(w, items, calls)
    ensures var (items', calls') :=
              if Reads(w, m) then (items + ItemsOf(m.frame), calls + EventsOf(m.frame))
              else if CutsOff(w, m)
              then (Dropped(items, |OwedItems(w.todo)|), Dropped(calls, |OwedEvents(w.todo)|))
              else (items, calls);
            Carried(Next(w, m), items', calls')
  {
    match m
    case Receive(f) =>
      hide Carried, Dispatch, ItemsOf, EventsOf;
      if Reads(w, m) { ReceiveCarries(w, f, items, calls); }
    case Work(now) =>
      hide Call, OwedItems, OwedEvents, PumpCalls;
      if w.todo != [] && !w.blocked && TimeOk(w, now) {
        WorkCarries(w, now, items, calls);
      }
    case Resume(now) =>
      hide Carried, Call;
      if w.blocked && w.todo != [] && w.todo[0].Deliver? && !IsFull(w.queue) && w.queue.canPause && TimeOk(w, now) {
        PutCarries(w, items, calls);
        CallCarries(PutNow(w, w.todo[0].item).(blocked := false), now, Backpressure(false), items, calls);
      }
    case Cancel(now) =>
      hide Carried, Call, Dropped;
      if CutsOff(w, m) {
        var (items', calls') := (Dropped(items, |OwedItems(w.todo)|), Dropped(calls, |OwedEvents(w.todo)|));
        CutCarries(w, items, calls);
        CallCarries(w.(blocked := false, todo := []), now, Backpressure(false), items', calls');
      }
    case Consume => hide OwedItems, OwedEvents, PumpCalls;
    case Outside(now, ev) =>
      hide Carried, Call;
      if FromOutside(ev) { CallCarries(w, now, ev, items, calls); }
  }

  lemma WorkCarries(w: World, now: real, items: seq<Delivered>, calls: seq<Event>)
    requires Carried(w, items, calls) && w.todo != [] && !w.blocked && TimeOk(w, now)
    ensures Carried(Next(w, Work(now)), items, calls)
  {
    match w.todo[0]
    case Notify(ev) =>
      hide Carried, Call;
      TaskCarries(w, now, ev, items, calls);
    case Deliver(item) =>
      if IsFull(w.queue) {
        var stalled := w.(blocked := true, stalls := w.stalls + 1);
        assert Carried(stalled, items, calls);
        hide Carried, Call;
        CallCarries(stalled, now, Backpressure(true), items, calls);
      } else if w.queue.canPause {
        hide Carried;
        PutCarries(w, items, calls);
        assert PutNow(w, item).(blocked := false) == PutNow(w, item);
      }
  }

  // In every run, what was put in the queue, followed by what the current frame still owes, is
  // exactly what all received frames owe the consumer, in order, less what a cancellation cut off;
  // and the calls on the engine are, likewise, exactly those the received frames call for. When a
  // message is next to be put, the engine has been told everything its frame calls for.
  lemma {:induction false} FramesAreCarriedOut(
      clientId: string, floor: real, window: real, maxsize: int, policy: Policy, moves: seq<Move>)
    ensures var start := Start(clientId, floor, window, maxsize, policy);
            var w := NextAll(start, moves);
            && Carried(w, ItemsDue(start, moves), CallsDue(start, moves))
            && ItemsDue(start, moves) == w.put + OwedItems(w.todo)
            && CallsDue(start, moves) == PumpCalls(w.run) + OwedEvents(w.todo)
            && (w.todo != [] && w.todo[0].Deliver? && w.todo[0].item.MessageItem? ==>
                  PumpCalls(w.run) == CallsDue(start, moves))
  {
    var start := Start(clientId, floor, window, maxsize, policy);
    if moves != [] {
      hide Carried, Next, Start, Reads, CutsOff, Dropped, ItemsOf, EventsOf;
      var n := |moves| - 1;
      FramesAreCarriedOut(clientId, floor, window, maxsize, policy, moves[..n]);
      NextCarries(NextAll(start, moves[..n]), moves[n], ItemsDue(start, moves[..n]), CallsDue(start, moves[..n]));
    }
    CarriedMeans(NextAll(start, moves), ItemsDue(start, moves), CallsDue(start, moves));
  }

  lemma CarriedMeans(w: World, items: seq<Delivered>, calls: seq<Event>)
    requires Carried(w, items, calls)
    ensures items == w.put + OwedItems(w.todo) && calls == PumpCalls(w.run) + OwedEvents(w.todo)
    ensures w.todo != [] && w.todo[0].Deliver? && w.todo[0].item.MessageItem? ==> PumpCalls(w.run) == calls
  {
    if w.todo != [] && w.todo[0].Deliver? && w.todo[0].item.MessageItem? {
      OwedCons(w.todo[0], []);
      assert w.todo == [w.todo[0]] + [];
      assert [] + OwedEvents([]) == [];
    }
  }

  // ---------------------------------------------------------------- what the paused flag means

  // Over every interleaving the engine is paused exactly while the pump is inside a suspended
  // put, it has opened exactly one episode per such put, and the stream is lossless.
  lemma PausedExactlyWhileBlocked(
      clientId: string, floor: real, window: real, maxsize: int, policy: Policy, moves: seq<Move>)
    ensures var w := NextAll(Start(clientId, floor, window, maxsize, policy), moves);
            && (EngineOf(w).paused <==> w.blocked)
            && EngineOf(w).episodes == w.stalls
            && |Data(w.got)| <= |w.put| && w.put == Data(w.got) + w.put[|Data(w.got)|..]
            && w.queue.buf == Somes(w.put[|Data(w.got)|..])
  {
    ReachableWorld(clientId, floor, window, maxsize, policy, moves);
    hide Start, NextAll, IsRun;
    var w := NextAll(Start(clientId, floor, window, maxsize, policy), moves);
    Reassemble(LedgerOf(w));
  }

  // A put on the branch where the queue is not full completes within its own move, and a put on
  // the other branch suspends and is announced to the engine in the same move.
  lemma PutSuspendsIffFull(
      clientId: string, floor: real, window: real, maxsize: int, policy: Policy, moves: seq<Move>, now: real)
    requires var w := NextAll(Start(clientId, floor, window, maxsize, policy), moves);
             w.todo != [] && w.todo[0].Deliver? && !w.blocked && TimeOk(w, now)
    ensures var w := NextAll(Start(clientId, floor, window, maxsize, policy), moves);
            var w' := Next(w, Work(now));
            if IsFull(w.queue)
            then w'.blocked && EngineOf(w').paused && w'.put == w.put && w'.queue == w.queue
            else !w'.blocked && !EngineOf(w').paused && w'.put == w.put + [w.todo[0].item]
                 && w'.queue == Put(w.queue, w.todo[0].item).value && w'.run == w.run
  {
    var start := Start(clientId, floor, window, maxsize, policy);
    var w := NextAll(start, moves);
    ReachableWorld(clientId, floor, window, maxsize, policy, moves);
    hide Start, NextAll, IsRun;
    LawIsPausable(w);
    WorkKeepsInv(w, now);
  }

  // While the pump is suspended, `due` reports no timeout on any channel.
  lemma NoTimeoutWhileBlocked(
      clientId: string, floor: real, window: real, maxsize: int, policy: Policy, moves: seq<Move>,
      now: real, c: string)
    requires var w := NextAll(Start(clientId, floor, window, maxsize, policy), moves);
             w.blocked && TimeOk(w, now)
    ensures var w := NextAll(Start(clientId, floor, window, maxsize, policy), moves);
            var actions := Apply(EngineOf(w), now, Due).1;
            && RaiseRecoveryInterrupted(c, ReplayTimeout) !in actions
            && RaiseRecoveryInterrupted(c, HistoryTimeout) !in actions
  {
    var w := NextAll(Start(clientId, floor, window, maxsize, policy), moves);
    ReachableWorld(clientId, floor, window, maxsize, policy, moves);
    hide Start, NextAll, IsRun, Apply;
    RunExtends(w.init, w.run, now, Due);
    var (post, actions) := Apply(EngineOf(w), now, Due);
    var longer := w.run + [Step(now, Due, actions, post)];
    assert Before(w.init, longer, |w.run|) == EngineOf(w);
    var kinds := [RecoveryTimers.ReplayWatch, RecoveryTimers.HistoryWatch];
    forall i | 0 <= i < 2 ensures !RecoveryTimers.TimesOut(longer[|w.run|], c, kinds[i]) {
      if RecoveryTimers.TimesOut(longer[|w.run|], c, kinds[i]) {
        RecoveryTimers.TimeoutNeedsExpiry(w.init, longer, |w.run|, c, kinds[i]);
        assert false;
      }
    }
    assert !RecoveryTimers.TimesOut(longer[|w.run|], c, kinds[0]);
    assert !RecoveryTimers.TimesOut(longer[|w.run|], c, kinds[1]);
  }

  // Every timeout the client ever reports covers a window in which no put began to suspend; and
  // if the pump was not suspended when the window was armed, it never was during the window.
  lemma TimeoutIsNeverTheConsumersFault(
      clientId: string, floor: real, window: real, maxsize: int, policy: Policy, moves: seq<Move>,
      j: nat, c: string, kind: RecoveryTimers.Watched)
    requires var w := NextAll(Start(clientId, floor, window, maxsize, policy), moves);
             j < |w.run| && RecoveryTimers.TimesOut(w.run[j], c, kind)
    ensures var w := NextAll(Start(clientId, floor, window, maxsize, policy), moves);
            && |w.blockedAt| == |w.run| && |w.stallsAt| == |w.run|
            && exists a ::
                 && RecoveryTimers.GenuineSilence(w.init, w.run, a, j, c, kind)
                 && (forall k | a <= k < j :: w.stallsAt[k] == w.stallsAt[a])
                 && (!w.blockedAt[a] ==> forall k | a <= k < j :: !w.blockedAt[k])
  {
    var w := NextAll(Start(clientId, floor, window, maxsize, policy), moves);
    ReachableWorld(clientId, floor, window, maxsize, policy, moves);
    hide Start, NextAll, IsRun, RecoveryTimers.TimesOut, PausableLaw;
    RecoveryTimers.NoFalseAlarm(w.init, w.run, j, c, kind);
    var a :| RecoveryTimers.GenuineSilence(w.init, w.run, a, j, c, kind);
    hide RecoveryTimers.QuietSince, RecoveryTimers.ArmedAt;
    RecoveryTimers.SilenceBounds(w.init, w.run, a, j, c, kind);
  }

  // The timer task never delivers anything: only the pump is a producer, which is what makes its
  // check of the queue and the put that follows one atomic segment.
  lemma DueDeliversNothing(e: Engine, now: real, c: string)
    ensures EmitPossibleGap(c) !in Apply(e, now, Due).1
  {
    DueOnlyRecovers(e, now, e.channels.keys, c);
    DueOnlyRecovers(e, now, e.history.keys, c);
  }

  lemma {:induction false} DueOnlyRecovers(e: Engine, now: real, keys: seq<string>, c: string)
    ensures EmitPossibleGap(c) !in DueChannelActions(e, now, keys)
    ensures EmitPossibleGap(c) !in DueHistoryActions(e, now, keys)
  {
    hide DueRec, HistoryFires;
    if keys != [] {
      DueOnlyRecovers(e, now, keys[..|keys| - 1], c);
    }
  }
}

/** The client's delivery and recovery timer, over the engine and queue objects. */
module PumpObject {
  import opened Prelude
  import opened RecoverySpec
  import opened RecoveryRuns
  import opened DeliverySpec
  import opened PumpSpec
  import opened RecoveryObject
  import opened DeliveryObject
  import RecoveryTimers

  // Calling `due` `n` times at one clock reading.
  function DueTimes(e: Engine, now: real, n: nat): (Engine, seq<Action>) {
    if n == 0 then (e, [])
    else
      var (before, actions) := DueTimes(e, now, n - 1);
      (Apply(before, now, Event.Due).0, actions + Apply(before, now, Event.Due).1)
  }

  predicate TimerDue(e: Engine, now: real) {
    NextDeadline(e).Some? && NextDeadline(e).value <= now
  }

  // Calling `due` when nothing is due changes nothing; with a positive deadline, nothing is due
  // after it.
  lemma DueOnceSuffices(e: Engine, now: real)
    requires Inv(e)
    ensures !TimerDue(e, now) ==> Apply(e, now, Event.Due) == (e, [])
    ensures e.window > 0.0 ==> !TimerDue(Apply(e, now, Event.Due).0, now)
  {
    hide AfterDue, NextDeadline, Inv, RecoveryTimers.NothingDue;
    RecoveryTimers.NextDeadlineIsExact(e, now);
    if RecoveryTimers.NothingDue(e, now) {
      RecoveryTimers.DueIsIdleWhenNothingDue(e, now);
    }
    if e.window > 0.0 {
      RecoveryTimers.TimersAgreeAndMoveOn(e, now);
    }
  }

  lemma OneTurn(e: Engine, now: real)
    ensures DueTimes(e, now, 1) == Apply(e, now, Event.Due)
  {
    hide Apply;
    assert DueTimes(e, now, 0) == (e, []);
    assert [] + Apply(e, now, Event.Due).1 == Apply(e, now, Event.Due).1;
  }

  class DeliveryPump {
    const engine: RecoveryEngine
    const queue: DeliveryQueue<Delivered>

    constructor (engine: RecoveryEngine, queue: DeliveryQueue<Delivered>)
      ensures this.engine == engine && this.queue == queue
    {
      this.engine, this.queue := engine, queue;
    }

    // Up to the suspension point: delivered at once, or announced as a stall.
    method BeginPut(item: Delivered) returns (blocked: bool)
      requires engine.Valid() && queue.canPause
      modifies engine`paused, engine`episodes, queue
      ensures engine.Valid()
      ensures blocked <==> IsFull(old(queue.View()))
      ensures blocked ==> queue.View() == old(queue.View())
                          && engine.View() == Apply(old(engine.View()), 0.0, Backpressure(true)).0
      ensures !blocked ==> Some(queue.View()) == Put(old(queue.View()), item)
                           && engine.View() == old(engine.View())
    {
      hide Apply;
      assert forall r | r in engine.Records() :: r as object != queue;
      hide Inv;
      blocked := queue.IsFull();
      if blocked {
        engine.NoteBackpressure(true);
      } else {
        var done := queue.Put(item);
      }
    }

    // From the suspension point on, once woken: still no room, or delivered and resumed.
    method FinishPut(item: Delivered) returns (done: bool)
      requires engine.Valid() && queue.canPause
      modifies engine`paused, engine`episodes, queue
      ensures engine.Valid()
      ensures done <==> !IsFull(old(queue.View()))
      ensures !done ==> queue.View() == old(queue.View()) && engine.View() == old(engine.View())
      ensures done ==> Some(queue.View()) == Put(old(queue.View()), item)
                       && engine.View() == Apply(old(engine.View()), 0.0, Backpressure(false)).0
    {
      hide Apply;
      assert forall r | r in engine.Records() :: r as object != queue;
      hide Inv;
      done := queue.Put(item);
      if done {
        engine.NoteBackpressure(false);
      }
    }

    // The timer's loop at one clock reading, cut off after `limit` turns: it calls `due` only
    // while `next_deadline` has come. With a positive deadline it ends after at most one turn,
    // and is then as good as calling `due` unconditionally once; it sleeps until the next deadline.
    method RunTimer(now: real, limit: nat) returns (actions: seq<Action>, turns: nat, wait: Option<real>)
      requires engine.Valid()
      modifies engine`history, engine.Records()
      ensures engine.Valid()
      ensures turns <= limit && (engine.View(), actions) == DueTimes(old(engine.View()), now, turns)
      ensures turns < limit ==> !TimerDue(engine.View(), now)
      ensures engine.window > 0.0 ==> turns <= 1
      ensures engine.window > 0.0 && limit > 0 ==> (engine.View(), actions) == Apply(old(engine.View()), now, Event.Due)
      ensures !TimerDue(engine.View(), now) ==>
                match NextDeadline(engine.View())
                case None => wait == None
                case Some(t) => t > now && wait == Some(t - now)
    {
      hide Apply, NextDeadline, Inv;
      ghost var before := engine.View();
      actions, turns := [], 0;
      DueOnceSuffices(before, now);
      OneTurn(before, now);
      var deadline := engine.NextDeadline();
      while deadline.Some? && deadline.value <= now && turns < limit
        invariant engine.Valid() && deadline == NextDeadline(engine.View())
        invariant engine.Records() == old(engine.Records())
        invariant turns <= limit && (engine.View(), actions) == DueTimes(before, now, turns)
        invariant engine.window > 0.0 ==> turns == 0 || (turns == 1 && !TimerDue(engine.View(), now))
        decreases limit - turns
      {
        var fired := engine.Due(now);
        actions := actions + fired;
        turns := turns + 1;
        deadline := engine.NextDeadline();
      }
      wait := if deadline.None? then None else Some(deadline.value - now);
    }
  }
}
