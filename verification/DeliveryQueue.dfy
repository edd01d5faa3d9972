/**
 * The bounded delivery queue: what put, get and close do, and the exact accounting of every item
 * over all interleavings of puts and gets.
 */
module DeliverySpec {
  import opened Prelude

  datatype Policy = DropOldest | DropNewest

  // `None` in the buffer is the shutdown sentinel.
  datatype Queue<T> = Queue(
    buf: seq<Option<T>>,
    dropped: nat,
    maxsize: int,
    canPause: bool,
    policy: Policy)

  datatype Output<T> = Item(item: T) | Overflow(dropped: nat) | Closed

  function EmptyQueue<T>(maxsize: int, canPause: bool, policy: Policy): Queue<T> {
    Queue([], 0, maxsize, canPause, policy)
  }

  // asyncio treats a size of zero or less as unbounded.
  predicate AtCapacity<T>(q: Queue<T>) {
    q.maxsize > 0 && |q.buf| >= q.maxsize
  }

  predicate IsFull<T>(q: Queue<T>) {
    q.canPause && AtCapacity(q)
  }

  // `None` means that the put suspends and leaves the queue as it is.
  function Put<T>(q: Queue<T>, item: T): Option<Queue<T>> {
    if !AtCapacity(q) then Some(q.(buf := q.buf + [Option.Some(item)]))
    else if q.canPause then None
    else if q.policy == DropOldest
    then Some(q.(buf := q.buf[1..] + [Option.Some(item)], dropped := q.dropped + 1))
    else Some(q.(dropped := q.dropped + 1))
  }

  function Take<T>(q: Queue<T>): (Output<T>, Queue<T>)
    requires q.buf != []
  {
    (if q.buf[0].None? then Closed else Item(q.buf[0].value), q.(buf := q.buf[1..]))
  }

  // `None` means that the get suspends until an item arrives.
  function Get<T>(q: Queue<T>): Option<(Output<T>, Queue<T>)> {
    if q.dropped > 0 then Some((Overflow(q.dropped), q.(dropped := 0)))
    else if q.buf == [] then None
    else Some(Take(q))
  }

  function Close<T>(q: Queue<T>): Queue<T> {
    if AtCapacity(q) then q.(buf := q.buf[1..] + [None]) else q.(buf := q.buf + [None])
  }

  // ---------------------------------------------------------------- interleavings

  // One atomic segment of a producer or consumer: a put, a get, or a suspended get that wakes up
  // and takes the head of the buffer.
  datatype Op<T> = OpPut(item: T) | OpGet | OpResume

  // The queue with everything admitted, everything handed out, and the number of suspended gets.
  datatype Ledger<T> = Ledger(q: Queue<T>, put: seq<T>, out: seq<Output<T>>, waiting: nat)

  function Opening<T>(maxsize: int, canPause: bool, policy: Policy): Ledger<T> {
    Ledger(EmptyQueue(maxsize, canPause, policy), [], [], 0)
  }

  function Exec<T>(h: Ledger<T>, op: Op<T>): Ledger<T> {
    match op
    case OpPut(x) =>
      (match Put(h.q, x)
       case None => h
       case Some(q') => h.(q := q', put := h.put + [x]))
    case OpGet =>
      (match Get(h.q)
       case None => h.(waiting := h.waiting + 1)
       case Some(r) => h.(q := r.1, out := h.out + [r.0]))
    case OpResume =>
      if h.waiting == 0 || h.q.buf == [] then h
      else h.(q := Take(h.q).1, out := h.out + [Take(h.q).0], waiting := h.waiting - 1)
  }

  function ExecAll<T>(h: Ledger<T>, ops: seq<Op<T>>): Ledger<T> {
    if ops == [] then h else Exec(ExecAll(h, ops[..|ops| - 1]), ops[|ops| - 1])
  }

  function Data<T>(out: seq<Output<T>>): seq<T> {
    if out == [] then []
    else
      var last := out[|out| - 1];
      Data(out[..|out| - 1]) + if last.Item? then [last.item] else []
  }

  function Lost<T>(out: seq<Output<T>>): nat {
    if out == [] then 0
    else
      var last := out[|out| - 1];
      Lost(out[..|out| - 1]) + if last.Overflow? then last.dropped else 0
  }

  // The position in the put sequence that the outputs so far account for.
  function Marked<T>(out: seq<Output<T>>): nat {
    |Data(out)| + Lost(out)
  }

  function Somes<T>(s: seq<T>): seq<Option<T>> {
    seq(|s|, i requires 0 <= i < |s| => Some(s[i]))
  }

  lemma OutputStep<T>(out: seq<Output<T>>, o: Output<T>)
    ensures Data(out + [o]) == Data(out) + (if o.Item? then [o.item] else [])
    ensures Lost(out + [o]) == Lost(out) + (if o.Overflow? then o.dropped else 0)
  {
    assert (out + [o])[..|out|] == out;
  }

  lemma SomesStep<T>(s: seq<T>, x: T)
    ensures Somes(s + [x]) == Somes(s) + [Some(x)]
    ensures s != [] ==> Somes(s)[1..] == Somes(s[1..]) && Somes(s)[0] == Some(s[0])
    ensures Somes(s) == [] <==> s == []
  {
  }

  lemma SomesEmpty<T>(s: seq<T>)
    ensures Somes(s) == [] <==> s == []
  {
  }

  // ---------------------------------------------------------------- drop_oldest

  // The buffer is the tail of the put sequence, and everything before it was either delivered,
  // signalled as lost, or is counted as a pending loss.
  ghost predicate OldestLaw<T>(h: Ledger<T>) {
    && !h.q.canPause && h.q.policy == DropOldest
    && Marked(h.out) + h.q.dropped <= |h.put|
    && h.q.buf == Somes(h.put[Marked(h.out) + h.q.dropped..])
  }

  lemma OldestPut<T>(h: Ledger<T>, x: T)
    requires OldestLaw(h)
    ensures OldestLaw(Exec(h, OpPut(x)))
  {
    var n := Marked(h.out) + h.q.dropped;
    var rest := h.put[n..];
    SomesStep(rest, x);
    assert (h.put + [x])[n..] == rest + [x];
    if AtCapacity(h.q) {
      assert (h.put + [x])[n + 1..] == (rest + [x])[1..];
      SomesStep(rest + [x], x);
      assert (Somes(rest) + [Some(x)])[1..] == Somes(rest)[1..] + [Some(x)];
    }
  }

  lemma OldestTake<T>(h: Ledger<T>)
    requires OldestLaw(h) && h.q.buf != []
    ensures var (o, q) := Take(h.q);
            OldestLaw(h.(q := q, out := h.out + [o]))
  {
    hide Data, Lost;
    var rest := h.put[Marked(h.out) + h.q.dropped..];
    SomesStep(rest, rest[0]);
    assert rest[1..] == h.put[Marked(h.out) + h.q.dropped + 1..];
    OutputStep(h.out, Take(h.q).0);
  }

  lemma OldestMarker<T>(h: Ledger<T>)
    requires OldestLaw(h)
    ensures OldestLaw(h.(q := h.q.(dropped := 0), out := h.out + [Overflow(h.q.dropped)]))
  {
    hide Data, Lost, Somes;
    OutputStep(h.out, Overflow(h.q.dropped));
  }

  lemma OldestIgnoresWaiting<T>(h: Ledger<T>, waiting: nat)
    requires OldestLaw(h)
    ensures OldestLaw(h.(waiting := waiting))
  {
  }

  lemma OldestStep<T>(h: Ledger<T>, op: Op<T>)
    requires OldestLaw(h)
    ensures OldestLaw(Exec(h, op))
  {
    hide OldestLaw;
    match op
    case OpPut(x) => OldestPut(h, x);
    case OpGet =>
      OldestIgnoresWaiting(h, h.waiting + 1);
      if h.q.dropped > 0 {
        OldestMarker(h);
      } else if h.q.buf != [] {
        OldestTake(h);
      }
    case OpResume =>
      if h.waiting > 0 && h.q.buf != [] {
        OldestTake(h);
        OldestIgnoresWaiting(h.(q := Take(h.q).1, out := h.out + [Take(h.q).0]), h.waiting - 1);
      }
  }

  lemma {:induction false} OldestLawHolds<T>(maxsize: int, ops: seq<Op<T>>)
    ensures OldestLaw(ExecAll(Opening<T>(maxsize, false, DropOldest), ops))
  {
    if ops != [] {
      hide OldestLaw, Exec, Opening;
      OldestLawHolds(maxsize, ops[..|ops| - 1]);
      OldestStep(ExecAll(Opening<T>(maxsize, false, DropOldest), ops[..|ops| - 1]), ops[|ops| - 1]);
    }
  }

  // Before close, under every interleaving, the buffer is exactly the put sequence from index
  // |delivered| + signalled + pending on: no item is lost without being counted once.
  lemma DropOldestConserves<T>(maxsize: int, ops: seq<Op<T>>)
    ensures var h := ExecAll(Opening<T>(maxsize, false, DropOldest), ops);
            && |h.put| == |Data(h.out)| + Lost(h.out) + h.q.dropped + |h.q.buf|
            && h.q.buf == Somes(h.put[|Data(h.out)| + Lost(h.out) + h.q.dropped..])
  {
    hide ExecAll;
    OldestLawHolds(maxsize, ops);
  }

  // The next item handed out is the one at index marked + pending. A get that finds something
  // delivers only when nothing is pending, so it delivers the item at exactly the position the
  // outputs so far account for. A get that was suspended may not.
  lemma DeliveredPosition<T>(maxsize: int, ops: seq<Op<T>>, op: Op<T>, x: T)
    requires var h := ExecAll(Opening<T>(maxsize, false, DropOldest), ops);
             Exec(h, op).out == h.out + [Item(x)]
    ensures var h := ExecAll(Opening<T>(maxsize, false, DropOldest), ops);
            var i := Marked(h.out) + h.q.dropped;
            && i < |h.put| && h.put[i] == x
            && (op.OpGet? ==> h.q.dropped == 0)
  {
    var h := ExecAll(Opening<T>(maxsize, false, DropOldest), ops);
    hide ExecAll;
    OldestLawHolds(maxsize, ops);
    var i := Marked(h.out) + h.q.dropped;
    var o := Exec(h, op).out[|h.out|];
    assert o == Item(x);
    SomesStep(h.put[i..], x);
  }

  // A suspended get wakes up and takes an item while a loss is pending.
  predicate OvertakesMarker<T>(h: Ledger<T>, op: Op<T>) {
    op.OpResume? && h.waiting > 0 && h.q.buf != [] && h.q.dropped > 0
  }

  predicate NoneOvertakes<T>(h: Ledger<T>, ops: seq<Op<T>>) {
    ops == [] ||
    var n := |ops| - 1;
    NoneOvertakes(h, ops[..n]) && !OvertakesMarker(ExecAll(h, ops[..n]), ops[n])
  }

  // For each output, the position in the put sequence that the head of the buffer had when it was
  // handed out. Equal items at different positions stay distinct.
  function Places<T>(h: Ledger<T>, ops: seq<Op<T>>): seq<int> {
    if ops == [] then []
    else
      var n := |ops| - 1;
      var before := ExecAll(h, ops[..n]);
      Places(h, ops[..n])
      + if |Exec(before, ops[n]).out| > |before.out| then [|before.put| - |before.q.buf|] else []
  }

  // Output `k` is not an item, or it stands at the position marked by the outputs before it.
  ghost predicate InPlace<T>(out: seq<Output<T>>, places: seq<int>, k: int) {
    0 <= k < |out| && k < |places| && out[k].Item? ==> places[k] == Marked(out[..k])
  }

  // The places are those of the delivered items.
  ghost predicate PlacesFit<T>(h: Ledger<T>, places: seq<int>) {
    |places| == |h.out|
    && forall k | 0 <= k < |h.out| && h.out[k].Item? :: 0 <= places[k] < |h.put| && h.put[places[k]] == h.out[k].item
  }

  // What one operation adds to the outputs and places.
  lemma PlaceStep<T>(h: Ledger<T>, op: Op<T>, places: seq<int>)
    requires OldestLaw(h) && PlacesFit(h, places)
    ensures var h' := Exec(h, op);
            var at := |h.put| - |h.q.buf|;
            && (h'.out == h.out ==> PlacesFit(h', places))
            && (h'.out != h.out ==>
                  PlacesFit(h', places + [at])
                  && (h'.out[|h.out|].Item? ==> (at == Marked(h.out) <==> !OvertakesMarker(h, op))))
  {
    var h' := Exec(h, op);
    ExecGrows(h, op);
    hide Data, Lost;
    if h'.out != h.out && h'.out[|h.out|].Item? {
      var rest := h.put[Marked(h.out) + h.q.dropped..];
      SomesStep(rest, rest[0]);
    }
  }

  ghost predicate AllInPlace<T>(out: seq<Output<T>>, places: seq<int>) {
    forall k :: InPlace(out, places, k)
  }

  lemma InPlaceStep<T>(out: seq<Output<T>>, o: Output<T>, places: seq<int>, at: int)
    requires |places| == |out|
    ensures AllInPlace(out + [o], places + [at]) <==> AllInPlace(out, places) && (o.Item? ==> at == Marked(out))
  {
    hide Marked;
    var out', places' := out + [o], places + [at];
    forall k | 0 <= k < |out| ensures InPlace(out', places', k) <==> InPlace(out, places, k) {
      assert out'[..k] == out[..k];
    }
    assert out'[..|out|] == out;
    assert InPlace(out', places', |out|) <==> (o.Item? ==> at == Marked(out));
    if AllInPlace(out', places') {
      forall k ensures InPlace(out, places, k) {
        assert InPlace(out', places', k);
      }
      assert InPlace(out', places', |out|);
    }
    if AllInPlace(out, places) && (o.Item? ==> at == Marked(out)) {
      forall k ensures InPlace(out', places', k) {
        assert InPlace(out, places, k);
      }
    }
  }

  ghost predicate SkipLaw<T>(h: Ledger<T>, places: seq<int>, clean: bool) {
    PlacesFit(h, places) && (AllInPlace(h.out, places) <==> clean)
  }

  lemma SkipStep<T>(h: Ledger<T>, op: Op<T>, places: seq<int>, clean: bool)
    requires OldestLaw(h) && SkipLaw(h, places, clean)
    ensures var h' := Exec(h, op);
            var places' := places + if |h'.out| > |h.out| then [|h.put| - |h.q.buf|] else [];
            SkipLaw(h', places', clean && !OvertakesMarker(h, op))
  {
    hide Exec, OldestLaw, AllInPlace, OvertakesMarker, Marked;
    var h' := Exec(h, op);
    ExecGrows(h, op);
    assert |places| == |h.out|;
    PlaceStep(h, op, places);
    OvertakingDelivers(h, op);
    hide PlacesFit;
    if h'.out != h.out {
      InPlaceStep(h.out, h'.out[|h.out|], places, |h.put| - |h.q.buf|);
    } else {
      assert places + [] == places;
    }
  }

  lemma {:induction false} SkipLawHolds<T>(maxsize: int, ops: seq<Op<T>>)
    ensures var start := Opening<T>(maxsize, false, DropOldest);
            SkipLaw(ExecAll(start, ops), Places(start, ops), NoneOvertakes(start, ops))
  {
    var start := Opening<T>(maxsize, false, DropOldest);
    if ops != [] {
      hide Opening, Exec, SkipLaw, OvertakesMarker;
      var n := |ops| - 1;
      SkipLawHolds(maxsize, ops[..n]);
      OldestLawHolds(maxsize, ops[..n]);
      SkipStep(ExecAll(start, ops[..n]), ops[n], Places(start, ops[..n]), NoneOvertakes(start, ops[..n]));
    }
  }

  // In every run each delivered item is the one at its recorded place. Every item stands at the
  // position marked by the outputs before it, so that the markers between two delivered items
  // sum to exactly the number of items skipped there, if and only if no suspended get took an
  // item while a loss was pending.
  lemma MarkersAccountForEverySkip<T>(maxsize: int, ops: seq<Op<T>>)
    ensures var start := Opening<T>(maxsize, false, DropOldest);
            var h, places := ExecAll(start, ops), Places(start, ops);
            && |places| == |h.out|
            && (forall k | 0 <= k < |h.out| && h.out[k].Item? ::
                  0 <= places[k] < |h.put| && h.put[places[k]] == h.out[k].item)
            && (AllInPlace(h.out, places) <==> NoneOvertakes(start, ops))
  {
    hide Opening, ExecAll, Places, NoneOvertakes, AllInPlace;
    SkipLawHolds(maxsize, ops);
  }

  lemma OvertakingDelivers<T>(h: Ledger<T>, op: Op<T>)
    requires OldestLaw(h)
    ensures OvertakesMarker(h, op) ==> Exec(h, op).out != h.out && Exec(h, op).out[|h.out|].Item?
  {
    if OvertakesMarker(h, op) {
      var rest := h.put[Marked(h.out) + h.q.dropped..];
      SomesStep(rest, rest[0]);
    }
  }

  lemma ExecGrows<T>(h: Ledger<T>, op: Op<T>)
    ensures var h' := Exec(h, op);
            && h.put <= h'.put && h.out <= h'.out && |h'.out| <= |h.out| + 1
            && (|h'.out| == |h.out| + 1 ==>
                  h'.out == h.out + [h'.out[|h.out|]] && h'.put == h.put && !op.OpPut?)
  {
  }

  // A get that suspends on an empty queue can be overtaken: two puts into a queue of size one
  // evict the first item before the get wakes, and the second is delivered ahead of the marker.
  lemma SuspendedGetOvertakesMarker()
    ensures var ops := [OpGet, OpPut(1), OpPut(2), OpResume, OpGet];
            var h := ExecAll(Opening<int>(1, false, DropOldest), ops);
            && h.put == [1, 2] && h.out == [Item(2), Overflow(1)]
            && Marked(h.out[..0]) == 0 && h.put[0] != 2
  {
    var h0 := Opening<int>(1, false, DropOldest);
    var ops := [OpGet, OpPut(1), OpPut(2), OpResume, OpGet];
    var h1 := Exec(h0, OpGet);
    var h2 := Exec(h1, OpPut(1));
    var h3 := Exec(h2, OpPut(2));
    var h4 := Exec(h3, OpResume);
    var h5 := Exec(h4, OpGet);
    assert ops[..4][..3] == ops[..3] && ops[..3][..2] == ops[..2] && ops[..2][..1] == ops[..1] && ops[..1][..0] == [];
    assert ExecAll(h0, ops[..1]) == h1;
    assert ExecAll(h0, ops[..2]) == h2;
    assert ExecAll(h0, ops[..3]) == h3;
    assert ExecAll(h0, ops[..4]) == h4;
    assert ExecAll(h0, ops) == h5;
    assert h3.q.buf == [Some(2)] && h3.put == [1, 2];
  }

  // ---------------------------------------------------------------- pausable

  ghost predicate PausableLaw<T>(h: Ledger<T>) {
    && h.q.canPause && h.q.dropped == 0 && Lost(h.out) == 0
    && |Data(h.out)| <= |h.put|
    && h.q.buf == Somes(h.put[|Data(h.out)|..])
    && h.put[..|Data(h.out)|] == Data(h.out)
  }

  lemma PausablePut<T>(h: Ledger<T>, x: T)
    requires PausableLaw(h)
    ensures PausableLaw(h.(q := h.q.(buf := h.q.buf + [Some(x)]), put := h.put + [x]))
  {
    hide Data, Lost, Somes;
    var n := |Data(h.out)|;
    SomesStep(h.put[n..], x);
    assert (h.put + [x])[n..] == h.put[n..] + [x] && (h.put + [x])[..n] == h.put[..n];
  }

  lemma PausableTake<T>(h: Ledger<T>, waiting: nat)
    requires PausableLaw(h) && h.q.buf != []
    ensures var (o, q) := Take(h.q);
            PausableLaw(h.(q := q, out := h.out + [o], waiting := waiting))
  {
    hide Data, Lost, Somes;
    var n := |Data(h.out)|;
    var rest := h.put[n..];
    SomesEmpty(rest);
    SomesStep(rest, rest[0]);
    OutputStep(h.out, Take(h.q).0);
    assert rest[1..] == h.put[n + 1..] && h.put[..n + 1] == h.put[..n] + [rest[0]];
  }

  lemma PausableStep<T>(h: Ledger<T>, op: Op<T>)
    requires PausableLaw(h)
    ensures PausableLaw(Exec(h, op))
  {
    assert h.q.canPause && h.q.dropped == 0;
    PausableIgnoresWaiting(h, h.waiting + 1);
    hide PausableLaw;
    match op
    case OpPut(x) => PausablePut(h, x);
    case OpGet => if h.q.buf != [] { PausableTake(h, h.waiting); }
    case OpResume => if h.waiting > 0 && h.q.buf != [] { PausableTake(h, h.waiting - 1); }
  }

  lemma PausableIgnoresWaiting<T>(h: Ledger<T>, waiting: nat)
    requires PausableLaw(h)
    ensures PausableLaw(h.(waiting := waiting))
  {
  }

  // With a pausable transport nothing is ever lost, reordered or repeated, and no marker appears.
  lemma {:induction false} PausableIsLossless<T>(maxsize: int, policy: Policy, ops: seq<Op<T>>)
    ensures var h := ExecAll(Opening<T>(maxsize, true, policy), ops);
            PausableLaw(h) && h.put == Data(h.out) + h.put[|Data(h.out)|..]
  {
    if ops != [] {
      hide PausableLaw;
      PausableIsLossless(maxsize, policy, ops[..|ops| - 1]);
      PausableStep(ExecAll(Opening<T>(maxsize, true, policy), ops[..|ops| - 1]), ops[|ops| - 1]);
    }
    Reassemble(ExecAll(Opening<T>(maxsize, true, policy), ops));
  }

  lemma Reassemble<T>(h: Ledger<T>)
    requires PausableLaw(h)
    ensures h.put == Data(h.out) + h.put[|Data(h.out)|..]
  {
  }

  // ---------------------------------------------------------------- drop_newest

  ghost predicate Subsequence<T(!new)>(a: seq<T>, b: seq<T>) {
    a == [] ||
    (b != [] &&
     ((a[|a| - 1] == b[|b| - 1] && Subsequence(a[..|a| - 1], b[..|b| - 1]))
      || Subsequence(a, b[..|b| - 1])))
  }

  ghost predicate NewestLaw<T(!new)>(h: Ledger<T>, kept: seq<T>) {
    && !h.q.canPause && h.q.policy == DropNewest
    && h.q.buf == Somes(kept)
    && Subsequence(Data(h.out) + kept, h.put)
    && |h.put| == |Data(h.out)| + |kept| + Lost(h.out) + h.q.dropped
  }

  lemma SubsequenceStep<T(!new)>(a: seq<T>, b: seq<T>, x: T)
    requires Subsequence(a, b)
    ensures Subsequence(a + [x], b + [x]) && Subsequence(a, b + [x])
  {
    assert (a + [x])[..|a|] == a && (b + [x])[..|b|] == b;
  }

  lemma NewestPut<T(!new)>(h: Ledger<T>, x: T, kept: seq<T>) returns (kept': seq<T>)
    requires NewestLaw(h, kept)
    ensures NewestLaw(Exec(h, OpPut(x)), kept')
  {
    kept' := if AtCapacity(h.q) then kept else kept + [x];
    NewestPutIs(h, x);
    hide Subsequence, Data, Lost, Somes, Exec, AtCapacity;
    SubsequenceStep(Data(h.out) + kept, h.put, x);
    SomesStep(kept, x);
    Regroup(Data(h.out), kept, [x]);
  }

  lemma Regroup<T>(a: seq<T>, b: seq<T>, c: seq<T>)
    ensures a + (b + c) == (a + b) + c
  {
  }

  lemma NewestPutIs<T>(h: Ledger<T>, x: T)
    requires !h.q.canPause && h.q.policy == DropNewest
    ensures var h' := Exec(h, OpPut(x));
            && h'.put == h.put + [x] && h'.out == h.out && !h'.q.canPause && h'.q.policy == DropNewest
            && h'.q.buf == (if AtCapacity(h.q) then h.q.buf else h.q.buf + [Some(x)])
            && h'.q.dropped == h.q.dropped + if AtCapacity(h.q) then 1 else 0
  {
  }

  lemma NewestMarker<T(!new)>(h: Ledger<T>, kept: seq<T>)
    requires NewestLaw(h, kept)
    ensures NewestLaw(h.(q := h.q.(dropped := 0), out := h.out + [Overflow(h.q.dropped)]), kept)
  {
    hide Subsequence, Data, Lost;
    OutputStep(h.out, Overflow(h.q.dropped));
    assert Data(h.out + [Overflow(h.q.dropped)]) == Data(h.out);
  }

  lemma NewestTake<T(!new)>(h: Ledger<T>, kept: seq<T>, waiting: nat) returns (kept': seq<T>)
    requires NewestLaw(h, kept) && h.q.buf != []
    ensures var (o, q) := Take(h.q);
            NewestLaw(h.(q := q, out := h.out + [o], waiting := waiting), kept')
  {
    kept' := TakeKeeps(h, kept);
    hide Subsequence, Data, Lost;
    OutputStep(h.out, Take(h.q).0);
  }

  lemma NewestStep<T(!new)>(h: Ledger<T>, op: Op<T>, kept: seq<T>) returns (kept': seq<T>)
    requires NewestLaw(h, kept)
    ensures NewestLaw(Exec(h, op), kept')
  {
    hide Subsequence, Data, Lost;
    kept' := kept;
    match op
    case OpPut(x) => kept' := NewestPut(h, x, kept);
    case OpGet =>
      if h.q.dropped > 0 {
        NewestMarker(h, kept);
      } else if h.q.buf != [] {
        kept' := NewestTake(h, kept, h.waiting);
      }
    case OpResume =>
      if h.waiting > 0 && h.q.buf != [] {
        kept' := NewestTake(h, kept, h.waiting - 1);
      }
  }

  lemma TakeKeeps<T(!new)>(h: Ledger<T>, kept: seq<T>) returns (kept': seq<T>)
    requires NewestLaw(h, kept) && h.q.buf != []
    ensures var (o, q) := Take(h.q);
            && q.buf == Somes(kept') && |kept'| == |kept| - 1
            && Data(h.out + [o]) + kept' == Data(h.out) + kept && Lost(h.out + [o]) == Lost(h.out)
  {
    kept' := kept[1..];
    SomesStep(kept, kept[0]);
    OutputStep(h.out, Take(h.q).0);
    assert Data(h.out) + kept == Data(h.out) + [kept[0]] + kept';
  }

  // Under drop_newest what is delivered or still buffered is a subsequence of what was put, in
  // order, and the rest is counted exactly.
  lemma {:induction false} DropNewestKeepsOrder<T(!new)>(maxsize: int, ops: seq<Op<T>>) returns (kept: seq<T>)
    ensures var h := ExecAll(Opening<T>(maxsize, false, DropNewest), ops);
            && h.q.buf == Somes(kept)
            && Subsequence(Data(h.out) + kept, h.put)
            && |h.put| == |Data(h.out)| + |kept| + Lost(h.out) + h.q.dropped
    ensures NewestLaw(ExecAll(Opening<T>(maxsize, false, DropNewest), ops), kept)
  {
    if ops == [] {
      kept := [];
    } else {
      kept := DropNewestKeepsOrder(maxsize, ops[..|ops| - 1]);
      kept := NewestStep(ExecAll(Opening<T>(maxsize, false, DropNewest), ops[..|ops| - 1]), ops[|ops| - 1], kept);
    }
  }

  // ---------------------------------------------------------------- capacity and close

  lemma {:induction false} NeverOverCapacity<T>(maxsize: int, canPause: bool, policy: Policy, ops: seq<Op<T>>)
    ensures var q := ExecAll(Opening<T>(maxsize, canPause, policy), ops).q;
            && q.maxsize == maxsize && q.canPause == canPause && q.policy == policy
            && (maxsize > 0 ==> |q.buf| <= maxsize)
  {
    if ops != [] {
      NeverOverCapacity(maxsize, canPause, policy, ops[..|ops| - 1]);
    }
  }

  // `is_full` says exactly that a put would suspend.
  lemma FullIffPutSuspends<T>(q: Queue<T>, x: T)
    ensures IsFull(q) <==> Put(q, x).None?
  {
  }

  function PutAll<T>(q: Queue<T>, items: seq<T>): Option<Queue<T>>
    decreases |items|
  {
    if items == [] then Some(q)
    else
      match Put(q, items[0])
      case None => None
      case Some(q') => PutAll(q', items[1..])
  }

  // A queue that meets the construction floor takes a whole history and replay burst from empty
  // without suspending and without losing or reordering anything.
  lemma {:induction false} BurstFits<T>(q: Queue<T>, items: seq<T>)
    requires q.maxsize <= 0 || |q.buf| + |items| <= q.maxsize
    ensures PutAll(q, items) == Some(q.(buf := q.buf + Somes(items)))
    decreases |items|
  {
    if items == [] {
      assert q.buf + Somes(items) == q.buf;
    } else {
      BurstFits(Put(q, items[0]).value, items[1..]);
      assert Somes(items) == [Some(items[0])] + Somes(items[1..]);
      assert q.buf + [Some(items[0])] + Somes(items[1..]) == q.buf + Somes(items);
    }
  }

  // A get suspends exactly on an empty queue with no loss pending. While a loss is pending it
  // returns one marker for all of it and takes nothing from the buffer.
  lemma GetSuspendsIffNothingToSay<T>(maxsize: int, canPause: bool, policy: Policy, ops: seq<Op<T>>)
    ensures var h := ExecAll(Opening<T>(maxsize, canPause, policy), ops);
            var h' := Exec(h, OpGet);
            && (h'.waiting > h.waiting <==> h.q.dropped == 0 && h.q.buf == [])
            && (h.q.dropped > 0 ==>
                  h'.out == h.out + [Overflow(h.q.dropped)] && h'.q.buf == h.q.buf && h'.q.dropped == 0)
            && (h.q.dropped == 0 && h.q.buf != [] ==>
                  |h'.out| == |h.out| + 1 && !h'.out[|h.out|].Overflow? && h'.q.buf == h.q.buf[1..])
  {
    hide ExecAll, Opening;
  }

  // Everything a consumer still receives, up to the end of the stream.
  function Drain<T>(q: Queue<T>): seq<Output<T>>
    decreases |q.buf|, q.dropped
  {
    match Get(q)
    case None => []
    case Some(r) => if r.0.Closed? then [Closed] else [r.0] + Drain(r.1)
  }

  function Outputs<T>(s: seq<T>): seq<Output<T>> {
    seq(|s|, i requires 0 <= i < |s| => Item(s[i]))
  }

  lemma {:induction false} DrainItems<T>(q: Queue<T>, items: seq<T>)
    requires q.buf == Somes(items) + [None] && q.dropped == 0
    ensures Drain(q) == Outputs(items) + [Closed]
    decreases |items|
  {
    if items != [] {
      SomesStep(items, items[0]);
      assert q.buf[1..] == Somes(items[1..]) + [None];
      DrainItems(Take(q).1, items[1..]);
      assert Outputs(items) == [Item(items[0])] + Outputs(items[1..]);
    } else {
      assert q.buf == [None];
    }
  }

  // After close the consumer drains what remains and then sees the end of the stream. A full
  // queue gives up its oldest item for the sentinel, and no marker counts that item.
  lemma CloseEndsTheStream<T>(q: Queue<T>, items: seq<T>)
    requires q.buf == Somes(items)
    ensures var marker := if q.dropped > 0 then [Overflow(q.dropped)] else [];
            Drain(Close(q)) ==
              marker + Outputs(if AtCapacity(q) then items[1..] else items) + [Closed]
  {
    var closed := Close(q);
    var rest := if AtCapacity(q) then items[1..] else items;
    if items != [] {
      SomesStep(items, items[0]);
    }
    assert closed.buf == Somes(rest) + [None];
    DrainItems(closed.(dropped := 0), rest);
    if q.dropped > 0 {
      assert Drain(closed) == [Overflow(q.dropped)] + Drain(closed.(dropped := 0));
      assert [Overflow(q.dropped)] + (Outputs(rest) + [Closed])
          == [Overflow(q.dropped)] + Outputs(rest) + [Closed];
    } else {
      assert closed == closed.(dropped := 0);
      assert [] + Outputs(rest) + [Closed] == Outputs(rest) + [Closed];
    }
  }

  // A full queue of one item: closing it loses the item without a trace.
  lemma CloseLosesAnItem()
    ensures var q := Put(EmptyQueue<int>(1, true, DropOldest), 7);
            && q.Some? && q.value.buf == [Some(7)]
            && Drain(Close(q.value)) == [Closed]
  {
    var q := Put(EmptyQueue<int>(1, true, DropOldest), 7).value;
    assert q.buf == Somes([7]);
    CloseEndsTheStream(q, [7]);
    assert [7][1..] == [];
    assert Outputs<int>([]) == [];
  }
}

/** The queue as the object the client holds. */
module DeliveryObject {
  import opened Prelude
  import opened DeliverySpec

  class DeliveryQueue<T> {
    const maxsize: int
    const canPause: bool
    const policy: Policy
    var buf: seq<Option<T>>
    var dropped: nat

    ghost function View(): Queue<T>
      reads this
    {
      Queue(buf, dropped, maxsize, canPause, policy)
    }

    constructor (maxsize: int, canPause: bool, policy: Policy)
      ensures View() == EmptyQueue(maxsize, canPause, policy)
    {
      this.maxsize, this.canPause, this.policy := maxsize, canPause, policy;
      buf, dropped := [], 0;
    }

    predicate IsFull()
      reads this
    {
      canPause && maxsize > 0 && |buf| >= maxsize
    }

    // `done` is false when the caller must wait for room; the queue is then unchanged.
    method Put(item: T) returns (done: bool)
      modifies this
      ensures done <==> DeliverySpec.Put(old(View()), item).Some?
      ensures View() == if done then DeliverySpec.Put(old(View()), item).value else old(View())
    {
      var atCapacity := maxsize > 0 && |buf| >= maxsize;
      if canPause && atCapacity {
        return false;
      }
      if !atCapacity {
        buf := buf + [Some(item)];
      } else {
        if policy == DropOldest {
          buf := buf[1..];
          buf := buf + [Some(item)];
        }
        dropped := dropped + 1;
      }
      done := true;
    }

    // `None` when the caller must wait for an item.
    method Get() returns (r: Option<Output<T>>)
      modifies this
      ensures match DeliverySpec.Get(old(View()))
              case None => r == None && View() == old(View())
              case Some(x) => r == Some(x.0) && View() == x.1
    {
      if dropped > 0 {
        r := Some(Overflow(dropped));
        dropped := 0;
      } else if buf == [] {
        r := None;
      } else {
        var head := Take();
        r := Some(head);
      }
    }

    // A waiting get that has been woken takes the head without looking at the loss count.
    method Take() returns (o: Output<T>)
      requires buf != []
      modifies this`buf
      ensures (o, View()) == DeliverySpec.Take(old(View()))
    {
      o := if buf[0].None? then Closed else Item(buf[0].value);
      buf := buf[1..];
    }

    method Close()
      modifies this
      ensures View() == DeliverySpec.Close(old(View()))
    {
      if maxsize > 0 && |buf| >= maxsize {
        buf := buf[1..];
      }
      buf := buf + [None];
    }
  }

  // Construction is refused below the floor; at the floor a history and replay burst fits.
  method NewDeliveryQueue<T>(
      maxsize: int, canPause: bool, historyLimit: int, maxReplayMessages: int, policy: Policy)
    returns (q: DeliveryQueue?<T>)
    ensures q == null <==> maxsize < historyLimit + maxReplayMessages
    ensures q != null ==> fresh(q) && q.View() == EmptyQueue(maxsize, canPause, policy)
    ensures q != null ==> forall burst: seq<T> | |burst| <= historyLimit + maxReplayMessages ::
                            PutAll(q.View(), burst).Some?
  {
    if maxsize < historyLimit + maxReplayMessages {
      return null;
    }
    q := new DeliveryQueue(maxsize, canPause, policy);
    forall burst: seq<T> | |burst| <= historyLimit + maxReplayMessages
      ensures PutAll(q.View(), burst).Some?
    {
      BurstFits(q.View(), burst);
    }
  }
}
