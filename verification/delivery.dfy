/** From the ring to a renderer's connection: a cursor loop that reads the ring, a channel of one, and a
    loop that batches what arrives. Bytes are neither lost, repeated nor reordered on the way, except
    that a reader the floor overtakes skips to the floor. */
module Delivery {
  import opened Base
  import R = Ring

  // ---------------------------------------------------------------- batching

  /** How one write to the connection went: all of it, or a prefix and then an error. */
  datatype Sent = All | Cut(prefix: nat)

  datatype Event = Arrival(data: seq<byte>, sent: Sent) | Deadline(sent: Sent)

  /** `cut` is a connection that failed; delivery stops there. */
  datatype Batcher = Batcher(batch: seq<byte>, armed: bool, wire: seq<byte>, cut: bool) {

    function Flush(sent: Sent): Batcher {
      if batch == [] then this
      else match sent
        case All => Batcher([], false, wire + batch, cut)
        case Cut(n) => Batcher([], false, wire + batch[..Min(n, |batch|)], true)
    }

    function Arrive(data: seq<byte>, sent: Sent, limits: Limits): Batcher {
      var grown := this.(batch := batch + data);
      if |grown.batch| >= limits.deliveryBatch || |grown.batch| < limits.deliveryMinHold then grown.Flush(sent)
      else grown.(armed := true)
    }

    /** A deadline that is not armed never fires; after a failed write nothing happens. */
    function Step(event: Event, limits: Limits): Batcher {
      if cut then this
      else match event
        case Arrival(data, sent) => Arrive(data, sent, limits)
        case Deadline(sent) => if armed then Flush(sent) else this
    }

    /** Nothing is held without a deadline, and what is held is at least the hold and less than a batch. */
    predicate Shaped(limits: Limits) {
      if batch == [] then !armed else armed && limits.deliveryMinHold <= |batch| < limits.deliveryBatch
    }
  }

  const EMPTY := Batcher([], false, [], false)

  function Fold(events: seq<Event>, limits: Limits): Batcher {
    if events == [] then EMPTY
    else Fold(events[..|events| - 1], limits).Step(events[|events| - 1], limits)
  }

  /** The delivery loop over the events it selects. */
  method Deliver(events: seq<Event>, limits: Limits) returns (end: Batcher)
    ensures end == Fold(events, limits)
  {
    var batch: seq<byte>, armed, wire: seq<byte>, cut := [], false, [], false;
    var i := 0;
    while i < |events| && !cut
      invariant i <= |events|
      invariant Batcher(batch, armed, wire, cut) == Fold(events[..i], limits)
    {
      var event := events[i];
      assert events[..i + 1][..i] == events[..i];
      i := i + 1;
      var flush := false;
      match event {
        case Arrival(data, _) =>
          batch := batch + data;
          if |batch| >= limits.deliveryBatch {
            flush := true;
          } else if |batch| < limits.deliveryMinHold {
            flush := true;
          } else {
            armed := true;
          }
        case Deadline(_) =>
          flush := armed;
      }
      if flush && batch != [] {
        match event.sent {
          case All => wire := wire + batch;
          case Cut(n) => wire, cut := wire + batch[..Min(n, |batch|)], true;
        }
        batch, armed := [], false;
      }
    }
    CutStays(events, i, limits);
    assert events[..|events|] == events;
    return Batcher(batch, armed, wire, cut);
  }

  lemma {:induction false} CutStays(events: seq<Event>, i: nat, limits: Limits)
    requires i <= |events|
    ensures Fold(events[..i], limits).cut ==> Fold(events, limits) == Fold(events[..i], limits)
    decreases |events| - i
  {
    if i < |events| {
      assert events[..i + 1][..i] == events[..i];
      CutStays(events, i + 1, limits);
    } else {
      assert events[..i] == events;
    }
  }

  function Arrivals(events: seq<Event>): seq<byte> {
    if events == [] then []
    else
      var last := events[|events| - 1];
      Arrivals(events[..|events| - 1]) + if last.Arrival? then last.data else []
  }

  lemma StepShaped(b: Batcher, event: Event, limits: Limits)
    requires b.Shaped(limits)
    ensures b.Step(event, limits).Shaped(limits)
    ensures var next := b.Step(event, limits);
            var data := if event.Arrival? then event.data else [];
            && (!next.cut ==> next.wire + next.batch == b.wire + b.batch + data)
            && (next.cut && !b.cut ==> next.wire <= b.wire + b.batch + data)
            && (b.cut ==> next == b)
  {
    var data := if event.Arrival? then event.data else [];
    assert b.wire + (b.batch + data) == b.wire + b.batch + data;
  }

  /** Over any run of events: what reached the wire and what is still held is what arrived, in order;
      a failed connection has received a prefix of it; and nothing is held outside the contract's sizes. */
  lemma {:induction false} FoldMeaning(events: seq<Event>, limits: Limits)
    ensures var end := Fold(events, limits);
            && end.Shaped(limits)
            && (!end.cut ==> end.wire + end.batch == Arrivals(events))
            && (end.cut ==> end.batch == [] && end.wire <= Arrivals(events))
  {
    if events != [] {
      var before, last := events[..|events| - 1], events[|events| - 1];
      FoldMeaning(before, limits);
      StepShaped(Fold(before, limits), last, limits);
    }
  }

  // ---------------------------------------------------------------- the ring, the reader and the batcher

  datatype Reader = Idle | Parked | Holding(data: seq<byte>) | Finished

  /** One read the cursor loop took: the range it emitted, and the floor it met. */
  datatype Slice = Slice(from: nat, to: nat, floor: nat, data: seq<byte>)

  datatype World = World(
    ring: R.State,
    history: seq<byte>,
    cursor: nat,
    reader: Reader,
    channel: Option<seq<byte>>,
    batcher: Batcher,
    slices: seq<Slice>)

  /** Every step any of the goroutines can take. A step that is not enabled changes nothing. */
  datatype Move =
    | OnRing(op: R.Op)
    | Read
    | Send
    | Receive(sent: Sent)
    | Fire(sent: Sent)
    | Close(sent: Sent)

  ghost function Next(w: World, move: Move, limits: Limits): World {
    match move
    case OnRing(op) =>
      w.(ring := R.Step(w.ring, op), history := w.history + R.Printed(op),
         reader := if w.reader.Parked? && (op.Write? || op.End?) then Idle else w.reader)
    case Read =>
      if !w.reader.Idle? then w
      else (match w.ring.Read(w.cursor)
            case Bytes(from, data, next) =>
              w.(reader := Holding(data), cursor := next,
                 slices := w.slices + [Slice(from, next, w.ring.floor, data)])
            case Ended(_) => w.(reader := Finished)
            case Blocked => w.(reader := Parked))
    case Send =>
      if w.reader.Holding? && w.channel.None? then w.(channel := Some(w.reader.data), reader := Idle) else w
    case Receive(sent) =>
      if w.channel.None? || w.batcher.cut then w
      else w.(channel := None, batcher := w.batcher.Step(Arrival(w.channel.value, sent), limits))
    case Fire(sent) =>
      w.(batcher := w.batcher.Step(Deadline(sent), limits))
    case Close(sent) =>
      if w.reader.Finished? && w.channel.None? && !w.batcher.cut then w.(batcher := w.batcher.Flush(sent)) else w
  }

  function Taken(slices: seq<Slice>): seq<byte> {
    if slices == [] then [] else Taken(slices[..|slices| - 1]) + slices[|slices| - 1].data
  }

  /** Read from the ring and not yet given to the batcher. */
  function Underway(w: World): seq<byte> {
    (if w.channel.Some? then w.channel.value else []) + (if w.reader.Holding? then w.reader.data else [])
  }

  /** Where the read after the first `i` starts from. */
  function CursorAt(start: nat, slices: seq<Slice>, i: nat): nat
    requires i <= |slices|
  {
    if i == 0 then start else slices[i - 1].to
  }

  /** Each slice is a non-empty piece of the history beginning where the one before it ended, or at the
      floor if the floor had passed that point: what is skipped is exactly what was no longer held. */
  ghost predicate ChainedAt(start: nat, slices: seq<Slice>, history: seq<byte>, i: nat)
    requires i < |slices|
  {
    && slices[i].from == Max(CursorAt(start, slices, i), slices[i].floor)
    && slices[i].from < slices[i].to <= |history|
    && slices[i].data == history[slices[i].from..slices[i].to]
  }

  ghost predicate Chained(start: nat, slices: seq<Slice>, history: seq<byte>) {
    forall i: nat | i < |slices| :: ChainedAt(start, slices, history, i)
  }

  /** What reached the wire, what the batch holds and what is underway is what was taken. */
  ghost predicate Conserved(b: Batcher, underway: seq<byte>, taken: seq<byte>) {
    if b.cut then b.wire <= taken else b.wire + b.batch + underway == taken
  }

  lemma StepConserves(b: Batcher, event: Event, underway: seq<byte>, taken: seq<byte>, limits: Limits)
    requires b.Shaped(limits)
    requires Conserved(b, (if event.Arrival? then event.data else []) + underway, taken)
    ensures b.Step(event, limits).Shaped(limits) && Conserved(b.Step(event, limits), underway, taken)
  {
    var data := if event.Arrival? then event.data else [];
    StepShaped(b, event, limits);
    assert b.wire + b.batch + (data + underway) == b.wire + b.batch + data + underway;
  }

  /** The floor a read met is one the ring's floor has reached. */
  predicate Passed(slices: seq<Slice>, floor: nat) { forall i | 0 <= i < |slices| :: slices[i].floor <= floor }

  ghost predicate ReaderOk(w: World, start: nat) {
    && R.Ok(w.ring, w.history)
    && w.cursor == CursorAt(start, w.slices, |w.slices|) <= |w.history|
    && Chained(start, w.slices, w.history)
    && (w.reader.Parked? ==> w.ring.Read(w.cursor) == R.Blocked)
    && Passed(w.slices, w.ring.floor)
  }

  ghost predicate WireOk(w: World, limits: Limits) {
    w.batcher.Shaped(limits) && Conserved(w.batcher, Underway(w), Taken(w.slices))
  }

  ghost predicate Ok(w: World, start: nat, limits: Limits) { ReaderOk(w, start) && WireOk(w, limits) }

  lemma ChainStands(start: nat, slices: seq<Slice>, history: seq<byte>, more: seq<byte>)
    requires Chained(start, slices, history)
    ensures Chained(start, slices, history + more)
  {
    forall i: nat | i < |slices| ensures ChainedAt(start, slices, history + more, i) {
      assert ChainedAt(start, slices, history, i);
      assert (history + more)[slices[i].from..slices[i].to] == history[slices[i].from..slices[i].to];
    }
  }

  /** Only a write or the end could give a parked reader something, and both wake it. */
  lemma StillBlocked(ring: R.State, history: seq<byte>, op: R.Op, at: nat)
    requires R.Ok(ring, history) && !op.Write? && !op.End? && ring.Read(at) == R.Blocked
    ensures R.Step(ring, op).Read(at) == R.Blocked
  {
    R.StepOk(ring, history, op);
    assert history + [] == history;
    R.ReadMeaning(ring, history, at);
    R.ReadMeaning(R.Step(ring, op), history, at);
  }

  lemma RingStepOk(w: World, op: R.Op, start: nat, limits: Limits)
    requires ReaderOk(w, start)
    ensures ReaderOk(Next(w, OnRing(op), limits), start)
  {
    R.StepOk(w.ring, w.history, op);
    ChainStands(start, w.slices, w.history, R.Printed(op));
    if w.reader.Parked? && !op.Write? && !op.End? {
      StillBlocked(w.ring, w.history, op, w.cursor);
    }
  }

  lemma ChainGrows(start: nat, slices: seq<Slice>, history: seq<byte>, slice: Slice)
    requires Chained(start, slices, history)
    requires slice.from == Max(CursorAt(start, slices, |slices|), slice.floor)
    requires slice.from < slice.to <= |history| && slice.data == history[slice.from..slice.to]
    ensures Chained(start, slices + [slice], history)
  {
    forall i: nat | i <= |slices|
      ensures ChainedAt(start, slices + [slice], history, i)
    {
      assert CursorAt(start, slices + [slice], i) == CursorAt(start, slices, i);
      if i < |slices| {
        assert ChainedAt(start, slices, history, i);
      }
    }
  }

  lemma ReadChains(w: World, start: nat)
    requires ReaderOk(w, start) && w.ring.Read(w.cursor).Bytes?
    ensures var answer := w.ring.Read(w.cursor);
            Chained(start, w.slices + [Slice(answer.from, answer.next, w.ring.floor, answer.data)], w.history)
    ensures w.ring.Read(w.cursor).next == |w.history|
  {
    R.ReadMeaning(w.ring, w.history, w.cursor);
    var from := Max(w.cursor, w.ring.floor);
    assert w.ring.Read(w.cursor) == R.Bytes(from, w.history[from..], |w.history|);
    assert w.history[from..] == w.history[from..|w.history|];
    ChainGrows(start, w.slices, w.history, Slice(from, |w.history|, w.ring.floor, w.history[from..]));
  }

  lemma ReadStepOk(w: World, start: nat, limits: Limits)
    requires ReaderOk(w, start)
    ensures ReaderOk(Next(w, Read, limits), start)
  {
    var answer := w.ring.Read(w.cursor);
    if w.reader.Idle? {
      match answer
      case Bytes(from, data, to) =>
        ReadChains(w, start);
        var slices := w.slices + [Slice(from, to, w.ring.floor, data)];
        assert Next(w, Read, limits) == w.(reader := Holding(data), cursor := to, slices := slices);
      case Ended(_) =>
        assert Next(w, Read, limits) == w.(reader := Finished);
      case Blocked =>
        assert Next(w, Read, limits) == w.(reader := Parked);
    }
  }

  lemma TakenGrows(b: Batcher, underway: seq<byte>, taken: seq<byte>, data: seq<byte>)
    requires Conserved(b, underway, taken)
    ensures Conserved(b, underway + data, taken + data)
  {
    if !b.cut {
      assert b.wire + b.batch + (underway + data) == b.wire + b.batch + underway + data;
    }
  }

  lemma ReadConserves(w: World, limits: Limits)
    requires WireOk(w, limits)
    ensures WireOk(Next(w, Read, limits), limits)
  {
    var answer := w.ring.Read(w.cursor);
    if w.reader.Idle? && answer.Bytes? {
      var slice := Slice(answer.from, answer.next, w.ring.floor, answer.data);
      var slices := w.slices + [slice];
      assert slices[..|w.slices|] == w.slices;
      assert Taken(slices) == Taken(w.slices) + answer.data;
      var held := if w.channel.Some? then w.channel.value else [];
      assert held + [] == held;
      TakenGrows(w.batcher, held, Taken(w.slices), answer.data);
    }
  }

  lemma BatchConserves(w: World, move: Move, limits: Limits)
    requires WireOk(w, limits)
    requires move.Send? || move.Receive? || move.Fire?
    ensures WireOk(Next(w, move, limits), limits)
  {
    match move
    case Send =>
      assert Underway(Next(w, move, limits)) == Underway(w);
    case Receive(sent) =>
      if w.channel.Some? && !w.batcher.cut {
        var held := if w.reader.Holding? then w.reader.data else [];
        assert Underway(w.(channel := None)) == held;
        StepConserves(w.batcher, Arrival(w.channel.value, sent), held, Taken(w.slices), limits);
      }
    case Fire(sent) =>
      assert [] + Underway(w) == Underway(w);
      StepConserves(w.batcher, Deadline(sent), Underway(w), Taken(w.slices), limits);
  }

  lemma CloseConserves(w: World, sent: Sent, limits: Limits)
    requires WireOk(w, limits)
    ensures WireOk(Next(w, Close(sent), limits), limits)
  {
    var b, u := w.batcher, Underway(w);
    assert b.wire + b.batch + [] + u == b.wire + b.batch + u;
    assert forall n | 0 <= n <= |b.batch| :: b.wire + b.batch[..n] <= b.wire + b.batch;
  }

  lemma NextOk(w: World, move: Move, start: nat, limits: Limits)
    requires Ok(w, start, limits)
    ensures Ok(Next(w, move, limits), start, limits)
  {
    match move
    case OnRing(op) => RingStepOk(w, op, start, limits);
    case Read => ReadStepOk(w, start, limits); ReadConserves(w, limits);
    case Close(sent) => CloseConserves(w, sent, limits);
    case _ => BatchConserves(w, move, limits);
  }

  ghost function Run(w: World, moves: seq<Move>, limits: Limits): World
    decreases |moves|
  {
    if moves == [] then w else Run(Next(w, moves[0], limits), moves[1..], limits)
  }

  /** A delivery begins at the cursor its attach was answered, which is never past the live edge. */
  function Begin(ring: R.State, history: seq<byte>, at: nat): World {
    World(ring, history, at, Idle, None, EMPTY, [])
  }

  lemma {:induction false} RunOk(w: World, moves: seq<Move>, start: nat, limits: Limits)
    requires Ok(w, start, limits)
    ensures Ok(Run(w, moves, limits), start, limits)
    decreases |moves|
  {
    if moves != [] {
      NextOk(w, moves[0], start, limits);
      RunOk(Next(w, moves[0], limits), moves[1..], start, limits);
    }
  }

  lemma {:induction false} Ordered(start: nat, slices: seq<Slice>, history: seq<byte>, i: nat, j: nat)
    requires Chained(start, slices, history) && i < j < |slices|
    ensures slices[i].to <= slices[j].from
    decreases j
  {
    assert ChainedAt(start, slices, history, j) && ChainedAt(start, slices, history, j - 1);
    if i < j - 1 {
      Ordered(start, slices, history, i, j - 1);
    }
  }

  /** Whatever writes, trims, leases, reads, sends and deadlines interleave with a delivery: the ranges it
      emits are disjoint pieces of the history in increasing order, it skips a byte only when the ring no
      longer held it, the wire has the bytes of those ranges in order with nothing but the open batch and
      what is underway still to come, and no reader is parked on bytes it could have read. */
  lemma Fidelity(ring: R.State, history: seq<byte>, at: nat, moves: seq<Move>, limits: Limits)
    requires R.Ok(ring, history) && at <= |history|
    ensures var w := Run(Begin(ring, history, at), moves, limits);
            && Chained(at, w.slices, w.history)
            && (forall i | 0 <= i < |w.slices| :: w.slices[i].floor <= w.ring.floor)
            && (forall i, j | 0 <= i < j < |w.slices| :: w.slices[i].to <= w.slices[j].from)
            && w.batcher.Shaped(limits)
            && (if w.batcher.cut then w.batcher.wire <= Taken(w.slices)
                else w.batcher.wire + w.batcher.batch + Underway(w) == Taken(w.slices))
            && (w.reader.Parked? ==> |w.history| <= Max(w.cursor, w.ring.floor) && !w.ring.ended)
  {
    var begin := Begin(ring, history, at);
    var w := Run(begin, moves, limits);
    RunOk(begin, moves, at, limits);
    R.ReadMeaning(w.ring, w.history, w.cursor);
    forall i, j | 0 <= i < j < |w.slices|
      ensures w.slices[i].to <= w.slices[j].from
    {
      Ordered(at, w.slices, w.history, i, j);
    }
  }

  /** A reader the floor never overtook gets the history from where it began, whole. */
  lemma {:induction false} NotOvertaken(start: nat, slices: seq<Slice>, history: seq<byte>)
    requires Chained(start, slices, history) && start <= |history|
    requires forall i: nat | i < |slices| :: slices[i].floor <= CursorAt(start, slices, i)
    ensures start <= CursorAt(start, slices, |slices|) <= |history|
    ensures Taken(slices) == history[start..CursorAt(start, slices, |slices|)]
    decreases |slices|
  {
    if slices != [] {
      var n := |slices| - 1;
      var before := slices[..n];
      forall i: nat | i < n
        ensures ChainedAt(start, before, history, i) && before[i].floor <= CursorAt(start, before, i)
      {
        assert ChainedAt(start, slices, history, i);
        assert CursorAt(start, before, i) == CursorAt(start, slices, i);
      }
      NotOvertaken(start, before, history);
      assert ChainedAt(start, slices, history, n);
      assert CursorAt(start, before, n) == CursorAt(start, slices, n) == slices[n].from;
      SliceJoin(history, start, slices[n].from, slices[n].to);
    }
  }

  // ---------------------------------------------------------------- what is taken is sent

  /** A deadline that fires on a connection that takes it sends everything held, and so does a batch that is
      full or smaller than the hold; anything else is held with its deadline armed. On one that breaks, what it
      took of the batch is the last it gets. */
  lemma BatchSent(b: Batcher, data: seq<byte>, limits: Limits)
    requires b.Shaped(limits) && !b.cut
    ensures forall n: nat | b.batch != [] ::
              var broken := b.Step(Deadline(Cut(n)), limits);
              broken.cut && broken.wire == b.wire + b.batch[..Min(n, |b.batch|)]
    ensures var fired := b.Step(Deadline(All), limits);
            fired.batch == [] && fired.wire == b.wire + b.batch && !fired.cut
    ensures var size, next := |b.batch + data|, b.Step(Arrival(data, All), limits);
            && !next.cut
            && (size >= limits.deliveryBatch || size < limits.deliveryMinHold <==>
                next.batch == [] && next.wire == b.wire + b.batch + data)
            && (limits.deliveryMinHold <= size < limits.deliveryBatch ==>
                  next.batch == b.batch + data && next.armed && next.wire == b.wire)
  {
    assert b.wire + (b.batch + data) == b.wire + b.batch + data;
  }

  lemma RunFirst(w: World, move: Move, rest: seq<Move>, limits: Limits)
    ensures Run(w, [move] + rest, limits) == Run(Next(w, move, limits), rest, limits)
  {
    assert ([move] + rest)[1..] == rest;
  }

  lemma RunFour(w: World, a: Move, b: Move, c: Move, d: Move, limits: Limits)
    ensures Run(w, [a, b, c, d], limits) ==
            Next(Next(Next(Next(w, a, limits), b, limits), c, limits), d, limits)
  {
    var w1 := Next(w, a, limits);
    var w2 := Next(w1, b, limits);
    var w3 := Next(w2, c, limits);
    RunFirst(w3, d, [], limits);
    RunFirst(w2, c, [d], limits);
    RunFirst(w1, b, [c, d], limits);
    RunFirst(w, a, [b, c, d], limits);
  }

  lemma ReadThenSend(w: World, start: nat, limits: Limits)
    requires ReaderOk(w, start) && w.reader.Idle? && w.channel.None?
    requires Max(w.cursor, w.ring.floor) < |w.history|
    ensures var sent := Next(Next(w, Read, limits), Send, limits);
            && sent.channel == Some(w.history[Max(w.cursor, w.ring.floor)..]) && sent.batcher == w.batcher
            && sent.reader.Idle? && sent.cursor == |w.history|
  {
    R.ReadMeaning(w.ring, w.history, w.cursor);
  }

  lemma ReceiveThenFire(w: World, limits: Limits)
    requires w.batcher.Shaped(limits) && !w.batcher.cut && w.channel.Some?
    ensures var end := Next(Next(w, Receive(All), limits), Fire(All), limits);
            && end.reader == w.reader && end.cursor == w.cursor && end.channel.None? && end.batcher.batch == []
            && end.batcher.wire == w.batcher.wire + w.batcher.batch + w.channel.value
  {
    var b, data := w.batcher, w.channel.value;
    BatchSent(b, data, limits);
    StepShaped(b, Arrival(data, All), limits);
    BatchSent(b.Step(Arrival(data, All), limits), [], limits);
    assert b.wire + b.batch + data == b.wire + (b.batch + data);
  }

  /** A reader that is not stuck catches up: one read, one send, one arrival and a deadline later, a connection
      that takes what it is given has everything taken so far and everything the ring held, to its live edge. */
  lemma CatchesUp(w: World, start: nat, limits: Limits)
    requires Ok(w, start, limits) && w.reader.Idle? && w.channel.None? && !w.batcher.cut
    requires Max(w.cursor, w.ring.floor) < |w.history|
    ensures var end := Run(w, [Read, Send, Receive(All), Fire(All)], limits);
            && end.cursor == |w.history| && end.reader.Idle? && end.channel.None? && end.batcher.batch == []
            && end.batcher.wire == w.batcher.wire + w.batcher.batch + w.history[Max(w.cursor, w.ring.floor)..]
  {
    ReadThenSend(w, start, limits);
    ReceiveThenFire(Next(Next(w, Read, limits), Send, limits), limits);
    RunFour(w, Read, Send, Receive(All), Fire(All), limits);
  }

  /** A reader at the end of a session that has ended finishes, and what was held is sent. */
  lemma EndsSent(w: World, start: nat, limits: Limits)
    requires Ok(w, start, limits) && w.reader.Idle? && w.channel.None? && !w.batcher.cut
    requires Max(w.cursor, w.ring.floor) >= |w.history| && w.ring.ended
    ensures var end := Run(w, [Read, Close(All)], limits);
            && end.reader.Finished? && end.batcher.batch == [] && end.batcher.wire == Taken(w.slices)
  {
    R.ReadMeaning(w.ring, w.history, w.cursor);
    var read := Next(w, Read, limits);
    RunFirst(read, Close(All), [], limits);
    RunFirst(w, Read, [Close(All)], limits);
    assert w.batcher.wire + w.batcher.batch + [] == w.batcher.wire + w.batcher.batch;
    assert Underway(w) == [];
  }
}
