/** One subscriber's queue of what a session did. It is bounded in output bytes, so it may lose output,
    but never silently: what is delivered and what is queued together tile the source, each stretch
    either carried byte for byte or named as a gap. */
module Observer {
  import opened Base
  import R = Ring

  datatype Observation =
    | Output(event: nat, from: nat, through: nat, data: seq<byte>)
    | Gap(fromEvent: nat, throughEvent: nat, from: nat, through: nat)
    | Resize(event: nat, cols: nat, rows: nat)
    | End(event: nat)
    | Opened(event: nat, floor: nat)

  datatype Queue = Queue(capacity: nat, events: seq<Observation>, queued: int, closed: bool, gaps: nat) {

    /** Contiguous output extends the last queued output instead of taking a place of its own. */
    predicate Joins(output: Observation)
      requires output.Output?
    {
      events != [] && var last := events[|events| - 1];
        last.Output? && last.event + 1 == output.event && last.through == output.from
    }

    function PublishOutput(output: Observation): Queue
      requires output.Output?
    {
      if closed then this
      else if queued + |output.data| <= capacity then
        var n := |events|;
        if Joins(output) then
          this.(events := events[..n - 1] +
                  [Output(output.event, events[n - 1].from, output.through, events[n - 1].data + output.data)],
                queued := queued + |output.data|)
        else
          this.(events := events + [output], queued := queued + |output.data|)
      else
        PublishGap(Gap(output.event, output.event + 1, output.from, output.through))
    }

    function PublishGap(gap: Observation): Queue
      requires gap.Gap?
    {
      var n := |events|;
      if closed then this
      else if n > 0 && events[n - 1].Gap? && events[n - 1].throughEvent == gap.fromEvent then
        this.(events := events[..n - 1] +
                [Gap(events[n - 1].fromEvent, gap.throughEvent, events[n - 1].from, gap.through)])
      else
        this.(events := events + [gap], gaps := gaps + 1)
    }

    function Publish(event: Observation): Queue {
      if closed then this else this.(events := events + [event])
    }

    /** Waits while the queue is open and empty; a closed queue drains and then answers nothing. */
    predicate CanTake() { events != [] || closed }

    function Head(): Option<Observation> { if events == [] then None else Some(events[0]) }

    function Take(): Queue {
      if events == [] then this
      else this.(events := events[1..], queued := queued - Bytes(events[0]))
    }

    function Close(): Queue { this.(closed := true) }
  }

  function Bytes(event: Observation): nat { if event.Output? then |event.data| else 0 }

  function NewQueue(capacity: int): Queue {
    Queue(if capacity < 1 then 1 else capacity, [], 0, false, 0)
  }

  class Observer {
    const capacity: nat
    var events: seq<Observation>
    var queued: int
    var closed: bool
    var gaps: nat

    ghost predicate Valid()
      reads this
    {
      queued == QueuedBytes(events) <= capacity
    }

    function View(): Queue
      reads this
    {
      Queue(capacity, events, queued, closed, gaps)
    }

    constructor (capacity: int)
      ensures Valid() && View() == NewQueue(capacity)
    {
      this.capacity := if capacity < 1 then 1 else capacity;
      events, queued, closed, gaps := [], 0, false, 0;
    }

    method PublishOutput(output: Observation)
      requires Valid() && output.Output?
      modifies this
      ensures Valid() && View() == old(View()).PublishOutput(output)
    {
      PublishKeepsCount(View(), output);
      if closed {
        return;
      }
      if queued + |output.data| <= capacity {
        if |events| > 0 {
          var last := events[|events| - 1];
          if last.Output? && last.event + 1 == output.event && last.through == output.from {
            events := events[..|events| - 1] + [Output(output.event, last.from, output.through,
                last.data + output.data)];
            queued := queued + |output.data|;
            return;
          }
        }
        events := events + [output];
        queued := queued + |output.data|;
        return;
      }
      PublishGapLocked(Gap(output.event, output.event + 1, output.from, output.through));
    }

    method PublishGapLocked(gap: Observation)
      requires Valid() && gap.Gap? && !closed
      modifies this
      ensures Valid() && View() == old(View()).PublishGap(gap)
    {
      GapKeepsCount(View(), gap);
      if |events| > 0 {
        var last := events[|events| - 1];
        if last.Gap? && last.throughEvent == gap.fromEvent {
          events := events[..|events| - 1] + [Gap(last.fromEvent, gap.throughEvent, last.from, gap.through)];
          return;
        }
      }
      gaps := gaps + 1;
      events := events + [gap];
    }

    method Publish(event: Observation)
      requires Valid() && !event.Output? && !event.Gap?
      modifies this
      ensures Valid() && View() == old(View()).Publish(event)
    {
      if closed {
        return;
      }
      QueuedAppend(events, event);
      events := events + [event];
    }

    method Next() returns (event: Option<Observation>)
      requires Valid() && View().CanTake()
      modifies this
      ensures Valid() && event == old(View()).Head() && View() == old(View()).Take()
    {
      if |events| == 0 {
        return None;
      }
      event := Some(events[0]);
      QueuedHead(events);
      queued := queued - Bytes(events[0]);
      events := events[1..];
    }

    method Close()
      requires Valid()
      modifies this
      ensures Valid() && View() == old(View()).Close()
    {
      closed := true;
    }
  }

  // ---------------------------------------------------------------- the byte count

  function QueuedBytes(events: seq<Observation>): nat {
    if events == [] then 0
    else QueuedBytes(events[..|events| - 1]) + Bytes(events[|events| - 1])
  }

  function GapCount(events: seq<Observation>): nat {
    if events == [] then 0
    else GapCount(events[..|events| - 1]) + if events[|events| - 1].Gap? then 1 else 0
  }

  lemma QueuedAppend(events: seq<Observation>, event: Observation)
    ensures QueuedBytes(events + [event]) == QueuedBytes(events) + Bytes(event)
    ensures GapCount(events + [event]) == GapCount(events) + if event.Gap? then 1 else 0
  {
    assert (events + [event])[..|events|] == events;
  }

  lemma {:induction false} QueuedHead(events: seq<Observation>)
    requires events != []
    ensures QueuedBytes(events) == Bytes(events[0]) + QueuedBytes(events[1..])
  {
    var n := |events| - 1;
    if n > 0 {
      QueuedHead(events[..n]);
      assert events[..n][1..] == events[1..][..n - 1];
    }
  }

  lemma PublishKeepsCount(q: Queue, output: Observation)
    requires q.queued == QueuedBytes(q.events) <= q.capacity && output.Output?
    ensures var p := q.PublishOutput(output); p.queued == QueuedBytes(p.events) <= p.capacity
  {
    var n := |q.events|;
    if q.queued + |output.data| <= q.capacity {
      if q.Joins(output) {
        var joined := Output(output.event, q.events[n - 1].from, output.through, q.events[n - 1].data + output.data);
        QueuedAppend(q.events[..n - 1], joined);
      } else {
        QueuedAppend(q.events, output);
      }
    } else {
      GapKeepsCount(q, Gap(output.event, output.event + 1, output.from, output.through));
    }
  }

  lemma GapKeepsCount(q: Queue, gap: Observation)
    requires q.queued == QueuedBytes(q.events) <= q.capacity && gap.Gap?
    ensures var p := q.PublishGap(gap); p.queued == QueuedBytes(p.events) <= p.capacity
  {
    var n := |q.events|;
    if n > 0 && q.events[n - 1].Gap? && q.events[n - 1].throughEvent == gap.fromEvent {
      QueuedAppend(q.events[..n - 1], Gap(q.events[n - 1].fromEvent, gap.throughEvent, q.events[n - 1].from,
          gap.through));
    } else {
      QueuedAppend(q.events, gap);
    }
  }

  // ---------------------------------------------------------------- tiling

  /** The outputs and gaps among the events lie end to end from `start` to `end`, in order, with no hole
      and no overlap, and each output carries exactly the bytes of the range it names. */
  ghost predicate Tiles(events: seq<Observation>, history: seq<byte>, start: nat, end: nat) {
    if events == [] then start == end
    else
      var before, last := events[..|events| - 1], events[|events| - 1];
      match last
      case Output(_, from, through, data) =>
        && from <= through == end <= |history|
        && data == history[from..through]
        && Tiles(before, history, start, from)
      case Gap(_, _, from, through) => from <= through == end && Tiles(before, history, start, from)
      case _ => Tiles(before, history, start, end)
  }

  lemma {:induction false} TilesGrow(events: seq<Observation>, history: seq<byte>, more: seq<byte>, start: nat,
      end: nat)
    requires Tiles(events, history, start, end) && end <= |history|
    ensures Tiles(events, history + more, start, end)
  {
    if events != [] {
      var before, last := events[..|events| - 1], events[|events| - 1];
      if last.Output? {
        assert (history + more)[last.from..last.through] == history[last.from..last.through];
        TilesGrow(before, history, more, start, last.from);
      } else if last.Gap? {
        TilesGrow(before, history, more, start, last.from);
      } else {
        TilesGrow(before, history, more, start, end);
      }
    }
  }

  /** One session and one subscriber to it: what was delivered, what is queued, and how far it has been
      told. A closed queue is told nothing more. */
  datatype Telling = Telling(history: seq<byte>, event: nat, queue: Queue, delivered: seq<Observation>, reached: nat) {

    function All(): seq<Observation> { delivered + queue.events }

    function Told(q: Queue): Telling { this.(queue := q, reached := if queue.closed then reached else |history|) }
  }

  ghost predicate Ok(f: Telling) {
    && Tiles(f.All(), f.history, 0, f.reached)
    && f.reached <= |f.history|
    && (!f.queue.closed ==> f.reached == |f.history|)
    && f.queue.queued == QueuedBytes(f.queue.events) <= f.queue.capacity
    && f.queue.gaps == GapCount(f.All())
  }

  datatype Move =
    | Pump(data: seq<byte>)
    | Resized(cols: nat, rows: nat)
    | Ending
    | Announced(floor: nat)
    | Take
    | Close

  /** The pump and the resize run under the session's lock, so each is one step. */
  function Next(f: Telling, move: Move): Telling {
    match move
    case Pump(data) =>
      var g := f.(history := f.history + data, event := f.event + 1);
      g.Told(f.queue.PublishOutput(Output(g.event, |f.history|, |g.history|, data)))
    case Resized(cols, rows) =>
      f.(event := f.event + 1, queue := f.queue.Publish(Resize(f.event + 1, cols, rows)))
    case Ending => f.(event := f.event + 1, queue := f.queue.Publish(End(f.event + 1)))
    case Announced(floor) => f.(queue := f.queue.Publish(Opened(f.event, floor)))
    case Take =>
      f.(queue := f.queue.Take(),
         delivered := if f.queue.events == [] then f.delivered else f.delivered + [f.queue.events[0]])
    case Close => f.(queue := f.queue.Close())
  }

  predicate Carries(event: Observation, history: seq<byte>) {
    event.Output? && event.from <= event.through <= |history| && event.data == history[event.from..event.through]
  }

  /** Appending to the queue appends to everything told. */
  lemma AllAppend(f: Telling, event: Observation)
    ensures f.delivered + (f.queue.events + [event]) == f.All() + [event]
    ensures (f.All() + [event])[..|f.All()|] == f.All()
  {
  }

  /** Replacing the last queued event replaces the last event told. */
  lemma AllReplace(f: Telling, event: Observation)
    requires f.queue.events != []
    ensures var n := |f.queue.events| - 1;
            && f.All()[|f.All()| - 1] == f.queue.events[n]
            && f.delivered + (f.queue.events[..n] + [event]) == f.All()[..|f.All()| - 1] + [event]
  {
  }

  lemma AppendOk(f: Telling, event: Observation)
    requires Tiles(f.All(), f.history, 0, f.reached)
    ensures var all := f.delivered + (f.queue.events + [event]);
            && GapCount(all) == GapCount(f.All()) + (if event.Gap? then 1 else 0)
            && (!event.Output? && !event.Gap? ==> Tiles(all, f.history, 0, f.reached))
            && (event.Gap? && event.from == f.reached <= event.through ==> Tiles(all, f.history, 0, event.through))
            && (Carries(event, f.history) && event.from == f.reached ==> Tiles(all, f.history, 0, event.through))
  {
    AllAppend(f, event);
    QueuedAppend(f.All(), event);
  }

  lemma GapOk(f: Telling, gap: Observation)
    requires Tiles(f.All(), f.history, 0, f.reached) && f.queue.gaps == GapCount(f.All())
    requires gap.Gap? && gap.from == f.reached <= gap.through && !f.queue.closed
    ensures var q := f.queue.PublishGap(gap);
            Tiles(f.delivered + q.events, f.history, 0, gap.through) && q.gaps == GapCount(f.delivered + q.events)
  {
    var n := |f.queue.events|;
    if n > 0 && f.queue.events[n - 1].Gap? && f.queue.events[n - 1].throughEvent == gap.fromEvent {
      var last := f.queue.events[n - 1];
      var joined := Gap(last.fromEvent, gap.throughEvent, last.from, gap.through);
      AllReplace(f, joined);
      var before := f.All()[..|f.All()| - 1];
      QueuedAppend(before, joined);
      assert (before + [joined])[..|before|] == before;
    } else {
      AppendOk(f, gap);
    }
  }

  lemma JoinOk(f: Telling, output: Observation)
    requires Tiles(f.All(), f.history, 0, f.reached) && f.queue.gaps == GapCount(f.All())
    requires Carries(output, f.history) && output.from == f.reached && f.queue.Joins(output)
    ensures var n := |f.queue.events| - 1;
            var last := f.queue.events[n];
            var all := f.delivered +
                (f.queue.events[..n] + [Output(output.event, last.from, output.through, last.data + output.data)]);
            Tiles(all, f.history, 0, output.through) && f.queue.gaps == GapCount(all)
  {
    var last := f.queue.events[|f.queue.events| - 1];
    var joined := Output(output.event, last.from, output.through, last.data + output.data);
    AllReplace(f, joined);
    var before := f.All()[..|f.All()| - 1];
    QueuedAppend(before, joined);
    assert (before + [joined])[..|before|] == before;
    SliceJoin(f.history, last.from, output.from, output.through);
  }

  lemma OutputOk(f: Telling, output: Observation)
    requires Tiles(f.All(), f.history, 0, f.reached) && f.queue.gaps == GapCount(f.All())
    requires Carries(output, f.history) && output.from == f.reached && !f.queue.closed
    ensures var q := f.queue.PublishOutput(output);
            Tiles(f.delivered + q.events, f.history, 0, output.through) && q.gaps == GapCount(f.delivered + q.events)
  {
    var n := |f.queue.events|;
    if f.queue.queued + |output.data| > f.queue.capacity {
      GapOk(f, Gap(output.event, output.event + 1, output.from, output.through));
    } else if f.queue.Joins(output) {
      JoinOk(f, output);
    } else {
      AppendOk(f, output);
    }
  }

  lemma NextOk(f: Telling, move: Move)
    requires Ok(f)
    ensures Ok(Next(f, move))
  {
    match move
    case Pump(data) =>
      var g := f.(history := f.history + data, event := f.event + 1);
      var output := Output(g.event, |f.history|, |g.history|, data);
      TilesGrow(f.All(), f.history, data, 0, f.reached);
      PublishKeepsCount(f.queue, output);
      if !f.queue.closed {
        assert data == g.history[output.from..output.through];
        OutputOk(g, output);
      }
    case Resized(cols, rows) => PublishOk(f, f.event + 1, Resize(f.event + 1, cols, rows));
    case Ending => PublishOk(f, f.event + 1, End(f.event + 1));
    case Announced(floor) => PublishOk(f, f.event, Opened(f.event, floor));
    case Take =>
      if f.queue.events != [] {
        QueuedHead(f.queue.events);
        assert f.delivered + [f.queue.events[0]] + f.queue.events[1..] == f.All();
      }
    case Close =>
  }

  lemma PublishOk(f: Telling, n: nat, event: Observation)
    requires Ok(f) && !event.Output? && !event.Gap?
    ensures Ok(f.(event := n, queue := f.queue.Publish(event)))
  {
    AppendOk(f, event);
    QueuedAppend(f.queue.events, event);
  }

  // ---------------------------------------------------------------- attaching

  /** What `observe` puts in a new queue: the range no longer retained as a gap, then what is retained. */
  function Attach(ring: R.State, event: nat, queue: Queue): Queue {
    var gapped := if ring.floor > 0 then queue.PublishGap(Gap(0, event, 0, ring.floor)) else queue;
    if |ring.bytes| > 0 then gapped.PublishOutput(Output(event, ring.floor, ring.Live(), ring.bytes)) else gapped
  }

  /** `adoptObserver` says where the retained bytes begin before it hands them over. */
  function Adopt(ring: R.State, event: nat, queue: Queue): Queue {
    Attach(ring, event, queue.Publish(Opened(event, ring.floor)))
  }

  /** The invariant of an open feed before it has been told everything printed. */
  ghost predicate Partial(f: Telling) {
    && Tiles(f.All(), f.history, 0, f.reached)
    && f.reached <= |f.history| && !f.queue.closed
    && f.queue.queued == QueuedBytes(f.queue.events) <= f.queue.capacity
    && f.queue.gaps == GapCount(f.All())
  }

  lemma GapPartial(f: Telling, gap: Observation)
    requires Partial(f) && gap.Gap? && gap.from == f.reached <= gap.through <= |f.history|
    ensures Partial(f.(queue := f.queue.PublishGap(gap), reached := gap.through))
  {
    GapOk(f, gap);
    GapKeepsCount(f.queue, gap);
  }

  lemma OutputPartial(f: Telling, output: Observation)
    requires Partial(f) && Carries(output, f.history) && output.from == f.reached
    ensures Partial(f.(queue := f.queue.PublishOutput(output), reached := output.through))
  {
    OutputOk(f, output);
    PublishKeepsCount(f.queue, output);
  }

  lemma AttachOk(ring: R.State, history: seq<byte>, event: nat, queue: Queue)
    requires R.Ok(ring, history)
    requires (forall e | e in queue.events :: e.Opened?) && queue.gaps == 0 && queue.queued == 0 && !queue.closed
    ensures Ok(Telling(history, event, Attach(ring, event, queue), [], |history|))
  {
    OnlyOpened(queue.events, history);
    var f := Telling(history, event, queue, [], 0);
    assert f.All() == queue.events;
    var gap := Gap(0, event, 0, ring.floor);
    if ring.floor > 0 {
      GapPartial(f, gap);
      f := f.(queue := queue.PublishGap(gap), reached := ring.floor);
    }
    var output := Output(event, ring.floor, ring.Live(), ring.bytes);
    if |ring.bytes| > 0 {
      assert ring.bytes == history[ring.floor..ring.Live()];
      OutputPartial(f, output);
    }
  }

  lemma OnlyOpened(events: seq<Observation>, history: seq<byte>)
    requires forall e | e in events :: e.Opened?
    ensures Tiles(events, history, 0, 0) && QueuedBytes(events) == 0 && GapCount(events) == 0
  {
    if events != [] {
      assert events[|events| - 1] in events;
      OnlyOpened(events[..|events| - 1], history);
    }
  }

  function Run(f: Telling, moves: seq<Move>): Telling
    decreases |moves|
  {
    if moves == [] then f else Run(Next(f, moves[0]), moves[1..])
  }

  lemma {:induction false} RunOk(f: Telling, moves: seq<Move>)
    requires Ok(f)
    ensures Ok(Run(f, moves))
    decreases |moves|
  {
    if moves != [] {
      NextOk(f, moves[0]);
      RunOk(Next(f, moves[0]), moves[1..]);
    }
  }

  /** An observer that attaches to a running session, with or without an opening event, and then sees any
      interleaving of output, resizes, deliveries and a close: everything delivered so far, followed by
      everything queued, tiles the source from its first byte up to where the observer was told; the byte
      count is the queued output and never exceeds the capacity. */
  lemma AttachedRunTiles(ring: R.State, history: seq<byte>, event: nat, capacity: int, adopted: bool, moves: seq<Move>)
    requires R.Ok(ring, history)
    ensures var q := NewQueue(capacity);
            var start := Telling(history, event, if adopted then Adopt(ring, event, q) else Attach(ring, event, q), [],
                |history|);
            var f := Run(start, moves);
            && Tiles(f.delivered + f.queue.events, f.history, 0, f.reached)
            && (!f.queue.closed ==> f.reached == |f.history|)
            && f.queue.queued == QueuedBytes(f.queue.events) <= f.queue.capacity
            && f.queue.gaps == GapCount(f.delivered + f.queue.events)
  {
    var q := NewQueue(capacity);
    var announced := q.Publish(Opened(event, ring.floor));
    AttachOk(ring, history, event, if adopted then announced else q);
    RunOk(Telling(history, event, if adopted then Adopt(ring, event, q) else Attach(ring, event, q), [], |history|),
        moves);
  }

  // ---------------------------------------------------------------- what fits is carried

  /** Output there is room for is carried: no gap is added, the bytes queued grow by all of it, and the last
      thing queued is output that ends with it. */
  lemma OutputCarried(q: Queue, output: Observation)
    requires output.Output? && !q.closed && q.queued == QueuedBytes(q.events)
    requires q.queued + |output.data| <= q.capacity
    ensures var p := q.PublishOutput(output);
            && p.gaps == q.gaps && GapCount(p.events) == GapCount(q.events)
            && QueuedBytes(p.events) == QueuedBytes(q.events) + |output.data|
            && p.events != []
            && var last := p.events[|p.events| - 1];
               && last.Output? && last.event == output.event && last.through == output.through
               && |last.data| >= |output.data| && last.data[|last.data| - |output.data|..] == output.data
  {
    var n := |q.events|;
    QueuedAppend(q.events, output);
    if q.Joins(output) {
      var joined := Output(output.event, q.events[n - 1].from, output.through, q.events[n - 1].data + output.data);
      QueuedAppend(q.events[..n - 1], joined);
    }
  }

  lemma GapMeaning(q: Queue, gap: Observation)
    requires gap.Gap? && !q.closed
    ensures var p := q.PublishGap(gap);
            && QueuedBytes(p.events) == QueuedBytes(q.events) && q.gaps <= p.gaps <= q.gaps + 1
            && p.events != []
            && var last := p.events[|p.events| - 1];
               last.Gap? && last.through == gap.through && last.throughEvent == gap.throughEvent
  {
    var n := |q.events|;
    if n > 0 && q.events[n - 1].Gap? && q.events[n - 1].throughEvent == gap.fromEvent {
      var last := q.events[n - 1];
      QueuedAppend(q.events[..n - 1], Gap(last.fromEvent, gap.throughEvent, last.from, gap.through));
      QueuedAppend(q.events[..n - 1], last);
      assert q.events[..n - 1] + [last] == q.events;
    } else {
      QueuedAppend(q.events, gap);
    }
  }

  /** Output there is no room for is a gap of exactly its range, and costs no more than one. */
  lemma OutputDropped(q: Queue, output: Observation)
    requires output.Output? && !q.closed && q.queued + |output.data| > q.capacity
    ensures var p := q.PublishOutput(output);
            && QueuedBytes(p.events) == QueuedBytes(q.events)
            && q.gaps <= p.gaps <= q.gaps + 1
            && p.events != []
            && var last := p.events[|p.events| - 1];
               last.Gap? && last.through == output.through && last.throughEvent == output.event + 1
  {
    GapMeaning(q, Gap(output.event, output.event + 1, output.from, output.through));
  }

  /** The queue is open and has room for what was read. */
  predicate Fits(f: Telling, move: Move) {
    move.Pump? && !f.queue.closed && f.queue.queued + |move.data| <= f.queue.capacity
  }

  predicate Overflows(f: Telling, move: Move) {
    move.Pump? && !f.queue.closed && f.queue.queued + |move.data| > f.queue.capacity
  }

  /** The bytes read in a run at moments when the queue had room for them. */
  function Fitted(f: Telling, moves: seq<Move>): nat
    decreases |moves|
  {
    if moves == [] then 0
    else (if Fits(f, moves[0]) then |moves[0].data| else 0) + Fitted(Next(f, moves[0]), moves[1..])
  }

  /** The reads of a run that the queue had no room for. */
  function Overflown(f: Telling, moves: seq<Move>): nat
    decreases |moves|
  {
    if moves == [] then 0
    else (if Overflows(f, moves[0]) then 1 else 0) + Overflown(Next(f, moves[0]), moves[1..])
  }

  lemma {:induction false} BytesJoin(a: seq<Observation>, b: seq<Observation>)
    ensures QueuedBytes(a + b) == QueuedBytes(a) + QueuedBytes(b)
    decreases |b|
  {
    if b == [] {
      assert a + b == a;
    } else {
      var n := |b| - 1;
      BytesJoin(a, b[..n]);
      QueuedAppend(a + b[..n], b[n]);
      QueuedAppend(b[..n], b[n]);
      assert a + b == a + b[..n] + [b[n]] && b == b[..n] + [b[n]];
    }
  }

  /** What one step adds to the bytes carried and to the gaps. */
  predicate Carried(f: Telling, g: Telling, bytes: nat, gaps: nat) {
    && QueuedBytes(g.All()) == QueuedBytes(f.All()) + bytes
    && f.queue.gaps <= g.queue.gaps <= f.queue.gaps + gaps
  }

  lemma SameDelivered(f: Telling, g: Telling, bytes: nat, gaps: nat)
    requires g.delivered == f.delivered && QueuedBytes(g.queue.events) == QueuedBytes(f.queue.events) + bytes
    requires f.queue.gaps <= g.queue.gaps <= f.queue.gaps + gaps
    ensures Carried(f, g, bytes, gaps)
  {
    BytesJoin(f.delivered, f.queue.events);
    BytesJoin(g.delivered, g.queue.events);
  }

  lemma PumpCarries(f: Telling, data: seq<byte>)
    requires Ok(f)
    ensures Carried(f, Next(f, Pump(data)), if Fits(f, Pump(data)) then |data| else 0,
                    if Overflows(f, Pump(data)) then 1 else 0)
  {
    var output := Output(f.event + 1, |f.history|, |f.history + data|, data);
    if Fits(f, Pump(data)) {
      OutputCarried(f.queue, output);
    } else if Overflows(f, Pump(data)) {
      OutputDropped(f.queue, output);
    }
    SameDelivered(f, Next(f, Pump(data)), if Fits(f, Pump(data)) then |data| else 0,
                  if Overflows(f, Pump(data)) then 1 else 0);
  }

  lemma NoticeCarries(f: Telling, n: nat, event: Observation)
    requires !event.Output? && !event.Gap?
    ensures Carried(f, f.(event := n, queue := f.queue.Publish(event)), 0, 0)
  {
    QueuedAppend(f.queue.events, event);
    SameDelivered(f, f.(event := n, queue := f.queue.Publish(event)), 0, 0);
  }

  lemma NextCarries(f: Telling, move: Move)
    requires Ok(f)
    ensures Carried(f, Next(f, move), if Fits(f, move) then |move.data| else 0, if Overflows(f, move) then 1 else 0)
  {
    match move
    case Pump(data) => PumpCarries(f, data);
    case Resized(cols, rows) => NoticeCarries(f, f.event + 1, Resize(f.event + 1, cols, rows));
    case Ending => NoticeCarries(f, f.event + 1, End(f.event + 1));
    case Announced(floor) => NoticeCarries(f, f.event, Opened(f.event, floor));
    case Take =>
      if f.queue.events != [] {
        assert Next(f, move).All() == f.All();
      }
    case Close =>
  }

  /** Over any run: what is carried, delivered or queued, grows by exactly the bytes read when there was room for
      them, and a gap is added only by a read there was no room for. */
  lemma {:induction false} RunCarries(f: Telling, moves: seq<Move>)
    requires Ok(f)
    ensures QueuedBytes(Run(f, moves).All()) == QueuedBytes(f.All()) + Fitted(f, moves)
    ensures f.queue.gaps <= Run(f, moves).queue.gaps <= f.queue.gaps + Overflown(f, moves)
    decreases |moves|
  {
    if moves != [] {
      NextOk(f, moves[0]);
      NextCarries(f, moves[0]);
      RunCarries(Next(f, moves[0]), moves[1..]);
    }
  }

  /** An observer whose capacity what is retained fits gets all of it. */
  lemma AttachCarries(ring: R.State, event: nat, queue: Queue)
    requires queue.events == [] && queue.queued == 0 && !queue.closed && |ring.bytes| <= queue.capacity
    ensures QueuedBytes(Attach(ring, event, queue).events) == |ring.bytes|
    ensures Attach(ring, event, queue).gaps == queue.gaps + if ring.floor > 0 then 1 else 0
    ensures QueuedBytes(Adopt(ring, event, queue).events) == |ring.bytes|
  {
    AttachFits(ring, event, queue);
    QueuedAppend([], Opened(event, ring.floor));
    assert [] + [Opened(event, ring.floor)] == [Opened(event, ring.floor)];
    AttachFits(ring, event, queue.Publish(Opened(event, ring.floor)));
  }

  lemma AttachFits(ring: R.State, event: nat, queue: Queue)
    requires QueuedBytes(queue.events) == 0 == queue.queued && !queue.closed && |ring.bytes| <= queue.capacity
    requires forall e | e in queue.events :: e.Opened?
    ensures QueuedBytes(Attach(ring, event, queue).events) == |ring.bytes|
    ensures Attach(ring, event, queue).gaps == queue.gaps + if ring.floor > 0 then 1 else 0
  {
    var gap := Gap(0, event, 0, ring.floor);
    var gapped := if ring.floor > 0 then queue.PublishGap(gap) else queue;
    QueuedAppend(queue.events, gap);
    if queue.events != [] {
      assert queue.events[|queue.events| - 1] in queue.events;
    }
    if |ring.bytes| > 0 {
      OutputCarried(gapped, Output(event, ring.floor, ring.Live(), ring.bytes));
    }
  }

  // ---------------------------------------------------------------- everything else is told

  /** The events that are neither output nor a gap. */
  function Notices(events: seq<Observation>): seq<Observation> {
    if events == [] then []
    else
      var last := events[|events| - 1];
      Notices(events[..|events| - 1]) + if last.Output? || last.Gap? then [] else [last]
  }

  /** What a step announces to an open queue. */
  function Noticed(f: Telling, move: Move): seq<Observation> {
    if f.queue.closed then []
    else match move
      case Resized(cols, rows) => [Resize(f.event + 1, cols, rows)]
      case Ending => [End(f.event + 1)]
      case Announced(floor) => [Opened(f.event, floor)]
      case _ => []
  }

  function NoticedAll(f: Telling, moves: seq<Move>): seq<Observation>
    decreases |moves|
  {
    if moves == [] then [] else Noticed(f, moves[0]) + NoticedAll(Next(f, moves[0]), moves[1..])
  }

  lemma NoticesLast(events: seq<Observation>, event: Observation)
    ensures Notices(events + [event]) == Notices(events) + if event.Output? || event.Gap? then [] else [event]
  {
    assert (events + [event])[..|events|] == events;
  }

  lemma NoticesReplaced(f: Telling, event: Observation)
    requires f.queue.events != [] && (event.Output? || event.Gap?)
    requires var last := f.queue.events[|f.queue.events| - 1]; last.Output? || last.Gap?
    ensures Notices(f.delivered + (f.queue.events[..|f.queue.events| - 1] + [event])) == Notices(f.All())
  {
    AllReplace(f, event);
    NoticesLast(f.All()[..|f.All()| - 1], event);
  }

  lemma PumpNotices(f: Telling, data: seq<byte>)
    ensures Notices(Next(f, Pump(data)).All()) == Notices(f.All())
  {
    var output := Output(f.event + 1, |f.history|, |f.history + data|, data);
    var gap := Gap(output.event, output.event + 1, output.from, output.through);
    var n := |f.queue.events|;
    AllAppend(f, output);
    AllAppend(f, gap);
    NoticesLast(f.All(), output);
    NoticesLast(f.All(), gap);
    if !f.queue.closed && n > 0 && (f.queue.events[n - 1].Output? || f.queue.events[n - 1].Gap?) {
      var last := f.queue.events[n - 1];
      if last.Output? {
        NoticesReplaced(f, Output(output.event, last.from, output.through, last.data + output.data));
      } else {
        NoticesReplaced(f, Gap(last.fromEvent, gap.throughEvent, last.from, gap.through));
      }
    }
  }

  lemma NextNotices(f: Telling, move: Move)
    ensures Notices(Next(f, move).All()) == Notices(f.All()) + Noticed(f, move)
  {
    assert Notices(f.All()) + [] == Notices(f.All());
    match move
    case Pump(data) => PumpNotices(f, data);
    case Resized(cols, rows) =>
      AllAppend(f, Resize(f.event + 1, cols, rows));
      NoticesLast(f.All(), Resize(f.event + 1, cols, rows));
    case Ending =>
      AllAppend(f, End(f.event + 1));
      NoticesLast(f.All(), End(f.event + 1));
    case Announced(floor) =>
      AllAppend(f, Opened(f.event, floor));
      NoticesLast(f.All(), Opened(f.event, floor));
    case Take =>
      if f.queue.events != [] {
        assert Next(f, Take).All() == f.All();
      }
    case Close =>
  }

  lemma Regroup(a: seq<Observation>, b: seq<Observation>, c: seq<Observation>)
    ensures a + b + c == a + (b + c)
  {
  }

  /** Over any run, every resize, end and opening announced while the queue was open is told, once, in order. */
  lemma {:induction false} RunNotices(f: Telling, moves: seq<Move>)
    ensures Notices(Run(f, moves).All()) == Notices(f.All()) + NoticedAll(f, moves)
    decreases |moves|
  {
    if moves == [] {
      assert Notices(f.All()) + [] == Notices(f.All());
    } else {
      var g := Next(f, moves[0]);
      NextNotices(f, moves[0]);
      RunNotices(g, moves[1..]);
      Regroup(Notices(f.All()), Noticed(f, moves[0]), NoticedAll(g, moves[1..]));
    }
  }

  /** As many takes as there are events deliver all of them, open or closed. */
  lemma {:induction false} TakesDeliver(f: Telling)
    ensures Run(f, seq(|f.queue.events|, _ => Take)).delivered == f.All()
    ensures Run(f, seq(|f.queue.events|, _ => Take)).queue.events == []
    decreases |f.queue.events|
  {
    var takes := seq(|f.queue.events|, _ => Take);
    if f.queue.events == [] {
      assert f.All() == f.delivered;
    } else {
      var g := Next(f, Take);
      assert g.All() == f.All();
      assert takes[1..] == seq(|g.queue.events|, _ => Take);
      TakesDeliver(g);
    }
  }

  /** A closed queue is told nothing more. */
  lemma {:induction false} ClosedIsTold(f: Telling, moves: seq<Move>)
    requires f.queue.closed
    ensures Run(f, moves).queue.closed && Run(f, moves).All() == f.All() && Next(f, Close).queue.closed
    decreases |moves|
  {
    if moves != [] {
      var g := Next(f, moves[0]);
      assert g.All() == f.All();
      ClosedIsTold(g, moves[1..]);
    }
  }
}
