/** The lossy queue between a session's pump and its store, and an account of every byte the session
    printed: stored, on the way, or lost.

    The store never looks at a byte, so here it runs on cells: each byte with the coordinate it was printed
    at. What is stored can then be compared with where it says it is. */
module Feed {
  import opened Base
  import S = Store

  /** How far the store may fall behind: two full reads. */
  const DEPTH: nat := 2 * 32768

  /** Nothing fails, and a write takes anything the feed can hold. */
  const ALL := S.Faults(false, S.Opens, false, false, false, S.Opens, DEPTH)

  datatype Chunk<T> = Chunk(data: seq<T>, through: nat)

  datatype Queue<T> = Queue(pending: seq<Chunk<T>>, queued: int, closed: bool) {

    predicate Takes(data: seq<T>) { !closed && queued + |data| <= DEPTH }

    function Offer(data: seq<T>, through: nat): Queue<T> {
      if Takes(data) then this.(pending := pending + [Chunk(data, through)], queued := queued + |data|) else this
    }

    /** The store's goroutine waits while the queue is open and empty, and is done when it is closed and empty. */
    predicate CanTake() { pending != [] }

    function Take(): Queue<T>
      requires CanTake()
    {
      this.(pending := pending[1..], queued := queued - |pending[0].data|)
    }

    function Close(): Queue<T> { this.(closed := true) }
  }

  function Weight<T>(chunks: seq<Chunk<T>>): nat {
    if chunks == [] then 0 else Weight(chunks[..|chunks| - 1]) + |chunks[|chunks| - 1].data|
  }

  /** A chunk is accepted exactly while the feed is open and it, with everything queued, is within the depth; it
      then waits behind everything queued, and a refused one changes nothing. */
  lemma OfferMeaning<T>(q: Queue<T>, data: seq<T>, through: nat)
    requires q.queued == Weight(q.pending)
    ensures q.Takes(data) <==> !q.closed && Weight(q.pending) + |data| <= 65536
    ensures q.Takes(data) ==>
              && q.Offer(data, through).pending == q.pending + [Chunk(data, through)]
              && Weight(q.Offer(data, through).pending) == Weight(q.pending) + |data|
    ensures !q.Takes(data) ==> q.Offer(data, through) == q
    ensures !q.Close().Takes(data) && q.Close().pending == q.pending
  {
    WeightAppend(q.pending, Chunk(data, through));
  }

  class StoreFeed<T> {
    var pending: seq<Chunk<T>>
    var queued: int
    var closed: bool

    function View(): Queue<T>
      reads this
    {
      Queue(pending, queued, closed)
    }

    /** The count is what is queued, and never more than the depth. */
    predicate Valid()
      reads this
    {
      queued == Weight(pending) <= DEPTH
    }

    constructor ()
      ensures Valid() && View() == Queue([], 0, false)
    {
      pending, queued, closed := [], 0, false;
    }

    method Offer(data: seq<T>, through: nat) returns (taken: bool)
      requires Valid()
      modifies this
      ensures Valid() && View() == old(View()).Offer(data, through) && taken == old(View()).Takes(data)
    {
      if closed {
        return false;
      }
      if queued + |data| > DEPTH {
        return false;
      }
      WeightAppend(pending, Chunk(data, through));
      pending := pending + [Chunk(data, through)];
      queued := queued + |data|;
      return true;
    }

    /** One turn of the store's goroutine, before it hands the chunk over outside the lock. */
    method Take() returns (next: Option<Chunk<T>>)
      requires Valid() && (pending != [] || closed)
      modifies this
      ensures Valid()
      ensures if old(pending) == [] then next == None && View() == old(View())
              else next == Some(old(pending)[0]) && View() == old(View()).Take()
    {
      if |pending| == 0 {
        return None;
      }
      WeightHead(pending);
      next := Some(pending[0]);
      queued := queued - |pending[0].data|;
      pending := pending[1..];
    }

    /** What was accepted is still taken afterwards; nothing more is accepted. */
    method Close()
      requires Valid()
      modifies this
      ensures Valid() && View() == old(View()).Close()
    {
      closed := true;
    }
  }

  lemma WeightAppend<T>(chunks: seq<Chunk<T>>, chunk: Chunk<T>)
    ensures Weight(chunks + [chunk]) == Weight(chunks) + |chunk.data|
  {
    assert (chunks + [chunk])[..|chunks|] == chunks;
  }

  lemma {:induction false} WeightHead<T>(chunks: seq<Chunk<T>>)
    requires chunks != []
    ensures Weight(chunks) == |chunks[0].data| + Weight(chunks[1..])
  {
    var n := |chunks| - 1;
    if n > 0 {
      WeightHead(chunks[..n]);
      assert chunks[..n][1..] == chunks[1..][..n - 1];
    }
  }

  // ---------------------------------------------------------------- the account

  /** A byte and the coordinate it was printed at. */
  datatype Cell = Cell(at: nat, value: byte)

  function Cells(history: seq<byte>, from: nat, to: nat): seq<Cell>
    requires from <= to <= |history|
  {
    seq(to - from, i requires 0 <= i < to - from => Cell(from + i, history[from + i]))
  }

  /** A session's output on its way to disk. `last` is where the last chunk handed to the store ended. */
  datatype Pipe = Pipe(
    history: seq<byte>,
    queue: Queue<Cell>,
    inflight: Option<Chunk<Cell>>,
    store: S.State<Cell>,
    last: nat)
  {
    /** What the store has still to be handed, in order. */
    function Line(): seq<Chunk<Cell>> {
      (if inflight.Some? then [inflight.value] else []) + queue.pending
    }
  }

  datatype Move =
    | Print(data: seq<byte>)
    | Take
    | Sink(f: S.Faults)
    | Stop(at: int, through: nat)
    | Close

  /** The pump prints and offers in one step; the store's goroutine takes and then appends; the stop writes
      its mark over whatever the store has by then, with the coordinate it read from the session before. */
  function Next(p: Pipe, move: Move): Pipe {
    match move
    case Print(data) =>
      var history := p.history + data;
      p.(history := history, queue := p.queue.Offer(Cells(history, |p.history|, |history|), |history|))
    case Take =>
      if p.inflight.None? && p.queue.CanTake()
      then p.(inflight := Some(p.queue.pending[0]), queue := p.queue.Take())
      else p
    case Sink(f) =>
      if p.inflight.None? || p.inflight.value.through < |p.inflight.value.data| then p
      else
        var c := p.inflight.value;
        p.(inflight := None, store := p.store.Append(c.data, c.through, f).state, last := c.through)
    case Stop(at, through) =>
      if p.store.disk.record.None? || through > |p.history| then p
      else
        var record := p.store.disk.record.value.(endedAt := Some(at), endedThrough := through);
        p.(store := p.store.(disk := p.store.disk.(record := Some(record))))
    case Close => p.(queue := p.queue.Close())
  }

  /** The chunk is a stretch of the history, as printed. */
  ghost predicate Stretch(c: Chunk<Cell>, history: seq<byte>) {
    |c.data| <= c.through <= |history| && c.data == Cells(history, c.through - |c.data|, c.through)
  }

  /** Where the chunk before the `i`th ended. */
  function EndBefore(line: seq<Chunk<Cell>>, last: nat, i: nat): nat
    requires i <= |line|
  {
    if i == 0 then last else line[i - 1].through
  }

  ghost predicate LinedAt(line: seq<Chunk<Cell>>, last: nat, history: seq<byte>, i: nat)
    requires i < |line|
  {
    Stretch(line[i], history) && EndBefore(line, last, i) + |line[i].data| <= line[i].through
  }

  /** The chunks come in the order they were printed, after what was handed over. */
  ghost predicate Lined(line: seq<Chunk<Cell>>, last: nat, history: seq<byte>) {
    last <= |history| && forall i: nat | i < |line| :: LinedAt(line, last, history, i)
  }

  ghost predicate PlacedAt(cells: seq<Cell>, from: nat, end: nat, history: seq<byte>, i: nat)
    requires i < |cells|
  {
    && (if i == 0 then from else cells[i - 1].at + 1) <= cells[i].at < end <= |history|
    && cells[i].value == history[cells[i].at]
  }

  /** The cells lie in a range, in order, each with the byte printed there. */
  ghost predicate Placed(cells: seq<Cell>, from: nat, end: nat, history: seq<byte>) {
    forall i: nat | i < |cells| :: PlacedAt(cells, from, end, history, i)
  }

  /** The store's part of the invariant. */
  ghost predicate StoreOk(store: S.State<Cell>, last: nat, history: seq<byte>) {
    && S.Sound(store)
    && store.disk.record.value.written <= last
    && Placed(store.disk.Current(), store.disk.record.value.written, last, history)
    && Placed(store.disk.Other(), 0, store.disk.record.value.written, history)
  }

  /** Every byte the session printed is stored, on its way, or lost, and those stored know where they were
      printed. */
  ghost predicate Accounted(p: Pipe) {
    && StoreOk(p.store, p.last, p.history)
    && Lined(p.Line(), p.last, p.history)
    && p.queue.queued == Weight(p.queue.pending) <= DEPTH
  }

  /** And the stop mark, if there is one, was made by this process. */
  ghost predicate Ok(p: Pipe) { Accounted(p) && p.store.disk.record.value.endedThrough <= |p.history| }

  lemma LinedGrows(line: seq<Chunk<Cell>>, last: nat, history: seq<byte>, more: seq<byte>)
    requires Lined(line, last, history)
    ensures Lined(line, last, history + more)
  {
    forall i: nat | i < |line| ensures LinedAt(line, last, history + more, i) {
      assert LinedAt(line, last, history, i);
      var c := line[i];
      assert Cells(history + more, c.through - |c.data|, c.through) == Cells(history, c.through - |c.data|, c.through);
    }
  }

  lemma LinedAppend(line: seq<Chunk<Cell>>, last: nat, before: nat, history: seq<byte>)
    requires Lined(line, last, history) && EndBefore(line, last, |line|) <= before <= |history|
    ensures Lined(line + [Chunk(Cells(history, before, |history|), |history|)], last, history)
  {
    var longer := line + [Chunk(Cells(history, before, |history|), |history|)];
    forall i: nat | i < |longer| ensures LinedAt(longer, last, history, i) {
      if i < |line| {
        assert LinedAt(line, last, history, i);
      }
    }
  }

  lemma LinedEnd(line: seq<Chunk<Cell>>, last: nat, history: seq<byte>)
    requires Lined(line, last, history)
    ensures EndBefore(line, last, |line|) <= |history|
  {
    if line != [] {
      assert LinedAt(line, last, history, |line| - 1);
    }
  }

  lemma PlacedGrows(cells: seq<Cell>, from: nat, end: nat, history: seq<byte>, more: seq<byte>)
    requires Placed(cells, from, end, history)
    ensures Placed(cells, from, end, history + more)
  {
    forall i: nat | i < |cells| ensures PlacedAt(cells, from, end, history + more, i) {
      assert PlacedAt(cells, from, end, history, i);
    }
  }

  lemma StoreGrows(store: S.State<Cell>, last: nat, history: seq<byte>, more: seq<byte>)
    requires StoreOk(store, last, history)
    ensures StoreOk(store, last, history + more)
  {
    PlacedGrows(store.disk.Current(), store.disk.record.value.written, last, history, more);
    PlacedGrows(store.disk.Other(), 0, store.disk.record.value.written, history, more);
  }

  lemma OfferLined(p: Pipe, data: seq<byte>)
    requires Lined(p.Line(), p.last, p.history)
    ensures Lined(Next(p, Print(data)).Line(), p.last, p.history + data)
  {
    var history, line := p.history + data, p.Line();
    var chunk := Chunk(Cells(history, |p.history|, |history|), |history|);
    LinedEnd(line, p.last, p.history);
    LinedGrows(line, p.last, p.history, data);
    if p.queue.Takes(chunk.data) {
      LinedAppend(line, p.last, |p.history|, history);
      assert Next(p, Print(data)).Line() == line + [chunk];
    }
  }

  lemma PrintAccounted(p: Pipe, data: seq<byte>)
    requires Accounted(p)
    ensures Accounted(Next(p, Print(data)))
  {
    var history := p.history + data;
    StoreGrows(p.store, p.last, p.history, data);
    OfferLined(p, data);
    WeightAppend(p.queue.pending, Chunk(Cells(history, |p.history|, |history|), |history|));
  }

  lemma TakeAccounted(p: Pipe)
    requires Accounted(p)
    ensures Accounted(Next(p, Take))
  {
    if p.inflight.None? && p.queue.CanTake() {
      WeightHead(p.queue.pending);
      assert Next(p, Take).Line() == p.Line();
    }
  }

  lemma PlacedJoin(cells: seq<Cell>, from: nat, last: nat, chunk: Chunk<Cell>, taken: nat, history: seq<byte>)
    requires Placed(cells, from, last, history) && Stretch(chunk, history) && taken <= |chunk.data|
    requires from <= last && last + |chunk.data| <= chunk.through
    ensures Placed(cells + chunk.data[..taken], from, chunk.through, history)
    ensures Placed(chunk.data[..taken], chunk.through - |chunk.data|, chunk.through, history)
    ensures Placed(cells, 0, chunk.through - |chunk.data|, history)
  {
    var joined, part := cells + chunk.data[..taken], chunk.data[..taken];
    forall i: nat | i < |joined| ensures PlacedAt(joined, from, chunk.through, history, i) {
      if i < |cells| {
        assert PlacedAt(cells, from, last, history, i);
      } else if i == |cells| > 0 {
        assert PlacedAt(cells, from, last, history, i - 1);
      }
    }
    var start: nat := chunk.through - |chunk.data|;
    forall i: nat | i < |part| ensures PlacedAt(part, start, chunk.through, history, i) {
    }
    forall i: nat | i < |cells| ensures PlacedAt(cells, 0, start, history, i) {
      assert PlacedAt(cells, from, last, history, i);
    }
  }

  lemma AppendedStoreOk(before: S.State<Cell>, after: S.State<Cell>, last: nat, c: Chunk<Cell>, taken: nat,
      history: seq<byte>)
    requires StoreOk(before, last, history) && S.Sound(after) && taken <= |c.data|
    requires Stretch(c, history) && last + |c.data| <= c.through
    requires S.Appended(before.disk, after.disk, |c.data|, c.through - |c.data|, c.data[..taken])
    ensures StoreOk(after, c.through, history)
  {
    var w := before.disk.record.value.written;
    PlacedJoin(before.disk.Current(), w, last, c, taken, history);
    if after.disk.record == before.disk.record {
      assert after.disk.Other() == [] ==> Placed(after.disk.Other(), 0, w, history);
    }
  }

  lemma AppendStoreOk(store: S.State<Cell>, last: nat, c: Chunk<Cell>, f: S.Faults, history: seq<byte>)
    requires StoreOk(store, last, history) && Stretch(c, history) && last + |c.data| <= c.through
    ensures StoreOk(store.Append(c.data, c.through, f).state, c.through, history)
  {
    var taken := S.AppendEffect(store, c.data, c.through, f);
    AppendedStoreOk(store, store.Append(c.data, c.through, f).state, last, c, taken, history);
  }

  lemma LinedRest(line: seq<Chunk<Cell>>, last: nat, history: seq<byte>)
    requires Lined(line, last, history) && line != []
    ensures Stretch(line[0], history) && last + |line[0].data| <= line[0].through
    ensures Lined(line[1..], line[0].through, history)
  {
    assert LinedAt(line, last, history, 0);
    forall i: nat | i < |line[1..]| ensures LinedAt(line[1..], line[0].through, history, i) {
      assert LinedAt(line, last, history, i + 1);
    }
  }

  lemma SinkAccounted(p: Pipe, f: S.Faults)
    requires Accounted(p) && p.inflight.Some?
    ensures Accounted(Next(p, Sink(f)))
  {
    var c := p.inflight.value;
    LinedRest(p.Line(), p.last, p.history);
    AppendStoreOk(p.store, p.last, c, f, p.history);
    assert Next(p, Sink(f)).Line() == p.Line()[1..];
  }

  lemma NextAccounted(p: Pipe, move: Move)
    requires Accounted(p)
    ensures Accounted(Next(p, move))
  {
    match move
    case Print(data) => PrintAccounted(p, data);
    case Take => TakeAccounted(p);
    case Sink(f) =>
      if p.inflight.Some? {
        SinkAccounted(p, f);
      }
    case Stop(at, through) =>
    case Close =>
  }

  lemma NextOk(p: Pipe, move: Move)
    requires Ok(p)
    ensures Ok(Next(p, move))
  {
    NextAccounted(p, move);
    if move.Sink? && p.inflight.Some? {
      LinedRest(p.Line(), p.last, p.history);
      var taken := S.AppendEffect(p.store, p.inflight.value.data, p.inflight.value.through, move.f);
    }
  }

  function Run(p: Pipe, moves: seq<Move>): Pipe
    decreases |moves|
  {
    if moves == [] then p else Run(Next(p, moves[0]), moves[1..])
  }

  lemma {:induction false} RunOk(p: Pipe, moves: seq<Move>)
    requires Ok(p)
    ensures Ok(Run(p, moves))
    decreases |moves|
  {
    if moves != [] {
      NextOk(p, moves[0]);
      RunOk(Next(p, moves[0]), moves[1..]);
    }
  }

  /** A session opened now: its record is created, and neither segment is there. */
  function Begin(facts: S.Record): Pipe {
    var record := facts.(segment := 0, written := 0, endedAt := None, exitCode := None, endedThrough := 0);
    Pipe([], Queue([], 0, false), None, S.State(S.Disk(Some(record), map[]), false, -1, 0), 0)
  }

  lemma BeginOk(facts: S.Record)
    ensures Ok(Begin(facts)) && Missing(Begin(facts)) == {}
  {
  }

  // ---------------------------------------------------------------- what is missing

  function Range(from: nat, end: nat): (range: set<nat>)
    requires from <= end
    ensures forall k :: k in range <==> from <= k < end
    ensures |range| == end - from
    decreases end
  {
    if from == end then {} else Range(from, end - 1) + {end - 1}
  }

  function Coordinates(cells: seq<Cell>): set<nat> {
    set i | 0 <= i < |cells| :: cells[i].at
  }

  /** Printed since the current segment began, and not in it. */
  function Missing(p: Pipe): set<nat>
    requires p.store.disk.record.Some? && p.store.disk.record.value.written <= |p.history|
  {
    Range(p.store.disk.record.value.written, |p.history|) - Coordinates(p.store.disk.Current())
  }

  /** Missing, and not on the way either. */
  function Lost(p: Pipe): set<nat>
    requires p.store.disk.record.Some? && p.store.disk.record.value.written <= |p.history|
  {
    Missing(p) - OnTheWay(p.Line())
  }

  function OnTheWay(line: seq<Chunk<Cell>>): set<nat> {
    set c, i | c in line && 0 <= i < |c.data| :: c.data[i].at
  }

  lemma {:induction false} CoordinatesSize(cells: seq<Cell>, from: nat, end: nat, history: seq<byte>)
    requires Placed(cells, from, end, history)
    ensures |Coordinates(cells)| == |cells|
    ensures forall k | k in Coordinates(cells) :: from <= k < end && k <= cells[|cells| - 1].at
  {
    if cells != [] {
      var n := |cells| - 1;
      forall i: nat | i < n ensures PlacedAt(cells[..n], from, end, history, i) {
        assert PlacedAt(cells, from, end, history, i);
      }
      CoordinatesSize(cells[..n], from, end, history);
      assert PlacedAt(cells, from, end, history, n);
      assert n > 0 ==> PlacedAt(cells, from, end, history, n - 1);
      assert Coordinates(cells) == Coordinates(cells[..n]) + {cells[n].at};
      if n > 0 {
        assert cells[..n][n - 1] == cells[n - 1];
        AtLeast(cells, from, end, history, n);
      }
    }
  }

  lemma StretchPlaced(c: Chunk<Cell>, history: seq<byte>)
    requires Stretch(c, history)
    ensures Placed(c.data, c.through - |c.data|, c.through, history)
  {
    var from: nat := c.through - |c.data|;
    forall i: nat | i < |c.data| ensures PlacedAt(c.data, from, c.through, history, i) {
    }
  }

  lemma OnTheWayLast(line: seq<Chunk<Cell>>)
    requires line != []
    ensures OnTheWay(line) == OnTheWay(line[..|line| - 1]) + Coordinates(line[|line| - 1].data)
  {
    var before, c := line[..|line| - 1], line[|line| - 1];
    assert forall d :: d in line <==> d in before || d == c;
  }

  /** What is on the way is as many coordinates as it is bytes, all past what was handed over. */
  lemma {:induction false} OnTheWaySize(line: seq<Chunk<Cell>>, last: nat, history: seq<byte>)
    requires Lined(line, last, history)
    ensures |OnTheWay(line)| == Weight(line) && last <= EndBefore(line, last, |line|) <= |history|
    ensures forall k | k in OnTheWay(line) :: last <= k < EndBefore(line, last, |line|)
  {
    if line != [] {
      var n := |line| - 1;
      var before, c := line[..n], line[n];
      forall i: nat | i < n ensures LinedAt(before, last, history, i) {
        assert LinedAt(line, last, history, i);
      }
      assert LinedAt(line, last, history, n);
      OnTheWaySize(before, last, history);
      StretchPlaced(c, history);
      CoordinatesSize(c.data, c.through - |c.data|, c.through, history);
      OnTheWayLast(line);
      assert EndBefore(before, last, n) == EndBefore(line, last, n);
      assert OnTheWay(before) !! Coordinates(c.data);
    }
  }

  /** Taking out of a set what is in it takes out as many. */
  lemma SizeLess(all: set<nat>, some: set<nat>)
    requires some <= all
    ensures |all - some| == |all| - |some|
  {
    assert all * some == some;
    assert |all - some| + |all * some| == |all|;
  }

  /** What the derived end falls short of a coordinate at or past the last chunk by. */
  lemma ShortOf(p: Pipe, end: nat)
    requires Accounted(p) && p.last <= end
    ensures p.store.disk.End() <= end && p.store.disk.record.value.written <= end
    ensures |Range(p.store.disk.record.value.written, end) - Coordinates(p.store.disk.Current())| ==
            end - p.store.disk.End()
  {
    var w, cells := p.store.disk.record.value.written, p.store.disk.Current();
    CoordinatesSize(cells, w, p.last, p.history);
    var range, stored := Range(w, end), Coordinates(cells);
    assert stored <= range;
    SizeLess(range, stored);
  }

  /** The session is past the store's derived end by exactly the bytes missing. */
  lemma MissingCount(p: Pipe)
    requires Accounted(p)
    ensures p.store.disk.End() <= |p.history|
    ensures |Missing(p)| == |p.history| - p.store.disk.End()
    ensures p.Line() == [] ==> Lost(p) == Missing(p)
  {
    ShortOf(p, |p.history|);
    assert OnTheWay([]) == {};
  }

  lemma LineIsMissing(p: Pipe)
    requires Accounted(p)
    ensures OnTheWay(p.Line()) <= Missing(p) && |OnTheWay(p.Line())| == Weight(p.Line())
  {
    var w, cells := p.store.disk.record.value.written, p.store.disk.Current();
    CoordinatesSize(cells, w, p.last, p.history);
    OnTheWaySize(p.Line(), p.last, p.history);
    assert forall k | k in OnTheWay(p.Line()) :: k in Range(w, |p.history|) && k !in Coordinates(cells);
  }

  /** Over any run of prints, drops, failed and partial appends and rotations: the last chunk sunk is past the
      store's derived end by exactly the bytes before it that the current segment should have and has not; the
      session is past it by exactly the bytes missing; and of those, what is not on the way is lost. */
  lemma EndFallsShortByMissing(p: Pipe)
    requires Accounted(p)
    ensures p.store.disk.End() <= |p.history|
    ensures p.last - p.store.disk.End() ==
            |Range(p.store.disk.record.value.written, p.last) - Coordinates(p.store.disk.Current())|
    ensures |Missing(p)| == |p.history| - p.store.disk.End()
    ensures |Lost(p)| + Weight(p.Line()) == |p.history| - p.store.disk.End()
  {
    ShortOf(p, p.last);
    MissingCount(p);
    LineIsMissing(p);
    SizeLess(Missing(p), OnTheWay(p.Line()));
  }

  // ---------------------------------------------------------------- what the labels are worth

  /** Each byte was printed at the coordinate it is read at, the first of them at `from`. */
  predicate AtLabels(cells: seq<Cell>, from: int) { forall i: nat | i < |cells| :: LabelAt(cells, from, i) }

  predicate LabelAt(cells: seq<Cell>, from: int, i: nat)
    requires i < |cells|
  {
    cells[i].at == from + i
  }

  /** The newest stored byte was printed right before the derived end. */
  predicate EndsTrue(d: S.Disk<Cell>)
    requires d.record.Some?
  {
    d.Current() == [] || d.Current()[|d.Current()| - 1].at + 1 == d.End()
  }

  /** As many bytes lie from the first of these to where the current segment begins as there are of these. */
  predicate MeetsCurrent(older: seq<Cell>, d: S.Disk<Cell>)
    requires d.record.Some?
  {
    older == [] || older[0].at + |older| == d.record.value.written
  }

  /** No byte was lost before one that is still stored after it. */
  predicate Whole(d: S.Disk<Cell>)
    requires d.record.Some?
  {
    EndsTrue(d) && MeetsCurrent(d.Other(), d)
  }

  /** The same of the part of the output a reader asks for. */
  predicate WholeFor(d: S.Disk<Cell>, atMost: nat)
    requires d.record.Some?
  {
    var newer := S.Tail(d.Current(), atMost);
    var older := S.Tail(d.Other(), atMost - |newer|);
    (newer == [] || EndsTrue(d)) && MeetsCurrent(older, d)
  }

  lemma {:induction false} Apart(cells: seq<Cell>, from: nat, end: nat, history: seq<byte>, i: nat, j: nat)
    requires Placed(cells, from, end, history) && i <= j < |cells|
    ensures from <= cells[i].at && cells[i].at + (j - i) <= cells[j].at < end
    decreases j
  {
    AtLeast(cells, from, end, history, i);
    AtLeast(cells, from, end, history, j);
    if i < j {
      assert PlacedAt(cells, from, end, history, j);
      Apart(cells, from, end, history, i, j - 1);
    }
  }

  /** A tail of the current segment is read at its labels if and only if the newest byte is. */
  lemma NewerLabels(store: S.State<Cell>, last: nat, history: seq<byte>, n: nat)
    requires StoreOk(store, last, history) && n <= |store.disk.Current()|
    ensures var cells := store.disk.Current();
            AtLabels(cells[|cells| - n..], store.disk.End() - n) <==> n == 0 || EndsTrue(store.disk)
  {
    var cells, w := store.disk.Current(), store.disk.record.value.written;
    var part, from := cells[|cells| - n..], store.disk.End() - n;
    if n > 0 {
      assert part[n - 1] == cells[|cells| - 1];
      assert AtLabels(part, from) ==> LabelAt(part, from, n - 1);
      if EndsTrue(store.disk) {
        forall i: nat | i < n ensures LabelAt(part, from, i) {
          AtLeast(cells, w, last, history, |cells| - n + i);
          Apart(cells, w, last, history, |cells| - n + i, |cells| - 1);
        }
      }
    }
  }

  /** A tail of the older half is read at its labels if and only if it begins as far before the current
      segment as it is long. */
  lemma OlderLabels(store: S.State<Cell>, last: nat, history: seq<byte>, n: nat)
    requires StoreOk(store, last, history) && n <= |store.disk.Other()|
    ensures var cells := store.disk.Other();
            AtLabels(cells[|cells| - n..], store.disk.record.value.written - n) <==>
            MeetsCurrent(cells[|cells| - n..], store.disk)
  {
    var cells, w := store.disk.Other(), store.disk.record.value.written;
    var part, from := cells[|cells| - n..], w - n;
    assert n > 0 && AtLabels(part, from) ==> LabelAt(part, from, 0);
    if n > 0 && MeetsCurrent(part, store.disk) {
      forall i: nat | i < n ensures LabelAt(part, from, i) {
        Apart(cells, 0, w, history, |cells| - n, |cells| - n + i);
        Apart(cells, 0, w, history, |cells| - n + i, |cells| - 1);
      }
    }
  }

  /** Every stored byte is read at the coordinate it was printed at if and only if, in each segment, the one
      byte furthest from the boundary between the two is. */
  lemma LabelsTrue(p: Pipe)
    requires Accounted(p)
    ensures var d := p.store.disk;
            && (AtLabels(d.Current(), d.record.value.written) <==> EndsTrue(d))
            && (AtLabels(d.Other(), d.record.value.written - |d.Other()|) <==> MeetsCurrent(d.Other(), d))
  {
    var d := p.store.disk;
    NewerLabels(p.store, p.last, p.history, |d.Current()|);
    OlderLabels(p.store, p.last, p.history, |d.Other()|);
    assert d.Current()[0..] == d.Current() && d.Other()[0..] == d.Other();
  }

  lemma AtLabelsJoin(older: seq<Cell>, newer: seq<Cell>, from: int)
    ensures AtLabels(older + newer, from) <==> AtLabels(older, from) && AtLabels(newer, from + |older|)
  {
    var all, middle := older + newer, from + |older|;
    if AtLabels(all, from) {
      forall i: nat | i < |older| ensures LabelAt(older, from, i) {
        assert LabelAt(all, from, i);
      }
      forall i: nat | i < |newer| ensures LabelAt(newer, middle, i) {
        assert LabelAt(all, from, |older| + i);
      }
    }
    if AtLabels(older, from) && AtLabels(newer, middle) {
      forall i: nat | i < |all| ensures LabelAt(all, from, i) {
        assert if i < |older| then LabelAt(older, from, i) else LabelAt(newer, middle, i - |older|);
      }
    }
  }

  lemma BothLabels(older: seq<Cell>, newer: seq<Cell>, w: nat, end: nat, meets: bool, ends: bool)
    requires AtLabels(newer, end - |newer|) <==> newer == [] || ends
    requires AtLabels(older, w - |older|) <==> meets
    requires older == [] || w + |newer| == end
    ensures AtLabels(older + newer, end - |older + newer|) <==> (newer == [] || ends) && meets
  {
    AtLabelsJoin(older, newer, end - |older + newer|);
    if older == [] {
      assert AtLabels(older, w - |older|) && AtLabels(older, end - |older + newer|);
    }
  }

  lemma TailLabels(
    store: S.State<Cell>, last: nat, history: seq<byte>, newer: seq<Cell>, older: seq<Cell>, n: nat, m: nat)
    requires StoreOk(store, last, history)
    requires newer == S.Tail(store.disk.Current(), n) && older == S.Tail(store.disk.Other(), m)
    ensures AtLabels(newer, store.disk.End() - |newer|) <==> newer == [] || EndsTrue(store.disk)
    ensures AtLabels(older, store.disk.record.value.written - |older|) <==> MeetsCurrent(older, store.disk)
  {
    S.TailIs(store.disk.Current(), n);
    S.TailIs(store.disk.Other(), m);
    NewerLabels(store, last, history, |newer|);
    OlderLabels(store, last, history, |older|);
  }

  /** Whatever a reader asks for of whatever a run left, with any losses: it gets each byte at the coordinate
      it was printed at if and only if what it asks for is whole. */
  lemma OutputLabels(p: Pipe, atMost: nat)
    requires Accounted(p)
    ensures var d := p.store.disk;
            AtLabels(d.Output(atMost), d.End() - |d.Output(atMost)|) <==> WholeFor(d, atMost)
  {
    var d := p.store.disk;
    var newer := S.Tail(d.Current(), atMost);
    var older := S.Tail(d.Other(), atMost - |newer|);
    TailLabels(p.store, p.last, p.history, newer, older, atMost, atMost - |newer|);
    BothLabels(older, newer, d.record.value.written, d.End(), MeetsCurrent(older, d), EndsTrue(d));
  }

  /** What keeps it so, append by append: from a whole store, an append that stores or moves anything leaves a
      whole one if and only if the coordinate its chunk begins at is the end the store derives. */
  lemma AppendKeepsWhole(
    before: S.State<Cell>, after: S.State<Cell>, last: nat, c: Chunk<Cell>, taken: nat, history: seq<byte>)
    requires StoreOk(before, last, history) && S.Sound(after) && taken <= |c.data|
    requires Stretch(c, history) && last + |c.data| <= c.through
    requires S.Appended(before.disk, after.disk, |c.data|, c.through - |c.data|, c.data[..taken])
    requires Whole(before.disk)
    ensures Whole(after.disk) <==>
            c.through - |c.data| == before.disk.End() || (after.disk.record == before.disk.record && taken == 0)
  {
    var cells, w := before.disk.Current(), before.disk.record.value.written;
    if cells != [] {
      Apart(cells, w, last, history, 0, |cells| - 1);
      AtLeast(cells, w, last, history, 0);
    }
    if taken > 0 {
      assert c.data[..taken][taken - 1].at == c.through - |c.data| + taken - 1;
    }
  }

  lemma {:induction false} AtLeast(cells: seq<Cell>, from: nat, end: nat, history: seq<byte>, i: nat)
    requires i < |cells| && Placed(cells, from, end, history)
    ensures from + i <= cells[i].at < end
  {
    assert PlacedAt(cells, from, end, history, i);
    if i > 0 {
      AtLeast(cells, from, end, history, i - 1);
    }
  }

  function Values(cells: seq<Cell>): seq<byte> {
    seq(|cells|, i requires 0 <= i < |cells| => cells[i].value)
  }

  lemma ValuesJoin(a: seq<Cell>, b: seq<Cell>)
    ensures Values(a + b) == Values(a) + Values(b)
  {
  }

  /** The files themselves hold bytes. */
  function Bytes(d: S.Disk<Cell>): S.Disk<byte> {
    S.Disk(d.record, map k | k in d.segments :: Values(d.segments[k]))
  }

  lemma ValuesTail(cells: seq<Cell>, n: nat)
    ensures S.Tail(Values(cells), n) == Values(S.Tail(cells, n))
  {
  }

  lemma BytesSegments(d: S.Disk<Cell>)
    requires d.record.Some?
    ensures Bytes(d).Current() == Values(d.Current()) && Bytes(d).Other() == Values(d.Other())
    ensures Bytes(d).End() == d.End()
  {
  }

  lemma BytesOutput(d: S.Disk<Cell>, atMost: nat)
    requires d.record.Some?
    ensures Bytes(d).Output(atMost) == Values(d.Output(atMost))
  {
    var newer := S.Tail(d.Current(), atMost);
    BytesSegments(d);
    ValuesTail(d.Current(), atMost);
    ValuesTail(d.Other(), atMost - |newer|);
    ValuesJoin(S.Tail(d.Other(), atMost - |newer|), newer);
  }

  lemma PlacedBetween(cells: seq<Cell>, from: nat, end: nat, history: seq<byte>)
    requires Placed(cells, from, end, history) && cells != []
    ensures cells[0].at <= end && Coordinates(cells) <= Range(cells[0].at, end) && |Coordinates(cells)| == |cells|
  {
    AtLeast(cells, from, end, history, 0);
    CoordinatesSize(cells, from, end, history);
    forall k | k in Coordinates(cells) ensures k in Range(cells[0].at, end) {
      var i: nat :| i < |cells| && cells[i].at == k;
      Apart(cells, from, end, history, 0, i);
    }
  }

  /** As many bytes as there is room for, from the first of them to `end`, exactly when none in between is
      not among them. */
  lemma FullWhenNoneMissing(cells: seq<Cell>, from: nat, last: nat, end: nat, history: seq<byte>)
    requires Placed(cells, from, last, history) && cells != [] && last <= end
    ensures cells[0].at + |cells| <= end
    ensures cells[0].at + |cells| == end <==> Range(cells[0].at, end) <= Coordinates(cells)
  {
    AtLeast(cells, from, last, history, 0);
    PlacedBetween(cells, from, last, history);
    var range, stored := Range(cells[0].at, end), Coordinates(cells);
    assert stored <= range by {
      forall k | k in stored ensures k in range {
        assert k in Range(cells[0].at, last);
      }
    }
    assert |range| == |range - stored| + |range * stored| && range * stored == stored;
    assert |range - stored| == 0 <==> range - stored == {};
  }
}
