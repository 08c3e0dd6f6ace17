/** One session through any number of daemon processes. Each process prints, stores, loses what its feed or its
    store cannot take, and may be killed at any point; the next one stands the session back up from what is
    on disk, and takes the stored output to be where the store says it ends.

    `history` is what the process running now takes to have been printed, at the coordinates its readers use. */
module Lifetime {
  import opened Base
  import R = Ring
  import S = Store
  import F = Feed
  import V = Restore
  import M = Records

  datatype Life = Life(limits: Limits, ring: R.State, pipe: F.Pipe)

  datatype Move =
    | Piped(move: F.Move)
    | OnRing(op: R.Op)
    | Edit(record: S.Record)
    | Restart(cut: S.Faults, unmark: bool)
    | StaleRestart(cut: S.Faults, unmark: bool)

  /** What is on disk when the process is killed: inside an append, the append is cut where `cut` says. */
  function Left(p: F.Pipe, cut: S.Faults): S.Disk<F.Cell> {
    if p.inflight.Some? && p.inflight.value.through >= |p.inflight.value.data|
    then p.store.Append(p.inflight.value.data, p.inflight.value.through, cut).state.disk
    else p.store.disk
  }

  /** The next process knows a stored byte by where it reads it, not by where it was printed. */
  function Relabelled(cells: seq<F.Cell>, from: nat): seq<F.Cell> {
    seq(|cells|, i requires 0 <= i < |cells| => F.Cell(from + i, cells[i].value))
  }

  function Beginning(d: S.Disk<F.Cell>, k: int): nat
    requires d.record.Some?
  {
    var w := d.record.value.written;
    if k == d.record.value.segment || |d.Segment(k)| > w then w else w - |d.Segment(k)|
  }

  function Relabel(d: S.Disk<F.Cell>): S.Disk<F.Cell>
    requires d.record.Some?
  {
    d.(segments := map k | k in d.segments :: Relabelled(d.segments[k], Beginning(d, k)))
  }

  function Afresh(d: S.Disk<F.Cell>, unmark: bool): S.State<F.Cell>
    requires d.record.Some?
  {
    S.State(if unmark then V.Unmarked(Relabel(d)) else Relabel(d), false, -1, 0)
  }

  function Queued(q: F.Queue<byte>, history: seq<byte>): F.Queue<F.Cell> {
    F.Queue(seq(|q.pending|, i requires 0 <= i < |q.pending| => Printed(q.pending[i], history)), q.queued, q.closed)
  }

  /** A chunk the new process offers, as printed at the end of its history. */
  function Printed(c: F.Chunk<byte>, history: seq<byte>): F.Chunk<F.Cell> {
    F.Chunk(if |c.data| <= |history| then F.Cells(history, |history| - |c.data|, |history|) else [], c.through)
  }

  /** The next process: what it heard, the join if that did not end a line, and the store it found. */
  ghost function Stood(limits: Limits, history: seq<byte>, d: S.Disk<F.Cell>, unmark: bool): Life
    requires V.Backed(F.Bytes(d)) && d.record.value.written <= |history|
  {
    var stood, heard := V.Stand(F.Bytes(d), limits), V.Heard(history, F.Bytes(d));
    var grown := heard + V.Join(heard);
    Life(limits, stood.ring, F.Pipe(grown, Queued(stood.queue, grown), None, Afresh(d, unmark), |heard|))
  }

  ghost function Restarted(l: Life, left: S.Disk<F.Cell>, unmark: bool): Life {
    if V.Backed(F.Bytes(left)) && left.record.value.written <= |l.pipe.history|
    then Stood(l.limits, l.pipe.history, left, unmark)
    else l
  }

  /** Every step: a move that is not enabled changes nothing, and one that loses output loses it. A stale restart
      follows a stop whose mark went back to the segment a rotation had just left. */
  ghost function Next(l: Life, move: Move): Life {
    match move
    case Piped(m) =>
      if m.Print? && |m.data| > READ then l
      else l.(pipe := F.Next(l.pipe, m), ring := if m.Print? then l.ring.Write(m.data) else l.ring)
    case OnRing(op) => if op.Write? then l else l.(ring := R.Step(l.ring, op))
    case Edit(record) => l.(pipe := Edited(l.pipe, record))
    case Restart(cut, unmark) => Restarted(l, Left(l.pipe, cut), unmark)
    case StaleRestart(cut, unmark) => StaleRestarted(l, Left(l.pipe, cut), unmark)
  }

  ghost function StaleRestarted(l: Life, left: S.Disk<F.Cell>, unmark: bool): Life {
    if left.record.Some? && left.record.value.written > 0 then Restarted(l, M.Stale(left), unmark) else l
  }

  /** Any change to the record but where the output is. */
  function Edited(p: F.Pipe, record: S.Record): F.Pipe {
    if p.store.disk.record.Some? && record.segment == p.store.disk.record.value.segment
       && record.written == p.store.disk.record.value.written
    then p.(store := p.store.(disk := p.store.disk.(record := Some(record))))
    else p
  }

  // ---------------------------------------------------------------- the invariant

  /** Neither segment is over the bound, something stored is still there, and a current segment that is not the
      first begins past a segment less one chunk. */
  predicate Fits(d: S.Disk<F.Cell>) {
    && V.Kept(d) && |d.Current()| <= S.BOUND && |d.Other()| <= S.BOUND
    && (d.record.value.written == 0 || d.record.value.written + READ > S.BOUND)
  }

  predicate Small(line: seq<F.Chunk<F.Cell>>) { forall c | c in line :: |c.data| <= READ }

  ghost predicate Ok(l: Life) {
    && R.Ok(l.ring, l.pipe.history)
    && F.Accounted(l.pipe)
    && Fits(l.pipe.store.disk)
    && Small(l.pipe.Line())
  }

  lemma AppendFits(before: S.Disk<F.Cell>, after: S.Disk<F.Cell>, size: nat, at: nat, taken: seq<F.Cell>)
    requires Fits(before) && after.record.Some? && |taken| <= size <= READ && before.End() <= at
    requires S.Appended(before, after, size, at, taken)
    ensures Fits(after)
  {
  }

  lemma SinkFits(p: F.Pipe, f: S.Faults)
    requires F.Accounted(p) && Fits(p.store.disk) && Small(p.Line()) && p.inflight.Some?
    ensures var c := p.inflight.value;
            c.through >= |c.data| && Fits(p.store.Append(c.data, c.through, f).state.disk)
  {
    var c := p.inflight.value;
    F.LinedRest(p.Line(), p.last, p.history);
    assert c in p.Line();
    var taken := S.AppendEffect(p.store, c.data, c.through, f);
    var after := p.store.Append(c.data, c.through, f).state.disk;
    EndIsReached(p.store, p.last, p.history);
    AppendFits(p.store.disk, after, |c.data|, c.through - |c.data|, c.data[..taken]);
  }

  lemma PrintFits(p: F.Pipe, data: seq<byte>)
    requires Small(p.Line()) && |data| <= READ
    ensures Small(F.Next(p, F.Print(data)).Line())
  {
    var history, after := p.history + data, F.Next(p, F.Print(data)).Line();
    assert after == p.Line() || after == p.Line() + [F.Chunk(F.Cells(history, |p.history|, |history|), |history|)];
  }

  lemma PipedFits(p: F.Pipe, m: F.Move)
    requires F.Accounted(p) && Fits(p.store.disk) && Small(p.Line()) && (m.Print? ==> |m.data| <= READ)
    ensures Fits(F.Next(p, m).store.disk) && Small(F.Next(p, m).Line())
  {
    match m
    case Print(data) => PrintFits(p, data);
    case Take =>
      assert forall c | c in F.Next(p, m).Line() :: c in p.Line();
    case Sink(f) =>
      if p.inflight.Some? {
        SinkFits(p, f);
        assert forall c | c in F.Next(p, m).Line() :: c in p.Line();
      }
    case Stop(at, through) =>
      assert F.Next(p, m).store.disk.Current() == p.store.disk.Current();
    case Close =>
  }

  lemma PipedOk(l: Life, m: F.Move)
    requires Ok(l)
    ensures Ok(Next(l, Piped(m)))
  {
    if m.Print? && |m.data| <= READ {
      F.NextAccounted(l.pipe, m);
      PipedFits(l.pipe, m);
      R.StepOk(l.ring, l.pipe.history, R.Write(m.data));
      assert R.Step(l.ring, R.Write(m.data)) == l.ring.Write(m.data);
    } else if !m.Print? {
      F.NextAccounted(l.pipe, m);
      PipedFits(l.pipe, m);
      assert F.Next(l.pipe, m).history == l.pipe.history;
    }
  }

  lemma OnRingOk(l: Life, op: R.Op)
    requires Ok(l)
    ensures Ok(Next(l, OnRing(op)))
  {
    if !op.Write? {
      R.StepOk(l.ring, l.pipe.history, op);
      assert l.pipe.history + [] == l.pipe.history;
    }
  }

  lemma EditOk(l: Life, record: S.Record)
    requires Ok(l)
    ensures Ok(Next(l, Edit(record)))
  {
    var a, b := l.pipe.store.disk, Edited(l.pipe, record).store.disk;
    assert b.Current() == a.Current() && b.Other() == a.Other();
  }

  // ---------------------------------------------------------------- a kill and a restart

  /** Whatever the cut, the account is as after an append that failed there: no stored byte is gone but for
      want of room, and the store's end has not gone back. */
  lemma LeftAccounted(p: F.Pipe, cut: S.Faults)
    requires F.Accounted(p) && Fits(p.store.disk) && Small(p.Line())
    ensures Fits(Left(p, cut))
    ensures exists store: S.State<F.Cell>, last: nat ::
              store.disk == Left(p, cut) && F.StoreOk(store, last, p.history) && last <= |p.history|
    ensures p.store.disk.End() <= Left(p, cut).End() <= |p.history|
  {
    if p.inflight.Some? {
      var c := p.inflight.value;
      SinkFits(p, cut);
      F.LinedRest(p.Line(), p.last, p.history);
      F.AppendStoreOk(p.store, p.last, c, cut, p.history);
      var after := p.store.Append(c.data, c.through, cut).state;
      var taken := S.AppendEffect(p.store, c.data, c.through, cut);
      assert after.disk == Left(p, cut);
      EndIsReached(p.store, p.last, p.history);
      EndIsReached(after, c.through, p.history);
    } else {
      assert p.store.disk == Left(p, cut);
      EndIsReached(p.store, p.last, p.history);
    }
  }

  lemma EndIsReached(store: S.State<F.Cell>, last: nat, history: seq<byte>)
    requires F.StoreOk(store, last, history) && last <= |history|
    ensures store.disk.End() <= last
  {
    var cells := store.disk.Current();
    if cells != [] {
      F.AtLeast(cells, store.disk.record.value.written, last, history, |cells| - 1);
    }
  }

  /** Nothing was lost in front of anything still stored, and nothing is lost since: what is on the way to the
      store is exactly what was printed past what it has. */
  predicate Tight(p: F.Pipe) {
    && p.store.disk.record.Some? && F.Whole(p.store.disk)
    && p.last == p.store.disk.End()
    && Contiguous(p.Line(), p.last, |p.history|)
  }

  predicate Contiguous(line: seq<F.Chunk<F.Cell>>, from: nat, end: nat) {
    && (forall i: nat | i < |line| :: NextTo(line, from, i))
    && F.EndBefore(line, from, |line|) == end
  }

  predicate NextTo(line: seq<F.Chunk<F.Cell>>, from: nat, i: nat)
    requires i < |line|
  {
    F.EndBefore(line, from, i) + |line[i].data| == line[i].through
  }

  lemma RelabelSegments(d: S.Disk<F.Cell>)
    requires V.Backed(d)
    ensures var w, r := d.record.value.written, Relabel(d);
            && r.record == d.record
            && r.Current() == Relabelled(d.Current(), w)
            && r.Other() == Relabelled(d.Other(), w - |d.Other()|)
            && r.End() == d.End()
  {
  }

  lemma RelabelledPlaced(cells: seq<F.Cell>, from: nat, low: nat, end: nat, history: seq<byte>)
    requires low <= from && from + |cells| <= end <= |history|
    requires history[from..from + |cells|] == F.Values(cells)
    ensures F.Placed(Relabelled(cells, from), low, end, history)
  {
    var placed := Relabelled(cells, from);
    forall i: nat | i < |placed| ensures F.PlacedAt(placed, low, end, history, i) {
      assert history[from..from + |cells|][i] == F.Values(cells)[i];
    }
  }

  lemma RelabelOk(d: S.Disk<F.Cell>, heard: seq<byte>, grown: seq<byte>)
    requires V.Backed(d) && S.Spans(F.Bytes(d), heard) && heard <= grown && |heard| == d.End()
    ensures var w, r := d.record.value.written, Relabel(d);
            && F.Placed(r.Current(), w, |heard|, grown) && F.Placed(r.Other(), 0, w, grown)
  {
    var w, other := d.record.value.written, |d.Other()|;
    RelabelSegments(d);
    F.BytesSegments(d);
    assert grown[w..w + |d.Current()|] == heard[w..];
    assert grown[w - other..w - other + other] == heard[w - other..w];
    RelabelledPlaced(d.Current(), w, w, |heard|, grown);
    RelabelledPlaced(d.Other(), w - other, 0, w, grown);
  }

  lemma AfreshReads(d: S.Disk<F.Cell>, unmark: bool)
    requires V.Backed(d)
    ensures var a, w := Afresh(d, unmark).disk, d.record.value.written;
            && a.record.Some? && a.record.value.segment == d.record.value.segment && a.record.value.written == w
            && a.Current() == Relabel(d).Current() == Relabelled(d.Current(), w)
            && a.Other() == Relabel(d).Other() == Relabelled(d.Other(), w - |d.Other()|)
            && a.End() == d.End() && F.Whole(a)
  {
    var r := Relabel(d);
    RelabelSegments(d);
    assert V.Unmarked(r).Current() == r.Current() && V.Unmarked(r).Other() == r.Other();
  }

  /** The store the next process finds, and nothing missing from it. */
  lemma AfreshOk(d: S.Disk<F.Cell>, heard: seq<byte>, grown: seq<byte>, unmark: bool)
    requires V.Backed(d) && (d.record.value.segment == 0 || d.record.value.segment == 1)
    requires S.Spans(F.Bytes(d), heard) && heard <= grown && |heard| == d.End()
    ensures var store := Afresh(d, unmark);
            && F.StoreOk(store, |heard|, grown) && store.disk.End() == |heard| && F.Whole(store.disk)
            && store.disk.End() == d.End()
            && |store.disk.Current()| == |d.Current()| && |store.disk.Other()| == |d.Other()|
  {
    RelabelOk(d, heard, grown);
    AfreshReads(d, unmark);
  }

  lemma QueuedLine(heard: seq<byte>)
    ensures var grown := heard + V.Join(heard);
            var q := Queued(V.JoinQueue(heard), grown);
            && F.Lined(q.pending, |heard|, grown) && q.queued == F.Weight(q.pending) <= F.DEPTH && !q.closed
            && Small(q.pending) && Contiguous(q.pending, |heard|, |grown|)
  {
    var grown := heard + V.Join(heard);
    var q := Queued(V.JoinQueue(heard), grown);
    if !V.EndsLine(heard) {
      var c := F.Chunk(F.Cells(grown, |heard|, |grown|), |grown|);
      assert q.pending == [c] && q.pending[..0] == [];
      assert F.LinedAt(q.pending, |heard|, grown, 0);
    }
  }

  /** What the next process begins with, given what it heard. */
  function StoodPipe(heard: seq<byte>, store: S.State<F.Cell>): F.Pipe {
    var grown := heard + V.Join(heard);
    F.Pipe(grown, Queued(V.JoinQueue(heard), grown), None, store, |heard|)
  }

  lemma StoodPipeOk(heard: seq<byte>, store: S.State<F.Cell>)
    requires F.StoreOk(store, |heard|, heard + V.Join(heard)) && store.disk.End() == |heard| && F.Whole(store.disk)
    ensures var p := StoodPipe(heard, store);
            F.Accounted(p) && Tight(p) && Small(p.Line()) && heard <= p.history
  {
    var grown := heard + V.Join(heard);
    QueuedLine(heard);
    NothingInflight(grown, Queued(V.JoinQueue(heard), grown), store, |heard|);
  }

  lemma FitsAsMuch(a: S.Disk<F.Cell>, b: S.Disk<F.Cell>)
    requires Fits(a) && b.record.Some? && b.End() == a.End()
    requires |b.Current()| == |a.Current()| && |b.Other()| == |a.Other()|
    requires b.record.value.written == a.record.value.written
    ensures Fits(b)
  {
  }

  lemma NothingInflight(history: seq<byte>, queue: F.Queue<F.Cell>, store: S.State<F.Cell>, last: nat)
    requires F.StoreOk(store, last, history) && store.disk.End() == last && F.Whole(store.disk)
    requires F.Lined(queue.pending, last, history) && queue.queued == F.Weight(queue.pending) <= F.DEPTH
    requires Small(queue.pending) && Contiguous(queue.pending, last, |history|)
    ensures var p := F.Pipe(history, queue, None, store, last);
            F.Accounted(p) && Tight(p) && Small(p.Line())
  {
    assert F.Pipe(history, queue, None, store, last).Line() == queue.pending;
  }

  lemma StoodOk(limits: Limits, d: S.Disk<F.Cell>, history: seq<byte>, unmark: bool)
    requires V.Backed(d) && d.record.value.written <= |history| && Fits(d)
    requires d.record.value.segment == 0 || d.record.value.segment == 1
    ensures V.Backed(F.Bytes(d)) && d.record.value.written <= |history|
    ensures var l := Stood(limits, history, d, unmark);
            && Ok(l) && Tight(l.pipe)
            && l.pipe.store.disk.End() == d.End()
            && V.Heard(history, F.Bytes(d)) <= l.pipe.history
  {
    F.BytesSegments(d);
    V.HeardSpans(history, F.Bytes(d));
    var heard := V.Heard(history, F.Bytes(d));
    V.StandMeaning(F.Bytes(d), heard, limits);
    AfreshOk(d, heard, heard + V.Join(heard), unmark);
    FitsAsMuch(d, Afresh(d, unmark).disk);
    StoodPipeOk(heard, Afresh(d, unmark));
    var ring, pipe := V.Stand(F.Bytes(d), limits).ring, StoodPipe(heard, Afresh(d, unmark));
    assert Stood(limits, history, d, unmark) == Life(limits, ring, pipe);
  }

  lemma RestartOk(l: Life, cut: S.Faults, unmark: bool)
    requires Ok(l)
    ensures var next := Restarted(l, Left(l.pipe, cut), unmark);
            && Ok(next) && Tight(next.pipe)
            && l.pipe.store.disk.End() <= Left(l.pipe, cut).End() == next.pipe.store.disk.End()
            && V.Backed(F.Bytes(Left(l.pipe, cut))) && Left(l.pipe, cut).record.value.written <= |l.pipe.history|
            && V.Heard(l.pipe.history, F.Bytes(Left(l.pipe, cut))) <= next.pipe.history
  {
    LeftAccounted(l.pipe, cut);
    var store: S.State<F.Cell>, last: nat :|
      store.disk == Left(l.pipe, cut) && F.StoreOk(store, last, l.pipe.history) && last <= |l.pipe.history|;
    V.StoreBacked(store, last, l.pipe.history);
    StoodOk(l.limits, Left(l.pipe, cut), l.pipe.history, unmark);
  }

  /** What a stop leaves when its mark names the other segment. */
  lemma StaleLeft(l: Life, cut: S.Faults)
    requires Ok(l) && Left(l.pipe, cut).record.Some? && Left(l.pipe, cut).record.value.written > 0
    ensures var left := Left(l.pipe, cut);
            var stale := M.Stale(left);
            && Fits(stale) && stale.record.value.written == left.record.value.written <= |l.pipe.history|
            && stale.Current() == left.Other() && stale.Other() == left.Current()
            && (stale.record.value.segment == 0 || stale.record.value.segment == 1)
  {
    LeftAccounted(l.pipe, cut);
    var store: S.State<F.Cell>, last: nat :|
      store.disk == Left(l.pipe, cut) && F.StoreOk(store, last, l.pipe.history) && last <= |l.pipe.history|;
  }

  lemma StaleRestartOk(l: Life, cut: S.Faults, unmark: bool)
    requires Ok(l)
    ensures Ok(StaleRestarted(l, Left(l.pipe, cut), unmark))
  {
    var left := Left(l.pipe, cut);
    if left.record.Some? && left.record.value.written > 0 {
      StaleLeft(l, cut);
      FoundOk(l, M.Stale(left), unmark);
    }
  }

  lemma FoundOk(l: Life, d: S.Disk<F.Cell>, unmark: bool)
    requires Ok(l) && Fits(d) && d.record.value.written <= |l.pipe.history|
    requires d.record.value.segment == 0 || d.record.value.segment == 1
    ensures Ok(Restarted(l, d, unmark))
  {
    F.BytesSegments(d);
    if V.Backed(d) {
      StoodOk(l.limits, d, l.pipe.history, unmark);
      assert Restarted(l, d, unmark) == Stood(l.limits, l.pipe.history, d, unmark);
    } else {
      assert Restarted(l, d, unmark) == l;
    }
  }

  lemma KillOk(l: Life, cut: S.Faults, unmark: bool)
    requires Ok(l)
    ensures Ok(Restarted(l, Left(l.pipe, cut), unmark))
  {
    RestartOk(l, cut, unmark);
  }

  lemma NextOk(l: Life, move: Move)
    requires Ok(l)
    ensures Ok(Next(l, move))
  {
    match move
    case StaleRestart(cut, unmark) => StaleRestartOk(l, cut, unmark);
    case Piped(m) => PipedOk(l, m);
    case OnRing(op) => OnRingOk(l, op);
    case Edit(record) => EditOk(l, record);
    case Restart(cut, unmark) => KillOk(l, cut, unmark);
  }

  ghost function Run(l: Life, moves: seq<Move>): Life
    decreases |moves|
  {
    if moves == [] then l else Run(Next(l, moves[0]), moves[1..])
  }

  /** Over any run, with any losses, kills and restarts: the ring holds byte k of what the process takes to have
      been printed at coordinate k; up to where the store ends, on its way, and lost are together all that was
      printed; and the two segments are within their bounds. */
  lemma {:induction false} RunOk(l: Life, moves: seq<Move>)
    requires Ok(l)
    ensures Ok(Run(l, moves))
    ensures var p := Run(l, moves).pipe;
            && p.store.disk.End() + F.Weight(p.Line()) + |F.Lost(p)| == |p.history|
            && |p.store.disk.Current()| + |p.store.disk.Other()| <= 2 * S.BOUND
    decreases |moves|
  {
    if moves == [] {
      F.EndFallsShortByMissing(l.pipe);
    } else {
      NextOk(l, moves[0]);
      RunOk(Next(l, moves[0]), moves[1..]);
    }
  }

  /** A session opened now: its record is created, and neither segment is there. */
  function Begin(limits: Limits, facts: S.Record): Life {
    Life(limits, R.Fresh(limits.highWatermark, limits), F.Begin(facts))
  }

  lemma BeginOk(limits: Limits, facts: S.Record)
    ensures Ok(Begin(limits, facts)) && Tight(Begin(limits, facts).pipe)
  {
    F.BeginOk(facts);
  }

  // ---------------------------------------------------------------- what a restart keeps

  /** A restart moves no stored byte if and only if what is on disk is whole. */
  lemma RestartMovesNothing(store: S.State<F.Cell>, last: nat, history: seq<byte>)
    requires F.StoreOk(store, last, history)
    ensures var d := store.disk;
            (Relabel(d).Current() == d.Current() && Relabel(d).Other() == d.Other()) <==> F.Whole(d)
  {
    var d, w := store.disk, store.disk.record.value.written;
    V.StoreBacked(store, last, history);
    RelabelSegments(d);
    F.NewerLabels(store, last, history, |d.Current()|);
    F.OlderLabels(store, last, history, |d.Other()|);
    assert d.Current()[0..] == d.Current() && d.Other()[0..] == d.Other();
    RelabelledSame(d.Current(), w);
    RelabelledSame(d.Other(), w - |d.Other()|);
  }

  lemma RelabelledSame(cells: seq<F.Cell>, from: nat)
    ensures Relabelled(cells, from) == cells <==> F.AtLabels(cells, from)
  {
    var r := Relabelled(cells, from);
    if r == cells {
      forall i: nat | i < |cells| ensures F.LabelAt(cells, from, i) {
        assert r[i] == cells[i];
      }
    }
    if F.AtLabels(cells, from) {
      forall i: nat | i < |cells| ensures r[i] == cells[i] {
        assert F.LabelAt(cells, from, i);
      }
    }
  }

  lemma LabelledValues(cells: seq<F.Cell>, from: nat, low: nat, end: nat, history: seq<byte>)
    requires F.Placed(cells, low, end, history) && F.AtLabels(cells, from) && from + |cells| <= |history|
    ensures F.Values(cells) == history[from..from + |cells|]
  {
    forall i: nat | i < |cells| ensures F.Values(cells)[i] == history[from..from + |cells|][i] {
      assert F.PlacedAt(cells, low, end, history, i) && F.LabelAt(cells, from, i);
    }
  }

  /** And then the next process hears what the last one printed, up to where the store ends. */
  lemma WholeHeard(store: S.State<F.Cell>, last: nat, history: seq<byte>)
    requires F.StoreOk(store, last, history) && last <= |history| && F.Whole(store.disk)
    ensures V.Backed(F.Bytes(store.disk)) && store.disk.record.value.written <= |history|
    ensures store.disk.End() <= |history|
    ensures V.Heard(history, F.Bytes(store.disk)) == history[..store.disk.End()]
  {
    var d, w := store.disk, store.disk.record.value.written;
    V.StoreBacked(store, last, history);
    F.BytesSegments(d);
    EndIsReached(store, last, history);
    F.NewerLabels(store, last, history, |d.Current()|);
    F.OlderLabels(store, last, history, |d.Other()|);
    assert d.Current()[0..] == d.Current() && d.Other()[0..] == d.Other();
    LabelledValues(d.Current(), w, w, last, history);
    LabelledValues(d.Other(), w - |d.Other()|, 0, w, history);
  }

  lemma RestartKeeps(l: Life, cut: S.Faults, unmark: bool)
    requires Ok(l) && F.Whole(Left(l.pipe, cut))
    ensures Left(l.pipe, cut).End() <= |l.pipe.history|
    ensures l.pipe.history[..Left(l.pipe, cut).End()] <= Restarted(l, Left(l.pipe, cut), unmark).pipe.history
  {
    LeftAccounted(l.pipe, cut);
    var store: S.State<F.Cell>, last: nat :|
      store.disk == Left(l.pipe, cut) && F.StoreOk(store, last, l.pipe.history) && last <= |l.pipe.history|;
    WholeHeard(store, last, l.pipe.history);
    RestartOk(l, cut, unmark);
  }

  /** A restart of this step finds the disk whole, with the mark on the segment the writer had. */
  ghost predicate Truthful(l: Life, move: Move) {
    && (move.Restart? ==> Left(l.pipe, move.cut).record.Some? && F.Whole(Left(l.pipe, move.cut)))
    && (move.StaleRestart? ==> Next(l, move) == l)
  }

  /** No byte is read where it was printed. */
  predicate AllMoved(cells: seq<F.Cell>, from: nat) { forall i: nat | i < |cells| :: !F.LabelAt(cells, from, i) }

  /** A restart on a stale segment moves every stored byte, and there is one. */
  lemma StaleMovesAll(l: Life, cut: S.Faults)
    requires Ok(l) && Left(l.pipe, cut).record.Some? && Left(l.pipe, cut).record.value.written > 0
    requires V.Backed(M.Stale(Left(l.pipe, cut)))
    ensures var stale := M.Stale(Left(l.pipe, cut));
            && AllMoved(stale.Current(), stale.record.value.written)
            && AllMoved(stale.Other(), stale.record.value.written - |stale.Other()|)
            && (stale.Current() != [] || stale.Other() != [])
  {
    StaleLeft(l, cut);
    LeftAccounted(l.pipe, cut);
    var store: S.State<F.Cell>, last: nat :|
      store.disk == Left(l.pipe, cut) && F.StoreOk(store, last, l.pipe.history) && last <= |l.pipe.history|;
    var left, w := store.disk, store.disk.record.value.written;
    forall i: nat | i < |left.Other()| ensures !F.LabelAt(left.Other(), w, i) {
      F.AtLeast(left.Other(), 0, w, l.pipe.history, i);
    }
    var from := w - |left.Current()|;
    forall i: nat | i < |left.Current()| ensures !F.LabelAt(left.Current(), from, i) {
      F.AtLeast(left.Current(), w, last, l.pipe.history, i);
    }
  }

  /** The coordinate a restart is given is behind its bytes only after a stale stop, and only for a reader that
      asks for more than a segment less one read. */
  lemma RepairNeedsRoom(l: Life, cut: S.Faults, atMost: nat)
    requires Ok(l)
    ensures var left := Left(l.pipe, cut);
            && left.record.Some?
            && |left.Output(atMost)| <= left.End()
            && (left.record.value.written > 0 ==>
                  var stale := M.Stale(left);
                  |stale.Output(atMost)| > stale.End() ==> atMost + READ > S.BOUND)
  {
    LeftAccounted(l.pipe, cut);
    var store: S.State<F.Cell>, last: nat :|
      store.disk == Left(l.pipe, cut) && F.StoreOk(store, last, l.pipe.history) && last <= |l.pipe.history|;
    V.StoreBacked(store, last, l.pipe.history);
    V.RepairReached(store.disk, atMost);
    if store.disk.record.value.written > 0 {
      V.RepairReached(M.Stale(store.disk), atMost);
    }
  }

  ghost predicate TruthfulRun(l: Life, moves: seq<Move>)
    decreases |moves|
  {
    moves != [] ==> Truthful(l, moves[0]) && TruthfulRun(Next(l, moves[0]), moves[1..])
  }

  lemma PipedKeeps(l: Life, m: F.Move)
    requires Ok(l)
    ensures Next(l, Piped(m)).pipe.store.disk.record.Some?
    ensures l.pipe.store.disk.End() <= Next(l, Piped(m)).pipe.store.disk.End()
    ensures l.pipe.history <= Next(l, Piped(m)).pipe.history
  {
    NextOk(l, Piped(m));
    match m
    case Sink(f) => LeftAccounted(l.pipe, f);
    case Stop(at, through) => assert Next(l, Piped(m)).pipe.store.disk.Current() == l.pipe.store.disk.Current();
    case _ =>
  }

  /** What one step keeps of the past: the store's end never goes back, and every coordinate keeps its byte,
      unless the process is killed, and then those the store has do, if what it has is whole; all but a stale
      stop does, which moves everything. */
  lemma NextKeeps(l: Life, move: Move)
    requires Ok(l)
    ensures Next(l, move).pipe.store.disk.record.Some?
    ensures !move.StaleRestart? || Truthful(l, move) ==>
              l.pipe.store.disk.End() <= Next(l, move).pipe.store.disk.End()
    ensures l.pipe.store.disk.End() <= |l.pipe.history|
    ensures !move.Restart? && !move.StaleRestart? ==> l.pipe.history <= Next(l, move).pipe.history
    ensures Truthful(l, move) ==> l.pipe.history[..l.pipe.store.disk.End()] <= Next(l, move).pipe.history
  {
    EndIsReached(l.pipe.store, l.pipe.last, l.pipe.history);
    match move
    case Piped(m) => PipedKeeps(l, m);
    case OnRing(op) =>
    case Edit(record) => assert Edited(l.pipe, record).store.disk.Current() == l.pipe.store.disk.Current();
    case Restart(cut, unmark) => KillKeeps(l, cut, unmark);
    case StaleRestart(cut, unmark) => StaleRestartOk(l, cut, unmark);
  }

  lemma KillKeeps(l: Life, cut: S.Faults, unmark: bool)
    requires Ok(l) && l.pipe.store.disk.End() <= |l.pipe.history|
    ensures var next := Restarted(l, Left(l.pipe, cut), unmark);
            && next.pipe.store.disk.record.Some? && l.pipe.store.disk.End() <= next.pipe.store.disk.End()
            && (F.Whole(Left(l.pipe, cut)) ==> l.pipe.history[..l.pipe.store.disk.End()] <= next.pipe.history)
  {
    RestartOk(l, cut, unmark);
    if F.Whole(Left(l.pipe, cut)) {
      RestartKeeps(l, cut, unmark);
      var next := Restarted(l, Left(l.pipe, cut), unmark);
      PrefixOfPrefix(l.pipe.history, l.pipe.store.disk.End(), Left(l.pipe, cut).End(), next.pipe.history);
    }
  }

  lemma PrefixOfPrefix(a: seq<byte>, m: nat, n: nat, b: seq<byte>)
    requires m <= n <= |a| && a[..n] <= b
    ensures a[..m] <= b
  {
    assert a[..m] == a[..n][..m];
  }

  lemma PrefixThrough(a: seq<byte>, m: nat, b: seq<byte>, n: nat, c: seq<byte>)
    requires m <= |a| && m <= n <= |b| && a[..m] <= b && b[..n] <= c
    ensures a[..m] <= c
  {
    assert a[..m] == b[..n][..m];
  }

  lemma {:induction false} RunKeeps(l: Life, moves: seq<Move>)
    requires Ok(l) && TruthfulRun(l, moves)
    ensures Run(l, moves).pipe.store.disk.record.Some? && l.pipe.store.disk.End() <= |l.pipe.history|
    ensures l.pipe.store.disk.End() <= Run(l, moves).pipe.store.disk.End()
    ensures l.pipe.history[..l.pipe.store.disk.End()] <= Run(l, moves).pipe.history
    decreases |moves|
  {
    EndIsReached(l.pipe.store, l.pipe.last, l.pipe.history);
    if moves != [] {
      var next := Next(l, moves[0]);
      NextOk(l, moves[0]);
      NextKeeps(l, moves[0]);
      RunKeeps(next, moves[1..]);
      var stored, later := l.pipe.store.disk.End(), next.pipe.store.disk.End();
      PrefixThrough(l.pipe.history, stored, next.pipe.history, later, Run(l, moves).pipe.history);
    }
  }

  /** The ring answers a coordinate with a byte, if it still has it; and so does the store, if what is asked
      for of it is whole. */
  ghost predicate Serves(l: Life, k: nat, value: byte)
    requires l.pipe.store.disk.record.Some?
  {
    && (l.ring.floor <= k < l.ring.Live() ==> l.ring.bytes[k - l.ring.floor] == value)
    && (forall atMost: nat | F.WholeFor(l.pipe.store.disk, atMost) ::
          OutputServes(F.Bytes(l.pipe.store.disk), atMost, k, value))
  }

  predicate OutputServes(d: S.Disk<byte>, atMost: nat, k: nat, value: byte)
    requires d.record.Some?
  {
    EndsWith(d.Output(atMost), d.End(), k, value)
  }

  /** Output that ends at `end` has the value at a coordinate, if it reaches back to it. */
  predicate EndsWith(output: seq<byte>, end: nat, k: nat, value: byte) {
    end - |output| <= k < end ==> output[k - (end - |output|)] == value
  }

  predicate Known(c: F.Cell, history: seq<byte>) { c.at < |history| && c.value == history[c.at] }

  predicate AllKnown(cells: seq<F.Cell>, history: seq<byte>) { forall i: nat | i < |cells| :: Known(cells[i], history) }

  lemma TailKnown(cells: seq<F.Cell>, low: nat, end: nat, history: seq<byte>, n: nat)
    requires F.Placed(cells, low, end, history)
    ensures AllKnown(S.Tail(cells, n), history)
  {
    var part := S.Tail(cells, n);
    forall i: nat | i < |part| ensures Known(part[i], history) {
      assert F.PlacedAt(cells, low, end, history, |cells| - |part| + i);
    }
  }

  lemma JoinKnown(older: seq<F.Cell>, newer: seq<F.Cell>, history: seq<byte>)
    requires AllKnown(older, history) && AllKnown(newer, history)
    ensures AllKnown(older + newer, history)
  {
  }

  lemma OutputKnown(store: S.State<F.Cell>, last: nat, history: seq<byte>, atMost: nat)
    requires F.StoreOk(store, last, history)
    ensures AllKnown(store.disk.Output(atMost), history)
  {
    var d := store.disk;
    var newer := S.Tail(d.Current(), atMost);
    var older := S.Tail(d.Other(), atMost - |newer|);
    TailKnown(d.Current(), d.record.value.written, last, history, atMost);
    TailKnown(d.Other(), 0, d.record.value.written, history, atMost - |newer|);
    JoinKnown(older, newer, history);
  }

  lemma CellsServe(p: F.Pipe, atMost: nat, k: nat)
    requires F.Accounted(p) && F.WholeFor(p.store.disk, atMost) && k < |p.history|
    ensures EndsWith(F.Values(p.store.disk.Output(atMost)), p.store.disk.End(), k, p.history[k])
  {
    var output, end := p.store.disk.Output(atMost), p.store.disk.End();
    assert F.AtLabels(output, end - |output|) by {
      F.OutputLabels(p, atMost);
    }
    assert AllKnown(output, p.history) by {
      OutputKnown(p.store, p.last, p.history, atMost);
    }
    LabelledServes(output, end, p.history, k);
  }

  lemma StoreServes(p: F.Pipe, atMost: nat, k: nat)
    requires F.Accounted(p) && F.WholeFor(p.store.disk, atMost) && k < |p.history|
    ensures OutputServes(F.Bytes(p.store.disk), atMost, k, p.history[k])
  {
    CellsServe(p, atMost, k);
    F.BytesSegments(p.store.disk);
    F.BytesOutput(p.store.disk, atMost);
  }

  lemma LabelledServes(output: seq<F.Cell>, end: nat, history: seq<byte>, k: nat)
    requires F.AtLabels(output, end - |output|) && k < |history|
    requires AllKnown(output, history)
    ensures EndsWith(F.Values(output), end, k, history[k])
  {
    var from := end - |output|;
    if from <= k < end {
      assert F.LabelAt(output, from, k - from) && Known(output[k - from], history);
    }
  }

  lemma OkServes(l: Life, k: nat)
    requires Ok(l) && k < |l.pipe.history|
    ensures Serves(l, k, l.pipe.history[k])
  {
    forall atMost: nat | F.WholeFor(l.pipe.store.disk, atMost)
      ensures OutputServes(F.Bytes(l.pipe.store.disk), atMost, k, l.pipe.history[k])
    {
      StoreServes(l.pipe, atMost, k);
    }
  }

  /** The promise a reader holds a coordinate by: once the store's end is past it, whichever process is asked,
      now or after any number of kills, and whichever of the ring and the store answers, that coordinate is the
      byte it was. Losses may happen anywhere on the way, as long as no restart finds one in front of a byte
      still stored. */
  lemma SameByteEverAfter(l: Life, moves: seq<Move>, k: nat)
    requires Ok(l) && TruthfulRun(l, moves) && k < l.pipe.store.disk.End()
    ensures var later := Run(l, moves);
            && k < |l.pipe.history| && later.pipe.store.disk.record.Some?
            && k < later.pipe.store.disk.End() <= |later.pipe.history|
            && Serves(later, k, l.pipe.history[k])
  {
    RunOk(l, moves);
    RunKeeps(l, moves);
    EndIsReached(Run(l, moves).pipe.store, Run(l, moves).pipe.last, Run(l, moves).pipe.history);
    assert l.pipe.history[..l.pipe.store.disk.End()][k] == l.pipe.history[k];
    OkServes(Run(l, moves), k);
  }

  // ---------------------------------------------------------------- which runs are truthful

  /** The chunk about to be appended begins where the stored output ends: what an append could compare. */
  predicate Aligned(p: F.Pipe) {
    && p.store.disk.record.Some?
    && (p.inflight.Some? ==> p.inflight.value.through == p.store.disk.End() + |p.inflight.value.data|)
  }

  ghost predicate AlignedRun(l: Life, moves: seq<Move>)
    decreases |moves|
  {
    moves != [] ==>
      && ((moves[0].Piped? && moves[0].move.Sink?) || moves[0].Restart? ==> Aligned(l.pipe))
      && !moves[0].StaleRestart?
      && AlignedRun(Next(l, moves[0]), moves[1..])
  }

  lemma AlignedLeft(p: F.Pipe, cut: S.Faults)
    requires F.Accounted(p) && F.Whole(p.store.disk) && Aligned(p)
    ensures Left(p, cut).record.Some? && F.Whole(Left(p, cut))
  {
    if p.inflight.Some? {
      var c := p.inflight.value;
      F.LinedRest(p.Line(), p.last, p.history);
      var taken := S.AppendEffect(p.store, c.data, c.through, cut);
      F.AppendKeepsWhole(p.store, p.store.Append(c.data, c.through, cut).state, p.last, c, taken, p.history);
    }
  }

  lemma SameWhole(a: S.Disk<F.Cell>, b: S.Disk<F.Cell>)
    requires a.record.Some? && F.Whole(a) && b.record.Some? && b.segments == a.segments
    requires b.record.value.segment == a.record.value.segment && b.record.value.written == a.record.value.written
    ensures F.Whole(b) && b.End() == a.End()
  {
    assert b.Current() == a.Current() && b.Other() == a.Other();
  }

  lemma PipedAligned(p: F.Pipe, m: F.Move)
    requires F.Accounted(p) && F.Whole(p.store.disk) && (m.Sink? ==> Aligned(p))
    ensures F.Next(p, m).store.disk.record.Some? && F.Whole(F.Next(p, m).store.disk)
  {
    if m.Sink? {
      AlignedLeft(p, m.f);
    } else {
      SameWhole(p.store.disk, F.Next(p, m).store.disk);
    }
  }

  lemma EditWhole(p: F.Pipe, record: S.Record)
    requires p.store.disk.record.Some? && F.Whole(p.store.disk)
    ensures Edited(p, record).store.disk.record.Some? && F.Whole(Edited(p, record).store.disk)
    ensures Edited(p, record).store.disk.End() == p.store.disk.End() && Edited(p, record).Line() == p.Line()
  {
    SameWhole(p.store.disk, Edited(p, record).store.disk);
  }

  lemma NextAligned(l: Life, move: Move)
    requires Ok(l) && F.Whole(l.pipe.store.disk) && !move.StaleRestart?
    requires (move.Piped? && move.move.Sink?) || move.Restart? ==> Aligned(l.pipe)
    ensures Truthful(l, move)
    ensures Next(l, move).pipe.store.disk.record.Some? && F.Whole(Next(l, move).pipe.store.disk)
  {
    match move
    case Piped(m) => PipedAligned(l.pipe, m);
    case OnRing(op) =>
    case Edit(record) => EditWhole(l.pipe, record);
    case Restart(cut, unmark) => KillAligned(l, cut, unmark);
  }

  lemma KillAligned(l: Life, cut: S.Faults, unmark: bool)
    requires Ok(l) && F.Whole(l.pipe.store.disk) && Aligned(l.pipe)
    ensures Left(l.pipe, cut).record.Some? && F.Whole(Left(l.pipe, cut))
    ensures var disk := Restarted(l, Left(l.pipe, cut), unmark).pipe.store.disk; disk.record.Some? && F.Whole(disk)
  {
    AlignedLeft(l.pipe, cut);
    RestartOk(l, cut, unmark);
  }

  /** Whatever else is lost, a run in which every chunk appended begins where the stored output ends is
      truthful: a store that refused the others would never move a byte. */
  lemma {:induction false} AlignedIsTruthful(l: Life, moves: seq<Move>)
    requires Ok(l) && F.Whole(l.pipe.store.disk) && AlignedRun(l, moves)
    ensures TruthfulRun(l, moves)
    decreases |moves|
  {
    if moves != [] {
      NextOk(l, moves[0]);
      NextAligned(l, moves[0]);
      AlignedIsTruthful(Next(l, moves[0]), moves[1..]);
    }
  }

  /** The feed has no room for what was read, or the store did not take the chunk. */
  predicate Loses(p: F.Pipe, m: F.Move) {
    match m
    case Print(data) => data != [] && !p.queue.Takes(F.Cells(p.history + data, |p.history|, |p.history + data|))
    case Sink(f) =>
      && p.inflight.Some? && p.inflight.value.through >= |p.inflight.value.data|
      && !p.store.Append(p.inflight.value.data, p.inflight.value.through, f).ok
    case _ => false
  }

  ghost predicate LosslessRun(l: Life, moves: seq<Move>)
    decreases |moves|
  {
    moves != [] ==>
      && (moves[0].Piped? ==> !Loses(l.pipe, moves[0].move))
      && !moves[0].StaleRestart?
      && LosslessRun(Next(l, moves[0]), moves[1..])
  }

  lemma ContiguousHead(line: seq<F.Chunk<F.Cell>>, from: nat, end: nat)
    requires Contiguous(line, from, end) && line != []
    ensures line[0].through == from + |line[0].data| && Contiguous(line[1..], line[0].through, end)
  {
    assert NextTo(line, from, 0);
    forall i: nat | i < |line[1..]| ensures NextTo(line[1..], line[0].through, i) {
      assert NextTo(line, from, i + 1);
    }
  }

  /** A kill of a process that lost nothing leaves the disk whole, wherever it cuts. */
  lemma TightLeft(p: F.Pipe, cut: S.Faults)
    requires F.Accounted(p) && Tight(p)
    ensures Left(p, cut).record.Some? && F.Whole(Left(p, cut))
  {
    if p.inflight.Some? {
      ContiguousHead(p.Line(), p.last, |p.history|);
    }
    AlignedLeft(p, cut);
  }

  lemma SinkTight(p: F.Pipe, f: S.Faults)
    requires F.Accounted(p) && Tight(p) && p.inflight.Some? && !Loses(p, F.Sink(f))
    ensures Tight(F.Next(p, F.Sink(f)))
  {
    var c := p.inflight.value;
    ContiguousHead(p.Line(), p.last, |p.history|);
    F.LinedRest(p.Line(), p.last, p.history);
    var taken := S.AppendEffect(p.store, c.data, c.through, f);
    TightLeft(p, f);
    AppendedEnd(p.store.disk, F.Next(p, F.Sink(f)).store.disk, |c.data|, c.through - |c.data|, c.data[..taken]);
    assert F.Next(p, F.Sink(f)).Line() == p.Line()[1..];
  }

  lemma AppendedEnd(before: S.Disk<F.Cell>, after: S.Disk<F.Cell>, size: nat, at: nat, taken: seq<F.Cell>)
    requires before.record.Some? && after.record.Some? && S.Appended(before, after, size, at, taken)
    requires at == before.End()
    ensures after.End() == at + |taken|
  {
  }

  lemma PrintTight(p: F.Pipe, data: seq<byte>)
    requires Tight(p) && !Loses(p, F.Print(data))
    ensures Tight(F.Next(p, F.Print(data)))
  {
    var history, line := p.history + data, p.Line();
    var chunk := F.Chunk(F.Cells(history, |p.history|, |history|), |history|);
    var after := F.Next(p, F.Print(data));
    if p.queue.Takes(chunk.data) {
      assert after.Line() == line + [chunk];
      forall i: nat | i < |after.Line()| ensures NextTo(after.Line(), p.last, i) {
        assert i < |line| ==> NextTo(line, p.last, i);
      }
    }
  }

  lemma PipedTight(p: F.Pipe, m: F.Move)
    requires F.Accounted(p) && Tight(p) && !Loses(p, m)
    ensures Tight(F.Next(p, m))
  {
    match m
    case Print(data) => PrintTight(p, data);
    case Take =>
      assert F.Next(p, m).Line() == p.Line();
    case Sink(f) =>
      if p.inflight.Some? {
        SinkTight(p, f);
      }
    case Stop(at, through) => SameWhole(p.store.disk, F.Next(p, m).store.disk);
    case Close =>
  }

  lemma NextTight(l: Life, move: Move)
    requires Ok(l) && Tight(l.pipe) && (move.Piped? ==> !Loses(l.pipe, move.move)) && !move.StaleRestart?
    ensures Tight(Next(l, move).pipe) && Truthful(l, move)
  {
    match move
    case Piped(m) => PipedTight(l.pipe, m);
    case OnRing(op) =>
    case Edit(record) => EditWhole(l.pipe, record);
    case Restart(cut, unmark) =>
      TightLeft(l.pipe, cut);
      RestartOk(l, cut, unmark);
  }

  /** A run whose feed always has room and whose appends succeed, killed anywhere any number of times, is
      truthful, so every stored coordinate is the same byte ever after. */
  lemma {:induction false} LosslessIsTruthful(l: Life, moves: seq<Move>)
    requires Ok(l) && Tight(l.pipe) && LosslessRun(l, moves)
    ensures TruthfulRun(l, moves) && Tight(Run(l, moves).pipe)
    decreases |moves|
  {
    if moves != [] {
      NextOk(l, moves[0]);
      NextTight(l, moves[0]);
      LosslessIsTruthful(Next(l, moves[0]), moves[1..]);
    }
  }

  // ---------------------------------------------------------------- what a kill can cost

  lemma {:induction false} LineWeight(line: seq<F.Chunk<F.Cell>>, from: nat, end: nat)
    requires Contiguous(line, from, end)
    ensures end == from + F.Weight(line)
    decreases |line|
  {
    if line != [] {
      F.WeightHead(line);
      ContiguousHead(line, from, end);
      LineWeight(line[1..], line[0].through, end);
    }
  }

  /** A kill costs at most what the feed may hold and the one chunk being written. */
  lemma KillCost(l: Life, cut: S.Faults)
    requires Ok(l) && Tight(l.pipe)
    ensures Left(l.pipe, cut).record.Some? && |l.pipe.history| <= Left(l.pipe, cut).End() + F.DEPTH + READ
  {
    LeftAccounted(l.pipe, cut);
    LineWeight(l.pipe.Line(), l.pipe.last, |l.pipe.history|);
    if l.pipe.inflight.Some? {
      F.WeightHead(l.pipe.Line());
      assert l.pipe.inflight.value in l.pipe.Line();
      assert l.pipe.Line()[1..] == l.pipe.queue.pending;
    } else {
      assert l.pipe.Line() == l.pipe.queue.pending;
    }
  }

  // ---------------------------------------------------------------- the next stop

  /** A process whose restart took the old mark off answers for its own stop: whatever it and the ones before
      it lost, a stop of its own that drained and lost nothing is answered full, and a degraded answer means no
      mark of its own, output still on the way, or output it lost. */
  lemma NextStop(l: Life, cut: S.Faults, moves: seq<F.Move>)
    requires Ok(l)
    ensures var begun := Restarted(l, Left(l.pipe, cut), true).pipe;
            var p := F.Run(begun, moves);
            && F.Ok(begun) && F.Ok(p)
            && begun.store.disk.record.value.endedAt.None? && F.Lost(begun) == {}
            && (p.store.disk.record.value.endedAt.Some? && p.Line() == [] && F.Lost(p) == {} ==>
                  V.ReachesMark(p.store.disk))
  {
    RestartOk(l, cut, true);
    var begun := Restarted(l, Left(l.pipe, cut), true).pipe;
    F.RunOk(begun, moves);
    V.DegradedMeansLoss(F.Run(begun, moves));
    F.EndFallsShortByMissing(begun);
    LineWeight(begun.Line(), begun.last, |begun.history|);
  }

  // ---------------------------------------------------------------- everything gets stored

  lemma RunFirst(l: Life, move: Move, rest: seq<Move>)
    ensures Run(l, [move] + rest) == Run(Next(l, move), rest)
  {
    assert ([move] + rest)[1..] == rest;
  }

  /** The chunk under way is stored when nothing stops it. */
  lemma SinkStores(l: Life)
    requires Ok(l) && Tight(l.pipe)
    ensures var next := Next(l, Piped(F.Sink(F.ALL)));
            && Ok(next) && Tight(next.pipe) && next.pipe.inflight.None?
            && next.pipe.queue == l.pipe.queue && next.pipe.history == l.pipe.history
  {
    NextOk(l, Piped(F.Sink(F.ALL)));
    if l.pipe.inflight.Some? {
      var c := l.pipe.inflight.value;
      F.LinedRest(l.pipe.Line(), l.pipe.last, l.pipe.history);
      assert c in l.pipe.Line();
      S.AppendSucceeds(l.pipe.store, c.data, c.through, F.ALL);
      assert !Loses(l.pipe, F.Sink(F.ALL));
    }
    PipedTight(l.pipe, F.Sink(F.ALL));
  }

  /** One turn of the store's goroutine. */
  ghost function Turn(l: Life): Life { Next(Next(l, Piped(F.Take)), Piped(F.Sink(F.ALL))) }

  lemma TurnOk(l: Life)
    requires Ok(l) && Tight(l.pipe) && l.pipe.inflight.None? && l.pipe.queue.pending != []
    ensures var next := Turn(l);
            && Ok(next) && Tight(next.pipe) && next.pipe.inflight.None?
            && next.pipe.queue.pending == l.pipe.queue.pending[1..] && next.pipe.history == l.pipe.history
  {
    NextOk(l, Piped(F.Take));
    PipedTight(l.pipe, F.Take);
    SinkStores(Next(l, Piped(F.Take)));
  }

  /** The turns of the store's goroutine: `n` chunks taken and handed over. */
  function Turns(n: nat): seq<Move> {
    if n == 0 then [] else [Piped(F.Take)] + ([Piped(F.Sink(F.ALL))] + Turns(n - 1))
  }

  lemma RunTurn(l: Life, n: nat)
    requires n > 0
    ensures Run(l, Turns(n)) == Run(Turn(l), Turns(n - 1))
  {
    RunFirst(l, Piped(F.Take), [Piped(F.Sink(F.ALL))] + Turns(n - 1));
    RunFirst(Next(l, Piped(F.Take)), Piped(F.Sink(F.ALL)), Turns(n - 1));
  }

  /** Everything is stored. */
  ghost predicate Drained(l: Life, history: seq<byte>) {
    Ok(l) && Tight(l.pipe) && l.pipe.Line() == [] && l.pipe.history == history
  }

  lemma {:induction false} TurnsStore(l: Life)
    requires Ok(l) && Tight(l.pipe) && l.pipe.inflight.None?
    ensures Drained(Run(l, Turns(|l.pipe.queue.pending|)), l.pipe.history)
    decreases |l.pipe.queue.pending|
  {
    if l.pipe.queue.pending != [] {
      var next := Turn(l);
      TurnOk(l);
      RunTurn(l, |l.pipe.queue.pending|);
      TurnsStore(next);
    }
  }

  /** Nothing stays on its way: left alone, a store that nothing stops ends holding everything printed, in as many
      turns as there are chunks queued, whether the feed is still open or not. */
  lemma EverythingStored(l: Life)
    requires Ok(l) && Tight(l.pipe)
    ensures var end := Run(l, [Piped(F.Sink(F.ALL))] + Turns(|l.pipe.queue.pending|));
            && end.pipe.Line() == [] && end.pipe.history == l.pipe.history
            && end.pipe.store.disk.record.Some? && end.pipe.store.disk.End() == |l.pipe.history|
            && F.Whole(end.pipe.store.disk)
  {
    SinkStores(l);
    RunFirst(l, Piped(F.Sink(F.ALL)), Turns(|l.pipe.queue.pending|));
    TurnsStore(Next(l, Piped(F.Sink(F.ALL))));
  }
}
