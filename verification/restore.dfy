/** Standing a session back up from what it left on disk. */
module Restore {
  import opened Base
  import R = Ring
  import S = Store
  import F = Feed

  const NEWLINE: byte := 10

  /** What separates one shell's output from the next one's. */
  const BOUNDARY: seq<byte> := [13, 10]

  datatype Outcome = Full | Degraded | Failed

  /** What fails on the way: reading the record or the output, starting the shell, the daemon stopping,
      or taking the stop mark off the record. */
  datatype Faults = Faults(read: bool, output: bool, start: bool, stopped: bool, unmark: bool)

  predicate EndsLine(output: seq<byte>) { output == [] || output[|output| - 1] == NEWLINE }

  /** Output that did not end a line is ended before the next shell writes. */
  function Join(output: seq<byte>): seq<byte> { if EndsLine(output) then [] else BOUNDARY }

  /** Marked as ended on purpose, with output that still reaches where it was then. */
  predicate ReachesMark<T>(d: S.Disk<T>)
    requires d.record.Some?
  {
    d.record.value.endedAt.Some? && d.End() >= d.record.value.endedThrough
  }

  function Unmarked<T>(d: S.Disk<T>): S.Disk<T>
    requires d.record.Some?
  {
    d.(record := Some(d.record.value.(endedAt := None, exitCode := None, endedThrough := 0)))
  }

  /** A session standing again: its ring, the coordinate its next byte carries, and what waits for the store. */
  datatype Session = Session(ring: R.State, written: nat, queue: F.Queue<byte>)

  const NO_QUEUE: F.Queue<byte> := F.Queue([], 0, false)

  ghost function Refitted(d: S.Disk<byte>, limits: Limits): R.State
    requires d.record.Some?
  {
    R.Fresh(limits.highWatermark, limits).Restore(d.Output(limits.highWatermark), d.End())
  }

  /** The ring as it was left, and the join, if the output it was left with did not end a line. */
  ghost function Joined(ring: R.State, ends: bool): Session {
    if ends then Session(ring, ring.Live(), NO_QUEUE)
    else
      var through := ring.Live() + |BOUNDARY|;
      Session(ring.Write(BOUNDARY), through, NO_QUEUE.Offer(BOUNDARY, through))
  }

  ghost function Stand(d: S.Disk<byte>, limits: Limits): Session
    requires d.record.Some?
  {
    Joined(Refitted(d, limits), EndsLine(d.Output(limits.highWatermark)))
  }

  /** Ends the old shell's last line, in the ring and in the store, before the new shell prints. */
  method WriteJoin(ring: R.Ring, feed: F.StoreFeed<byte>, output: seq<byte>) returns (written: nat)
    requires feed.Valid() && feed.View() == NO_QUEUE
    modifies ring, feed
    ensures feed.Valid() && Session(ring.View(), written, feed.View()) == Joined(old(ring.View()), EndsLine(output))
  {
    written := ring.floor + |ring.bytes|;
    if |output| > 0 && output[|output| - 1] != NEWLINE {
      written := ring.Write(BOUNDARY);
      var taken := feed.Offer(BOUNDARY, written);
    }
  }

  /** The ring on the stored output, and the feed of the new shell. */
  method StandUp(output: seq<byte>, through: nat, limits: Limits)
    returns (ring: R.Ring, written: nat, feed: F.StoreFeed<byte>)
    ensures fresh(ring) && fresh(feed) && feed.Valid()
    ensures Session(ring.View(), written, feed.View()) ==
            Joined(R.Fresh(limits.highWatermark, limits).Restore(output, through), EndsLine(output))
  {
    ring := new R.Ring(limits.highWatermark, limits);
    ring.Restore(output, through);
    feed := new F.StoreFeed<byte>();
    written := WriteJoin(ring, feed, output);
  }

  method RestoreOne(d: S.Disk<byte>, limits: Limits, f: Faults)
    returns (outcome: Outcome, ring: R.Ring?, written: nat, feed: F.StoreFeed?<byte>, after: S.Disk<byte>)
    ensures outcome.Failed? <==> f.read || d.record.None? || f.output || f.start || f.stopped
    ensures outcome.Failed? ==> ring == null && feed == null && after == d
    ensures !outcome.Failed? ==>
              && ring != null && fresh(ring) && feed != null && fresh(feed) && feed.Valid()
              && Session(ring.View(), written, feed.View()) == Stand(d, limits)
              && (outcome.Full? <==> ReachesMark(d))
              && after == if f.unmark then d else Unmarked(d)
  {
    ring, written, feed, after := null, 0, null, d;
    if f.read || d.record.None? {
      return Failed, ring, written, feed, after;
    }
    var record := d.record.value;
    var output, through := d.Output(limits.highWatermark), d.End();
    if f.output || f.start || f.stopped {
      return Failed, ring, written, feed, after;
    }
    ring, written, feed := StandUp(output, through, limits);
    outcome := Degraded;
    if record.endedAt.Some? && through >= record.endedThrough {
      outcome := Full;
    }
    if !f.unmark {
      after := Unmarked(d);
    }
  }

  // ---------------------------------------------------------------- one restart

  /** The older half never holds more than came before the current one. */
  predicate Backed<T>(d: S.Disk<T>) {
    d.record.Some? && |d.Other()| <= d.record.value.written
  }

  /** The output reaches back before the first coordinate, and the ring repairs its end, if and only if the
      older half holds more than came before the current one and that much is asked for. */
  lemma RepairReached<T>(d: S.Disk<T>, atMost: nat)
    requires d.record.Some?
    ensures |d.Output(atMost)| > d.End() <==> atMost > d.End() && !Backed(d)
  {
    var newer := S.Tail(d.Current(), atMost);
    assert |d.Output(atMost)| == Min(atMost, |d.Current()| + |d.Other()|);
  }

  lemma RefittedEnd(d: S.Disk<byte>, limits: Limits)
    requires Backed(d)
    ensures Refitted(d, limits).Live() == d.End()
  {
    RepairReached(d, limits.highWatermark);
    assert R.Fresh(limits.highWatermark, limits).Refit(d.Output(limits.highWatermark), d.End()).Live() == d.End();
  }

  lemma JoinedAgreement(ring: R.State, ends: bool)
    ensures Joined(ring, ends).written == Joined(ring, ends).ring.Live()
    ensures Joined(ring, ends).written == ring.Live() + Joined(ring, ends).queue.queued
  {
  }

  /** Whatever was lost before, where the store says its output ends plus what waits for it is where the
      session says it is, so the next run starts in agreement. */
  lemma RestoredAgreement(d: S.Disk<byte>, limits: Limits)
    requires Backed(d)
    ensures Stand(d, limits).written == d.End() + Stand(d, limits).queue.queued
    ensures Stand(d, limits).written == Stand(d, limits).ring.Live()
    ensures Unmarked(d).End() == d.End()
  {
    RefittedEnd(d, limits);
    JoinedAgreement(Refitted(d, limits), EndsLine(d.Output(limits.highWatermark)));
    UnmarkedEnd(d);
  }

  lemma UnmarkedEnd<T>(d: S.Disk<T>)
    requires d.record.Some?
    ensures Unmarked(d).End() == d.End()
  {
    assert Unmarked(d).Current() == d.Current();
  }

  lemma StoreBacked(store: S.State<F.Cell>, last: nat, history: seq<byte>)
    requires F.StoreOk(store, last, history)
    ensures Backed(store.disk)
  {
    var other, w := store.disk.Other(), store.disk.record.value.written;
    if other != [] {
      F.AtLeast(other, 0, w, history, |other| - 1);
    }
  }

  /** Every store an accounted session leaves is backed, so the repair is not reached after it. */
  lemma AccountedIsBacked(p: F.Pipe)
    requires F.Accounted(p)
    ensures Backed(p.store.disk)
  {
    StoreBacked(p.store, p.last, p.history);
  }

  /** As long as anything was ever stored, some of it still is. */
  predicate Kept<T>(d: S.Disk<T>) {
    d.record.Some? && (d.End() > 0 ==> d.Current() != [] || d.Other() != [])
  }

  lemma HeldIsKept(d: S.Disk<byte>, history: seq<byte>, chunk: nat)
    requires S.Held(d, history, chunk) && chunk <= S.BOUND
    ensures Kept(d)
  {
  }

  /** The output ends a line exactly when the history does: whatever has been dropped, its end is kept. */
  lemma EndsAsHistory(d: S.Disk<byte>, history: seq<byte>, atMost: nat)
    requires S.Spans(d, history) && Kept(d) && 0 < atMost
    ensures EndsLine(d.Output(atMost)) <==> EndsLine(history)
  {
    S.OutputIsTail(d, history, atMost);
    if history != [] {
      assert |d.Current()| + |d.Other()| > 0;
      assert |d.Output(atMost)| > 0;
    }
  }

  /** Nothing is missing between the history and the ring stood up on the stored tail of it, and the ring
      holds all of the output there was room for. */
  lemma RefittedOk(d: S.Disk<byte>, history: seq<byte>, limits: Limits)
    requires S.Spans(d, history)
    ensures R.Ok(Refitted(d, limits), history)
    ensures Refitted(d, limits).floor == d.End() - |d.Output(limits.highWatermark)|
  {
    S.OutputIsTail(d, history, limits.highWatermark);
    R.RestoreOk(limits.highWatermark, limits, history, |d.Output(limits.highWatermark)|);
  }

  /** What waits for the store after a restart: the join, with the coordinate it ends at. */
  function JoinQueue(history: seq<byte>): F.Queue<byte> {
    if EndsLine(history) then NO_QUEUE
    else F.Queue([F.Chunk(BOUNDARY, |history + Join(history)|)], |BOUNDARY|, false)
  }

  lemma JoinedOk(ring: R.State, history: seq<byte>)
    requires R.Ok(ring, history)
    ensures var session := Joined(ring, EndsLine(history));
            && R.Ok(session.ring, history + Join(history))
            && session.written == |history + Join(history)|
            && session.queue == JoinQueue(history)
            && ring.floor <= session.ring.floor
  {
    if EndsLine(history) {
      assert history + [] == history;
    } else {
      R.StepOk(ring, history, R.Write(BOUNDARY));
      assert R.Step(ring, R.Write(BOUNDARY)) == ring.Write(BOUNDARY);
    }
  }

  /** Stood up on a disk that spans a history, the ring holds each byte of it at its own coordinate, and the
      join is there, in the ring and on its way to the store, exactly when the history does not end a line. */
  lemma StandMeaning(d: S.Disk<byte>, history: seq<byte>, limits: Limits)
    requires S.Spans(d, history) && Kept(d)
    ensures var session := Stand(d, limits);
            && R.Ok(session.ring, history + Join(history))
            && session.written == |history + Join(history)|
            && session.queue == JoinQueue(history)
            && d.End() - |d.Output(limits.highWatermark)| <= session.ring.floor
  {
    EndsAsHistory(d, history, limits.highWatermark);
    RefittedOk(d, history, limits);
    JoinedOk(Refitted(d, limits), history);
  }

  /** With nothing lost, every byte the new ring holds is the one printed at its coordinate, and the join
      is there, in the ring and on its way to the store, exactly when the history does not end a line. */
  lemma NoRelabelling(d: S.Disk<byte>, history: seq<byte>, chunk: nat, limits: Limits)
    requires S.Held(d, history, chunk) && chunk <= S.BOUND
    ensures R.Ok(Stand(d, limits).ring, history + Join(history))
    ensures Stand(d, limits).written == |history + Join(history)|
    ensures Stand(d, limits).queue.pending ==
            if EndsLine(history) then [] else [F.Chunk(BOUNDARY, |history + Join(history)|)]
  {
    HeldIsKept(d, history, chunk);
    StandMeaning(d, history, limits);
  }

  // ---------------------------------------------------------------- a restart after losses

  /** What the next process takes to have been printed: what is stored, ending where the store says, and
      before that what the process before it had there. */
  function Heard(history: seq<byte>, d: S.Disk<byte>): seq<byte>
    requires Backed(d) && d.record.value.written <= |history|
  {
    history[..d.record.value.written - |d.Other()|] + d.Other() + d.Current()
  }

  lemma HeardSpans(history: seq<byte>, d: S.Disk<byte>)
    requires Backed(d) && d.record.value.written <= |history|
    ensures S.Spans(d, Heard(history, d))
  {
  }

  lemma StoreHeard(store: S.State<F.Cell>, last: nat, history: seq<byte>)
    requires F.StoreOk(store, last, history) && last <= |history|
    ensures var d := F.Bytes(store.disk);
            && Backed(d) && d.record.value.written <= |history|
            && S.Spans(d, Heard(history, d)) && |Heard(history, d)| == store.disk.End()
  {
    StoreBacked(store, last, history);
    F.BytesSegments(store.disk);
    HeardSpans(history, F.Bytes(store.disk));
  }

  /** A coordinate the ring still holds is answered with the stored byte at that place of the output. */
  predicate Answers(ring: R.State, output: seq<F.Cell>, from: nat, k: nat) {
    from + |output| > k >= ring.floor >= from ==>
      k < ring.Live() && ring.bytes[k - ring.floor] == output[k - from].value
  }

  lemma AnswersFrom(ring: R.State, heard: seq<byte>, output: seq<F.Cell>, from: nat, k: nat)
    requires R.Holds(ring, heard) && from + |output| <= |heard|
    requires heard[from..from + |output|] == F.Values(output)
    ensures Answers(ring, output, from, k)
  {
    if from + |output| > k >= ring.floor >= from {
      assert heard[from..from + |output|][k - from] == heard[k];
    }
  }

  /** The ring of a session stood up after any run, with any losses: it answers each coordinate it holds, up to
      where the store ends, with the stored byte that is that far from the end; and that is the byte printed
      at the coordinate, for all of the output, if and only if the output the ring was given is whole. */
  lemma RingAnswers(p: F.Pipe, limits: Limits)
    requires F.Accounted(p) && Kept(p.store.disk)
    ensures var d := p.store.disk;
            var output, ring := d.Output(limits.highWatermark), Stand(F.Bytes(d), limits).ring;
            var from := d.End() - |output|;
            && 0 <= from <= ring.floor
            && (forall k: nat :: Answers(ring, output, from, k))
            && (F.AtLabels(output, from) <==> F.WholeFor(d, limits.highWatermark))
  {
    var d := p.store.disk;
    StoreHeard(p.store, p.last, p.history);
    var output, heard := d.Output(limits.highWatermark), Heard(p.history, F.Bytes(d));
    F.BytesSegments(d);
    F.BytesOutput(d, limits.highWatermark);
    StandMeaning(F.Bytes(d), heard, limits);
    S.OutputIsTail(F.Bytes(d), heard, limits.highWatermark);
    F.OutputLabels(p, limits.highWatermark);
    var grown, from := heard + Join(heard), d.End() - |output|;
    assert grown[from..from + |output|] == F.Values(output);
    forall k: nat ensures Answers(Stand(F.Bytes(d), limits).ring, output, from, k) {
      AnswersFrom(Stand(F.Bytes(d), limits).ring, grown, output, from, k);
    }
  }

  // ---------------------------------------------------------------- what the outcome means

  /** A marked session is answered full if and only if what is missing from its current segment is no more
      than what it printed after the mark. */
  lemma OutcomeMeaning(p: F.Pipe)
    requires F.Accounted(p)
    ensures var record := p.store.disk.record.value;
            ReachesMark(p.store.disk) <==>
            record.endedAt.Some? && |F.Missing(p)| <= |p.history| - record.endedThrough
  {
    F.MissingCount(p);
  }

  /** A stop whose feed drained and lost nothing is answered full. A degraded answer means a stop that was
      never written, output still on the way when the process went, or output lost. */
  lemma DegradedMeansLoss(p: F.Pipe)
    requires F.Ok(p)
    ensures p.store.disk.record.value.endedAt.Some? && p.Line() == [] && F.Lost(p) == {} ==>
              ReachesMark(p.store.disk)
    ensures !ReachesMark(p.store.disk) ==>
              p.store.disk.record.value.endedAt.None? || p.Line() != [] || F.Lost(p) != {}
  {
    F.MissingCount(p);
  }

  /** One read, printed, taken and handed to the store. */
  function Pass(p: F.Pipe, data: seq<byte>, f: S.Faults): F.Pipe {
    F.Next(F.Next(F.Next(p, F.Print(data)), F.Take), F.Sink(f))
  }

  predicate Unqueued(p: F.Pipe) { p.inflight.None? && p.queue == F.Queue([], 0, false) }

  predicate Idle(p: F.Pipe) { Unqueued(p) && p.store.open }

  lemma PrintThenTake(p: F.Pipe, data: seq<byte>)
    requires Unqueued(p) && |data| <= F.DEPTH
    ensures var history := p.history + data;
            F.Next(F.Next(p, F.Print(data)), F.Take) ==
            p.(history := history, inflight := Some(F.Chunk(F.Cells(history, |p.history|, |history|), |history|)))
  {
    var history := p.history + data;
    var chunk := F.Chunk(F.Cells(history, |p.history|, |history|), |history|);
    var printed := F.Next(p, F.Print(data));
    assert p.queue.pending + [chunk] == [chunk] && [chunk][1..] == [];
    assert printed.queue.Take() == F.Queue([], 0, false);
  }

  lemma SinkWithRoom(p: F.Pipe, f: S.Faults)
    requires p.inflight.Some? && p.inflight.value.through >= |p.inflight.value.data|
    requires S.Sound(p.store) && p.store.open && p.store.written + |p.inflight.value.data| <= S.BOUND
    ensures var after, taken := F.Next(p, F.Sink(f)).store, Min(f.accepts, |p.inflight.value.data|);
            && after.open && after.disk.record == p.store.disk.record
            && after.disk.End() == p.store.disk.End() + taken && after.written == p.store.written + taken
            && after.disk.Current() == p.store.disk.Current() + p.inflight.value.data[..taken]
  {
    var c := p.inflight.value;
    assert p.store.Append(c.data, c.through, f) == p.store.Write(c.data, f.accepts);
    S.WriteEffect(p.store, c.data, f.accepts);
  }

  /** Where the newest stored byte of the current segment was printed. */
  function Newest(d: S.Disk<F.Cell>): Option<int>
    requires d.record.Some?
  {
    if d.Current() == [] then None else Some(d.Current()[|d.Current()| - 1].at)
  }

  /** Where the oldest one was. */
  function Oldest(d: S.Disk<F.Cell>): Option<nat>
    requires d.record.Some?
  {
    if d.Current() == [] then None else Some(d.Current()[0].at)
  }

  lemma PassEffect(p: F.Pipe, data: seq<byte>, f: S.Faults)
    requires F.Ok(p) && Idle(p) && |data| <= F.DEPTH && p.store.written + |data| <= S.BOUND
    ensures var after := Pass(p, data, f);
            && F.Ok(after) && Idle(after) && after.history == p.history + data
            && after.store.disk.record == p.store.disk.record
            && after.store.disk.End() == p.store.disk.End() + Min(f.accepts, |data|)
            && after.store.written == p.store.written + Min(f.accepts, |data|)
            && (0 < |data| <= f.accepts ==> Newest(after.store.disk) == Some(|after.history| - 1))
            && (Oldest(p.store.disk).Some? ==> Oldest(after.store.disk) == Oldest(p.store.disk))
  {
    var printed := F.Next(p, F.Print(data));
    var taken := F.Next(printed, F.Take);
    F.NextOk(p, F.Print(data));
    F.NextOk(printed, F.Take);
    F.NextOk(taken, F.Sink(f));
    PrintThenTake(p, data);
    SinkWithRoom(taken, f);
  }

  /** Output stored after the mark stands in for output lost before it: one byte is lost, the session is
      marked where it is, one more byte is printed before the feed closes, and the session is answered full
      with a byte at another's coordinate. */
  lemma LaterOutputHidesLoss(p: F.Pipe, x: byte, y: byte, at: int, lost: S.Faults, stored: S.Faults)
    requires F.Ok(p) && Idle(p) && F.Missing(p) == {} && p.store.written + 2 <= S.BOUND
    requires lost.accepts == 0 && stored.accepts > 0
    ensures var end := MarkedBetween(p, x, y, at, lost, stored);
            F.Ok(end) && F.Lost(end) != {} && ReachesMark(end.store.disk) && !F.Whole(end.store.disk)
  {
    F.MissingCount(p);
    LostThenMarked(p, x, at, lost);
    PassEffect(F.Next(Pass(p, [x], lost), F.Stop(at, |p.history| + 1)), [y], stored);
    HiddenLoss(MarkedBetween(p, x, y, at, lost, stored));
  }

  lemma LostThenMarked(p: F.Pipe, x: byte, at: int, lost: S.Faults)
    requires F.Ok(p) && Idle(p) && p.store.written + 1 <= S.BOUND && lost.accepts == 0
    ensures var marked := F.Next(Pass(p, [x], lost), F.Stop(at, |p.history| + 1));
            && F.Ok(marked) && Idle(marked) && marked.history == p.history + [x]
            && marked.store.written == p.store.written && marked.store.disk.End() == p.store.disk.End()
            && marked.store.disk.record.value.endedAt.Some?
            && marked.store.disk.record.value.endedThrough == |p.history| + 1
  {
    PassEffect(p, [x], lost);
    StopEffect(Pass(p, [x], lost), at, |p.history| + 1);
  }

  function MarkedBetween(p: F.Pipe, x: byte, y: byte, at: int, lost: S.Faults, stored: S.Faults): F.Pipe {
    Pass(F.Next(Pass(p, [x], lost), F.Stop(at, |p.history| + 1)), [y], stored)
  }

  lemma StopEffect(p: F.Pipe, at: int, through: nat)
    requires F.Ok(p) && Idle(p) && through <= |p.history|
    ensures var marked := F.Next(p, F.Stop(at, through));
            && F.Ok(marked) && Idle(marked) && marked.history == p.history
            && marked.store.written == p.store.written && marked.store.disk.End() == p.store.disk.End()
            && marked.store.disk.record.value.endedAt.Some? && marked.store.disk.record.value.endedThrough == through
  {
    F.NextOk(p, F.Stop(at, through));
    assert F.Next(p, F.Stop(at, through)).store.disk.Current() == p.store.disk.Current();
  }

  /** One byte short of its history, and its newest byte is the history's last. */
  lemma HiddenLoss(p: F.Pipe)
    requires F.Ok(p) && p.Line() == [] && p.store.disk.End() + 1 == |p.history|
    requires Newest(p.store.disk) == Some(|p.history| - 1)
    requires p.store.disk.record.value.endedAt.Some?
    requires p.store.disk.record.value.endedThrough + 1 == |p.history|
    ensures F.Lost(p) != {} && ReachesMark(p.store.disk) && !F.Whole(p.store.disk)
  {
    F.MissingCount(p);
  }

  lemma RotatedDisk(p: F.Pipe, f: S.Faults)
    requires F.Accounted(p) && p.inflight.Some? && Rotates(p, f)
    ensures var c, after := p.inflight.value, F.Next(p, F.Sink(f)).store.disk;
            && p.store.disk.Current() != [] && p.last + |c.data| <= c.through
            && after.record.Some? && after.record.value.written == c.through - |c.data|
            && after.record.value.endedAt == p.store.disk.record.value.endedAt
            && after.Current() == c.data && after.Other() == p.store.disk.Current()
  {
    assert F.LinedAt(p.Line(), p.last, p.history, 0);
  }

  /** The append under way moves to the other segment and takes the whole chunk. */
  predicate Rotates(p: F.Pipe, f: S.Faults)
    requires p.inflight.Some?
  {
    && p.store.open && p.store.written > 0 && p.store.written + |p.inflight.value.data| > S.BOUND
    && !f.remove && !f.reread && !f.publish && f.reopening.Opens? && f.accepts >= |p.inflight.value.data|
  }

  /** Between the first byte of the current segment and the chunk under way. */
  predicate Within(p: F.Pipe, k: nat)
    requires p.inflight.Some? && p.store.disk.record.Some? && p.store.disk.Current() != []
  {
    p.store.disk.Current()[0].at < k && k + |p.inflight.value.data| < p.inflight.value.through
  }

  lemma RotationWhole(p: F.Pipe, f: S.Faults)
    requires F.Accounted(p) && p.inflight.Some? && Rotates(p, f)
    ensures var c, cells := p.inflight.value, p.store.disk.Current();
            && cells != []
            && (F.Whole(F.Next(p, F.Sink(f)).store.disk) <==> cells[0].at + |cells| == c.through - |c.data|)
  {
    RotatedDisk(p, f);
    F.LinedRest(p.Line(), p.last, p.history);
    assert F.EndsTrue(F.Next(p, F.Sink(f)).store.disk);
  }

  lemma WithinMeaning(p: F.Pipe, at: nat)
    requires F.Accounted(p) && p.inflight.Some? && p.store.disk.Current() != []
    requires at + |p.inflight.value.data| == p.inflight.value.through <= |p.history|
    requires p.store.disk.Current()[0].at <= at
    ensures F.Range(p.store.disk.Current()[0].at, at) <= F.Coordinates(p.store.disk.Current()) <==>
            forall k: nat | Within(p, k) :: k !in F.Missing(p)
  {
    var cells, w := p.store.disk.Current(), p.store.disk.record.value.written;
    F.AtLeast(cells, w, p.last, p.history, 0);
    assert cells[0].at in F.Coordinates(cells);
    forall k: nat | Within(p, k) ensures k in F.Missing(p) <==> k !in F.Coordinates(cells) {
    }
    forall k: nat ensures k in F.Range(cells[0].at, at) <==> k == cells[0].at < at || Within(p, k) {
    }
  }

  /** A rotation leaves every stored byte at its coordinate if and only if nothing is missing between the first
      byte of the segment it leaves and the chunk: what was lost before that first byte stops mattering, and
      anything lost after it moves every byte before it. */
  lemma RotationLabels(p: F.Pipe, f: S.Faults)
    requires F.Accounted(p) && p.inflight.Some? && Rotates(p, f)
    ensures p.store.disk.Current() != []
    ensures F.Whole(F.Next(p, F.Sink(f)).store.disk) <==>
            forall k: nat | Within(p, k) :: k !in F.Missing(p)
  {
    RotationWhole(p, f);
    F.LinedRest(p.Line(), p.last, p.history);
    var c, cells := p.inflight.value, p.store.disk.Current();
    F.FullWhenNoneMissing(cells, p.store.disk.record.value.written, p.last, c.through - |c.data|, p.history);
    WithinMeaning(p, c.through - |c.data|);
  }

  /** And then the whole older half is read at coordinates after those it was printed at. */
  lemma RotationMoves(p: F.Pipe, f: S.Faults, k: nat)
    requires F.Accounted(p) && p.inflight.Some? && Rotates(p, f)
    requires p.store.disk.Current() != [] && k in F.Missing(p) && Within(p, k)
    ensures var d := F.Next(p, F.Sink(f)).store.disk;
            && !F.Whole(d) && d.Other() != [] && d.Other()[0].at + |d.Other()| < d.record.value.written
  {
    var c, cells := p.inflight.value, p.store.disk.Current();
    RotatedDisk(p, f);
    RotationLabels(p, f);
    F.LinedRest(p.Line(), p.last, p.history);
    F.FullWhenNoneMissing(cells, p.store.disk.record.value.written, p.last, c.through - |c.data|, p.history);
    assert F.EndsTrue(F.Next(p, F.Sink(f)).store.disk);
  }

  /** A rotation hides a loss: a byte was lost after the first of the segment that is left behind, the last
      chunk rolls, and then nothing counts as missing, a marked session is answered full, and the older half
      is at other coordinates than it was printed at. */
  lemma RotationHidesLoss(p: F.Pipe, f: S.Faults, k: nat)
    requires F.Ok(p) && p.inflight.Some? && p.inflight.value.through == |p.history| && Rotates(p, f)
    requires p.store.disk.Current() != [] && k in F.Lost(p) && Within(p, k)
    ensures var end := F.Next(p, F.Sink(f));
            && F.Ok(end) && F.Missing(end) == {} && F.Lost(end) == {}
            && (p.store.disk.record.value.endedAt.Some? ==> ReachesMark(end.store.disk))
            && !F.Whole(end.store.disk) && end.store.disk.Other() != []
            && end.store.disk.Other()[0].at + |end.store.disk.Other()| < end.store.disk.record.value.written
  {
    F.NextOk(p, F.Sink(f));
    RotatedDisk(p, f);
    RotationMoves(p, f, k);
    F.MissingCount(F.Next(p, F.Sink(f)));
  }
}
