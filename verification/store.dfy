/** One session's output on disk: two segments taken in turn, and a record that states where the current
    one begins. The coordinate the output ends at is never stored; it is derived, so it is right after a
    crash at any point.

    `history` in the lemmas is everything the store has persisted; byte k of it has coordinate k. */
module Store {
  import opened Base

  /** How much output one segment holds. */
  const BOUND: nat := 4 * 1024 * 1024

  datatype Record = Record(
    facts: string,
    foreground: string,
    foregroundCwd: string,
    cols: nat,
    rows: nat,
    modes: seq<byte>,
    endedAt: Option<int>,
    exitCode: Option<int>,
    endedThrough: nat,
    segment: int,
    written: nat)

  datatype Disk<T> = Disk(record: Option<Record>, segments: map<int, seq<T>>) {

    /** A segment that is not there holds nothing. */
    function Segment(k: int): seq<T> { if k in segments then segments[k] else [] }

    function Current(): seq<T>
      requires record.Some?
    {
      Segment(record.value.segment)
    }

    function Other(): seq<T>
      requires record.Some?
    {
      Segment(1 - record.value.segment)
    }

    /** Where the output ends, derived. */
    function End(): nat
      requires record.Some?
    {
      record.value.written + |Current()|
    }

    /** Up to `atMost` bytes: the current segment has precedence, and the other fills what it leaves. */
    function Output(atMost: nat): seq<T>
      requires record.Some?
    {
      var newer := Tail(Current(), atMost);
      Tail(Other(), atMost - |newer|) + newer
    }

    function Create(k: int): Disk<T> { this.(segments := segments[k := Segment(k)]) }
  }

  function Tail<T>(s: seq<T>, atMost: nat): (t: seq<T>)
    ensures |t| <= atMost
  {
    if |s| > atMost then s[|s| - atMost..] else s
  }

  /** How opening a segment goes: it opens, it is refused, or it is created and then cannot be measured. */
  datatype Opening = Opens | Refused | CreatedOnly

  /** What fails on the way through one append. `accepts` is how many bytes the write takes. */
  datatype Faults = Faults(
    read: bool, opening: Opening, remove: bool, reread: bool, publish: bool, reopening: Opening, accepts: nat)

  datatype Outcome<T> = Outcome(state: State<T>, ok: bool)

  datatype State<T> = State(disk: Disk<T>, open: bool, segment: int, written: nat) {

    function OpenInto(k: int, opening: Opening): Outcome<T> {
      if (k != 0 && k != 1) || opening.Refused? then Outcome(this, false)
      else if opening.CreatedOnly? then Outcome(this.(disk := disk.Create(k)), false)
      else Outcome(State(disk.Create(k), true, k, |disk.Segment(k)|), true)
    }

    function Roll(at: nat, f: Faults): Outcome<T> {
      var next := 1 - segment;
      var closed := this.(open := false);
      if f.remove then Outcome(closed, false)
      else
        var removed := closed.(disk := disk.(segments := disk.segments - {next}));
        if f.reread || disk.record.None? || f.publish then Outcome(removed, false)
        else
          var record := disk.record.value.(segment := next, written := at);
          removed.(disk := removed.disk.(record := Some(record))).OpenInto(next, f.reopening)
    }

    function Write(data: seq<T>, accepts: nat): Outcome<T> {
      var taken := data[..Min(accepts, |data|)];
      Outcome(
        this.(disk := disk.(segments := disk.segments[segment := disk.Segment(segment) + taken]),
              written := written + |taken|),
        |taken| == |data|)
    }

    function Ready(f: Faults): Outcome<T> {
      if open then Outcome(this, true)
      else if f.read || disk.record.None? then Outcome(this, false)
      else OpenInto(disk.record.value.segment, f.opening)
    }

    function Room(size: nat, at: nat, f: Faults): Outcome<T> {
      if written + size > BOUND && written > 0 then Roll(at, f) else Outcome(this, true)
    }

    /** A file with room in it, or the error on the way to one. */
    function Prepare(size: nat, at: nat, f: Faults): Outcome<T> {
      var ready := Ready(f);
      if ready.ok then ready.state.Room(size, at, f) else ready
    }

    function Append(data: seq<T>, through: nat, f: Faults): Outcome<T>
      requires through >= |data|
    {
      var prepared := Prepare(|data|, through - |data|, f);
      if prepared.ok then prepared.state.Write(data, f.accepts) else prepared
    }
  }

  // ---------------------------------------------------------------- what the disk holds

  /** The current segment is the history from where the record says it begins to its end, and the other is
      what came right before. */
  ghost predicate Spans<T>(d: Disk<T>, history: seq<T>) {
    && d.record.Some?
    && d.End() == |history|
    && d.Current() == history[d.record.value.written..]
    && |d.Other()| <= d.record.value.written
    && d.Other() == history[d.record.value.written - |d.Other()|..d.record.value.written]
  }

  /** And the record names one of the two, neither longer than the bound. */
  ghost predicate Holds<T>(d: Disk<T>, history: seq<T>) {
    && Spans(d, history)
    && (d.record.value.segment == 0 || d.record.value.segment == 1)
    && |d.Current()| <= BOUND && |d.Other()| <= BOUND
  }

  /** Once anything has been dropped, what is left is at least a segment less one chunk. */
  predicate Retains<T>(d: Disk<T>, chunk: nat) {
    d.record.Some? ==>
      d.record.value.written == 0 || |d.Other()| + chunk > BOUND || |d.Current()| + chunk > BOUND
  }

  /** The writer, when it has a file, has the one the record names, and counts it right. */
  predicate WriterAgrees<T>(s: State<T>) {
    s.open ==>
      && s.disk.record.Some? && s.segment == s.disk.record.value.segment
      && s.segment in s.disk.segments && s.written == |s.disk.segments[s.segment]|
  }

  ghost predicate Held<T>(d: Disk<T>, history: seq<T>, chunk: nat) { Holds(d, history) && Retains(d, chunk) }

  ghost predicate Ok<T>(s: State<T>, history: seq<T>, chunk: nat) {
    Held(s.disk, history, chunk) && WriterAgrees(s)
  }

  /** Whatever a reader asks for, it is answered the history's own tail, ending at the history's end, and
      the two segments are never more than two bounds. */
  lemma OutputIsTail<T>(d: Disk<T>, history: seq<T>, atMost: nat)
    requires Spans(d, history)
    ensures Holds(d, history) ==> |d.Current()| + |d.Other()| <= 2 * BOUND
    ensures |d.Output(atMost)| == Min(atMost, |d.Current()| + |d.Other()|)
    ensures d.Output(atMost) == history[|history| - |d.Output(atMost)|..]
  {
    TailsJoin(history, d.record.value.written - |d.Other()|, d.record.value.written, atMost);
  }

  lemma TailIs<T>(s: seq<T>, atMost: nat)
    ensures Tail(s, atMost) == s[|s| - Min(atMost, |s|)..]
  {
  }

  /** The tails of two adjoining stretches that end at the history's end are one tail of it. */
  lemma TailsJoin<T>(history: seq<T>, from: nat, to: nat, atMost: nat)
    requires from <= to <= |history|
    ensures var newer := Tail(history[to..], atMost);
            var bytes := Tail(history[from..to], atMost - |newer|) + newer;
            |bytes| == Min(atMost, |history| - from) && bytes == history[|history| - |bytes|..]
  {
    var newer := Tail(history[to..], atMost);
    var older := Tail(history[from..to], atMost - |newer|);
    if |newer| < |history| - to {
      assert older == [];
      assert older + newer == newer;
    } else {
      assert older == history[to - |older|..to] && newer == history[to..|history|];
      SliceJoin(history, to - |older|, to, |history|);
    }
  }

  /** A crash leaves some prefix of the chunk on disk, and the disk holds exactly that much more. */
  ghost predicate Survives<T>(d: Disk<T>, history: seq<T>, data: seq<T>, chunk: nat) {
    exists k: nat :: k <= |data| && Held(d, history + data[..k], chunk)
  }

  lemma SurvivesWhole<T>(d: Disk<T>, history: seq<T>, data: seq<T>, chunk: nat)
    requires Held(d, history, chunk)
    ensures Survives(d, history, data, chunk)
  {
    assert history + data[..0] == history;
  }

  // ---------------------------------------------------------------- what one append does

  /** A record naming one of the two segments, and a writer that agrees with it: what a running store keeps
      whatever fails. */
  predicate Sound<T>(s: State<T>) {
    && s.disk.record.Some?
    && (s.disk.record.value.segment == 0 || s.disk.record.value.segment == 1)
    && WriterAgrees(s)
  }

  predicate SameFacts(a: Record, b: Record) {
    a.(segment := 0, written := 0) == b.(segment := 0, written := 0)
  }

  /** Either some of the chunk joined the current segment, or the store moved on: the other segment, from
      where the chunk begins, has some of the chunk, and what was current is the older half. The older half
      is given up only for want of room for the chunk. */
  ghost predicate Appended<T>(before: Disk<T>, after: Disk<T>, size: nat, at: nat, taken: seq<T>)
    requires before.record.Some? && after.record.Some?
  {
    && (|before.Current()| <= BOUND && size <= BOUND && |taken| <= size ==> |after.Current()| <= BOUND)
    && (|| (&& after.record == before.record
            && after.Current() == before.Current() + taken
            && (after.Other() == before.Other() ||
                (after.Other() == [] && |before.Current()| + size > BOUND)))
        || (&& SameFacts(after.record.value, before.record.value)
            && after.record.value.written == at
            && after.Current() == taken
            && after.Other() == before.Current() != []
            && |before.Current()| + size > BOUND))
  }

  ghost predicate SameContents<T>(a: Disk<T>, b: Disk<T>) {
    a.record == b.record && forall k :: a.Segment(k) == b.Segment(k)
  }

  lemma ReadyEffect<T>(s: State<T>, f: Faults)
    requires Sound(s)
    ensures var r := s.Ready(f); Sound(r.state) && SameContents(s.disk, r.state.disk) && (r.ok ==> r.state.open)
  {
  }

  /** Room is made by moving on, and moving on can stop after the older half is gone. */
  lemma RoomEffect<T>(s: State<T>, size: nat, at: nat, f: Faults)
    requires Sound(s) && s.open
    ensures var r := s.Room(size, at, f);
            && Sound(r.state)
            && Appended(s.disk, r.state.disk, size, at, [])
            && (r.ok ==> r.state.open && (|r.state.disk.Current()| + size <= BOUND || r.state.disk.Current() == []))
  {
    var r := s.Room(size, at, f);
    assert s.disk.Current() + [] == s.disk.Current();
    if r.state.disk.record == s.disk.record {
      assert r.state.disk.Current() == s.disk.Current();
    }
  }

  lemma WriteEffect<T>(s: State<T>, data: seq<T>, accepts: nat)
    requires Sound(s) && s.open
    ensures var r := s.Write(data, accepts);
            && Sound(r.state) && r.state.disk.record == s.disk.record
            && r.state.disk.Current() == s.disk.Current() + data[..Min(accepts, |data|)]
            && r.state.disk.Other() == s.disk.Other()
            && (r.ok ==> accepts >= |data|)
  {
  }

  lemma AppendedMore<T>(before: Disk<T>, roomy: Disk<T>, after: Disk<T>, size: nat, at: nat, taken: seq<T>)
    requires before.record.Some? && roomy.record.Some? && after.record == roomy.record
    requires Appended(before, roomy, size, at, [])
    requires after.Current() == roomy.Current() + taken && after.Other() == roomy.Other() && |taken| <= size
    requires |roomy.Current()| + size <= BOUND || roomy.Current() == []
    ensures Appended(before, after, size, at, taken)
  {
    assert before.Current() + [] == before.Current() && [] + taken == taken;
  }

  lemma WroteEffect<T>(before: Disk<T>, roomy: State<T>, data: seq<T>, at: nat, accepts: nat)
    requires before.record.Some? && Sound(roomy) && roomy.open && Appended(before, roomy.disk, |data|, at, [])
    requires |roomy.disk.Current()| + |data| <= BOUND || roomy.disk.Current() == []
    ensures var r := roomy.Write(data, accepts);
            && Sound(r.state)
            && Appended(before, r.state.disk, |data|, at, data[..Min(accepts, |data|)])
            && (r.ok ==> accepts >= |data|)
  {
    WriteEffect(roomy, data, accepts);
    AppendedMore(before, roomy.disk, roomy.Write(data, accepts).state.disk, |data|, at, data[..Min(accepts, |data|)]);
  }

  lemma UnpreparedAppend<T>(s: State<T>, data: seq<T>, through: nat, f: Faults)
    requires through >= |data| && !s.Prepare(|data|, through - |data|, f).ok
    ensures s.Append(data, through, f) == s.Prepare(|data|, through - |data|, f)
  {
  }

  lemma PreparedEffect<T>(s: State<T>, data: seq<T>, through: nat, f: Faults)
    requires Sound(s) && through >= |data| && s.Prepare(|data|, through - |data|, f).ok
    ensures var r, taken := s.Append(data, through, f), Min(f.accepts, |data|);
            && Sound(r.state) && Appended(s.disk, r.state.disk, |data|, through - |data|, data[..taken])
            && (r.ok ==> taken == |data|)
  {
    PrepareEffect(s, |data|, through - |data|, f);
    WroteEffect(s.disk, s.Prepare(|data|, through - |data|, f).state, data, through - |data|, f.accepts);
  }

  lemma AppendEffect<T>(s: State<T>, data: seq<T>, through: nat, f: Faults) returns (taken: nat)
    requires Sound(s) && through >= |data|
    ensures taken <= |data|
    ensures var r := s.Append(data, through, f);
            && Sound(r.state)
            && Appended(s.disk, r.state.disk, |data|, through - |data|, data[..taken])
            && (r.ok ==> taken == |data|)
  {
    if s.Prepare(|data|, through - |data|, f).ok {
      PreparedEffect(s, data, through, f);
      taken := Min(f.accepts, |data|);
    } else {
      UnpreparedAppend(s, data, through, f);
      PrepareEffect(s, |data|, through - |data|, f);
      taken := 0;
      assert data[..0] == [];
    }
  }

  lemma PrepareEffect<T>(s: State<T>, size: nat, at: nat, f: Faults)
    requires Sound(s)
    ensures var r := s.Prepare(size, at, f);
            && Sound(r.state)
            && Appended(s.disk, r.state.disk, size, at, [])
            && (r.ok ==> r.state.open && (|r.state.disk.Current()| + size <= BOUND || r.state.disk.Current() == []))
  {
    ReadyEffect(s, f);
    var ready := s.Ready(f);
    assert s.disk.Current() + [] == s.disk.Current();
    if ready.ok {
      RoomEffect(ready.state, size, at, f);
    }
  }

  /** A chunk appended where the history ends leaves the history and what was taken of it. */
  lemma AppendedOk<T>(before: State<T>, after: State<T>, history: seq<T>, chunk: nat, size: nat, taken: seq<T>)
    requires Ok(before, history, chunk) && Sound(after) && |taken| <= size <= chunk <= BOUND
    requires Appended(before.disk, after.disk, size, |history|, taken)
    ensures Ok(after, history + taken, chunk)
  {
    var w, other := before.disk.record.value.written, before.disk.Other();
    var grown := history + taken;
    assert grown[w..] == history[w..] + taken;
    assert grown[w - |other|..w] == history[w - |other|..w];
    assert grown[|history|..] == taken;
    assert grown[w..|history|] == history[w..];
  }

  // ---------------------------------------------------------------- the writer

  /** The store of one session. Each method also answers, for the proof, the states of the disk that a
      crash inside it can leave behind. */
  class SegmentStore<T(==)> {
    var disk: Disk<T>
    var open: bool
    var segment: int
    var written: nat

    function View(): State<T>
      reads this
    {
      State(disk, open, segment, written)
    }

    constructor (disk: Disk<T>)
      ensures View() == State(disk, false, -1, 0)
    {
      this.disk, open, segment, written := disk, false, -1, 0;
    }

    method OpenInto(k: int, opening: Opening) returns (ok: bool, ghost crashes: set<Disk<T>>)
      modifies this
      ensures Outcome(View(), ok) == old(View()).OpenInto(k, opening)
      ensures crashes == {old(disk), disk}
    {
      crashes := {disk};
      if k != 0 && k != 1 {
        return false, crashes;
      }
      if opening.Refused? {
        return false, crashes;
      }
      disk := disk.Create(k);
      crashes := crashes + {disk};
      if opening.CreatedOnly? {
        return false, crashes;
      }
      open, segment, written := true, k, |disk.Segment(k)|;
      return true, crashes;
    }

    method Roll(at: nat, f: Faults) returns (ok: bool, ghost crashes: set<Disk<T>>)
      modifies this
      ensures Outcome(View(), ok) == old(View()).Roll(at, f)
      ensures crashes <= RollCrashes(old(disk), old(segment), at)
    {
      var next := 1 - segment;
      open, crashes := false, {disk};
      if f.remove {
        return false, crashes;
      }
      disk := disk.(segments := disk.segments - {next});
      crashes := crashes + {disk};
      if f.reread || disk.record.None? {
        return false, crashes;
      }
      var record := disk.record.value.(segment := next, written := at);
      if f.publish {
        return false, crashes;
      }
      disk := disk.(record := Some(record));
      ghost var more;
      ok, more := OpenInto(next, f.reopening);
      crashes := crashes + more;
    }

    /** The write can be cut anywhere: every prefix of what it takes is a state a crash can leave. */
    method Write(data: seq<T>, accepts: nat) returns (ok: bool, ghost crashes: set<Disk<T>>)
      modifies this
      ensures Outcome(View(), ok) == old(View()).Write(data, accepts)
      ensures crashes == set n: nat | n <= Min(accepts, |data|) :: Partly(old(disk), old(segment), data, n)
    {
      var count := Min(accepts, |data|);
      crashes := set n: nat | n <= count :: Partly(disk, segment, data, n);
      disk := Partly(disk, segment, data, count);
      written := written + count;
      return count == |data|, crashes;
    }

    method Ready(f: Faults) returns (ok: bool, ghost crashes: set<Disk<T>>)
      modifies this
      ensures Outcome(View(), ok) == old(View()).Ready(f)
      ensures crashes == {old(disk), disk}
    {
      if open {
        return true, {disk};
      }
      if f.read || disk.record.None? {
        return false, {disk};
      }
      ok, crashes := OpenInto(disk.record.value.segment, f.opening);
    }

    /** A rotation is told the coordinate of the chunk's first byte, which is the first it will hold. */
    method Prepare(size: nat, at: nat, f: Faults) returns (ok: bool, ghost crashes: set<Disk<T>>)
      modifies this
      ensures Outcome(View(), ok) == old(View()).Prepare(size, at, f)
      ensures crashes <= PrepareCrashes(old(View()), size, at, f)
    {
      ok, crashes := Ready(f);
      if ok && written + size > BOUND && written > 0 {
        ghost var more;
        ok, more := Roll(at, f);
        crashes := crashes + more;
      }
    }

    method Append(data: seq<T>, through: nat, f: Faults) returns (ok: bool, ghost crashes: set<Disk<T>>)
      requires through >= |data|
      modifies this
      ensures Outcome(View(), ok) == old(View()).Append(data, through, f)
      ensures crashes <= AppendCrashes(old(View()), data, through, f)
    {
      ok, crashes := Prepare(|data|, through - |data|, f);
      if ok {
        ghost var more;
        ok, more := Write(data, f.accepts);
        crashes := crashes + more;
      }
    }
  }

  // ---------------------------------------------------------------- crashes

  /** Some of the chunk is on disk and the rest of the write has not happened. */
  function Partly<T>(d: Disk<T>, k: int, data: seq<T>, n: nat): Disk<T>
    requires n <= |data|
  {
    d.(segments := d.segments[k := d.Segment(k) + data[..n]])
  }

  /** After closing, after removing the other segment, after the record's rename, after the new file. */
  ghost function RollCrashes<T>(d: Disk<T>, segment: int, at: nat): set<Disk<T>> {
    var next := 1 - segment;
    var removed := d.(segments := d.segments - {next});
    if d.record.None? then {d, removed}
    else
      var moved := removed.(record := Some(d.record.value.(segment := next, written := at)));
      {d, removed, moved, moved.Create(next)}
  }

  ghost function PrepareCrashes<T>(s: State<T>, size: nat, at: nat, f: Faults): set<Disk<T>> {
    var ready := s.Ready(f);
    {s.disk, ready.state.disk} +
    if ready.ok && ready.state.written + size > BOUND && ready.state.written > 0
    then RollCrashes(ready.state.disk, ready.state.segment, at) else {}
  }

  ghost function AppendCrashes<T>(s: State<T>, data: seq<T>, through: nat, f: Faults): set<Disk<T>>
    requires through >= |data|
  {
    var prepared := s.Prepare(|data|, through - |data|, f);
    PrepareCrashes(s, |data|, through - |data|, f) +
    if prepared.ok then
      set n: nat | n <= Min(f.accepts, |data|) :: Partly(prepared.state.disk, prepared.state.segment, data, n)
    else {}
  }

  lemma RollCrashesHold<T>(s: State<T>, history: seq<T>, chunk: nat, d: Disk<T>)
    requires Ok(s, history, chunk) && s.open && s.written + chunk > BOUND
    requires d in RollCrashes(s.disk, s.segment, |history|)
    ensures Held(d, history, chunk)
  {
    var segment, w := s.segment, s.disk.record.value.written;
    assert s.disk.Current() == s.disk.Segment(segment);
    assert d.Segment(segment) == s.disk.Segment(segment);
    if d.record != s.disk.record {
      assert d.Current() == [] && d.Other() == s.disk.Current();
      assert history[|history| - |d.Other()|..|history|] == history[w..];
    } else {
      assert d.Other() == s.disk.Other() || d.Other() == [];
    }
  }

  lemma PrepareCrashesHold<T>(s: State<T>, history: seq<T>, chunk: nat, size: nat, f: Faults, d: Disk<T>)
    requires Ok(s, history, chunk) && size <= chunk
    requires d in PrepareCrashes(s, size, |history|, f)
    ensures Held(d, history, chunk)
  {
    var ready := s.Ready(f);
    ReadyEffect(s, f);
    ReadyOk(s, history, chunk, f);
    if d != s.disk && d != ready.state.disk {
      RollCrashesHold(ready.state, history, chunk, d);
    }
  }

  /** However an append of the chunk that comes next is cut, the disk holds the history and some prefix of
      the chunk: nothing persisted is lost and nothing is labelled with another byte's coordinate. */
  lemma AppendCrashSafe<T>(s: State<T>, history: seq<T>, chunk: nat, data: seq<T>, f: Faults, d: Disk<T>)
    requires Ok(s, history, chunk) && |data| <= chunk <= BOUND
    requires d in AppendCrashes(s, data, |history| + |data|, f)
    ensures Survives(d, history, data, chunk)
  {
    if d in PrepareCrashes(s, |data|, |history|, f) {
      PrepareCrashesHold(s, history, chunk, |data|, f, d);
      SurvivesWhole(d, history, data, chunk);
    } else {
      var prepared := s.Prepare(|data|, |history|, f);
      PrepareEffect(s, |data|, |history|, f);
      AppendedOk(s, prepared.state, history, chunk, |data|, []);
      assert history + [] == history;
      var n: nat :| n <= |data| && d == Partly(prepared.state.disk, prepared.state.segment, data, n);
      PartlyOk(prepared.state, history, chunk, data, n);
    }
  }

  lemma ReadyOk<T>(s: State<T>, history: seq<T>, chunk: nat, f: Faults)
    requires Ok(s, history, chunk)
    ensures Ok(s.Ready(f).state, history, chunk)
  {
    ReadyEffect(s, f);
  }

  lemma PartlySound<T>(s: State<T>, data: seq<T>, n: nat)
    requires Sound(s) && s.open && n <= |data|
    ensures var part := Partly(s.disk, s.segment, data, n);
            && Sound(s.(disk := part, written := s.written + n))
            && part.record == s.disk.record
            && part.Current() == s.disk.Current() + data[..n] && part.Other() == s.disk.Other()
  {
  }

  lemma PartlyOk<T>(s: State<T>, history: seq<T>, chunk: nat, data: seq<T>, n: nat)
    requires Ok(s, history, chunk) && s.open && n <= |data| <= chunk <= BOUND
    requires |s.disk.Current()| + |data| <= BOUND || s.disk.Current() == []
    ensures Survives(Partly(s.disk, s.segment, data, n), history, data, chunk)
  {
    var part := s.(disk := Partly(s.disk, s.segment, data, n), written := s.written + n);
    PartlySound(s, data, n);
    assert Appended(s.disk, part.disk, |data|, |history|, data[..n]);
    AppendedOk(s, part, history, chunk, |data|, data[..n]);
  }

  lemma PrepareCrashIsFault<T>(s: State<T>, size: nat, at: nat, f: Faults, d: Disk<T>) returns (g: Faults)
    requires Sound(s) && d in PrepareCrashes(s, size, at, f)
    ensures s.Prepare(size, at, g).state.disk == d
  {
    var ready := s.Ready(f);
    ReadyEffect(s, f);
    if d == s.disk {
      g := f.(opening := Refused, remove := true);
    } else if d == ready.state.disk {
      g := f.(remove := true);
    } else {
      var disk, next := ready.state.disk, 1 - ready.state.segment;
      var removed := disk.(segments := disk.segments - {next});
      var moved := removed.(record := Some(disk.record.value.(segment := next, written := at)));
      assert d in {disk, removed, moved, moved.Create(next)};
      g := f.(remove := false, reread := d == removed, publish := false,
              reopening := if d == moved then Refused else CreatedOnly);
    }
  }

  lemma WriteCrashIsFault<T>(s: State<T>, data: seq<T>, through: nat, f: Faults, n: nat)
    requires through >= |data| && n <= |data|
    requires s.Prepare(|data|, through - |data|, f).ok
    ensures var prepared := s.Prepare(|data|, through - |data|, f).state;
            s.Append(data, through, f.(accepts := n)).state.disk == Partly(prepared.disk, prepared.segment, data, n)
  {
    assert s.Ready(f.(accepts := n)) == s.Ready(f);
    assert s.Prepare(|data|, through - |data|, f.(accepts := n)) == s.Prepare(|data|, through - |data|, f);
  }

  lemma CutBeforeWrite<T>(s: State<T>, data: seq<T>, through: nat, g: Faults)
    requires Sound(s) && through >= |data|
    ensures s.Append(data, through, g.(accepts := 0)).state.disk == s.Prepare(|data|, through - |data|, g).state.disk
  {
    var prepared := s.Prepare(|data|, through - |data|, g);
    assert s.Ready(g.(accepts := 0)) == s.Ready(g);
    assert s.Prepare(|data|, through - |data|, g.(accepts := 0)) == prepared;
    PrepareEffect(s, |data|, through - |data|, g);
    if prepared.ok {
      WroteNothing(prepared.state, data);
    }
  }

  /** A kill inside an append leaves what some fault at the same point leaves. */
  lemma CrashIsFault<T>(s: State<T>, data: seq<T>, through: nat, f: Faults, d: Disk<T>) returns (g: Faults)
    requires Sound(s) && through >= |data| && d in AppendCrashes(s, data, through, f)
    ensures s.Append(data, through, g).state.disk == d
  {
    if d in PrepareCrashes(s, |data|, through - |data|, f) {
      g := PrepareCrashIsFault(s, |data|, through - |data|, f, d);
      CutBeforeWrite(s, data, through, g);
      g := g.(accepts := 0);
    } else {
      var prepared := s.Prepare(|data|, through - |data|, f);
      var n: nat :| n <= Min(f.accepts, |data|) && d == Partly(prepared.state.disk, prepared.state.segment, data, n);
      WriteCrashIsFault(s, data, through, f, n);
      g := f.(accepts := n);
    }
  }

  lemma WroteNothing<T>(s: State<T>, data: seq<T>)
    requires WriterAgrees(s) && s.open
    ensures Partly(s.disk, s.segment, data, 0) == s.disk
  {
    assert s.disk.Segment(s.segment) + data[..0] == s.disk.Segment(s.segment);
  }

  // ---------------------------------------------------------------- an append that nothing stops

  /** Nothing fails on the way, and the write takes all it is given. */
  predicate Clean(f: Faults, size: nat) {
    !f.read && f.opening.Opens? && !f.remove && !f.reread && !f.publish && f.reopening.Opens? && f.accepts >= size
  }

  lemma ReadySucceeds<T>(s: State<T>, f: Faults)
    requires Sound(s) && !f.read && f.opening.Opens?
    ensures var r := s.Ready(f); r.ok && r.state.open && r.state.disk.Current() == s.disk.Current()
  {
  }

  lemma RoomSucceeds<T>(s: State<T>, size: nat, at: nat, f: Faults)
    requires Sound(s) && s.open && Clean(f, size)
    ensures s.Room(size, at, f).ok
    ensures s.Room(size, at, f).state.disk.record.value.segment ==
            if |s.disk.Current()| + size > BOUND && s.disk.Current() != []
            then 1 - s.disk.record.value.segment else s.disk.record.value.segment
  {
  }

  /** With no fault, every append succeeds, whether its writer was open or not and whatever is in the segments:
      all of the chunk is stored, the writer stays open, and the store moves on exactly when the chunk does not
      fit a segment with something in it. */
  lemma AppendSucceeds<T>(s: State<T>, data: seq<T>, through: nat, f: Faults)
    requires Sound(s) && through >= |data| && Clean(f, |data|)
    ensures var r := s.Append(data, through, f);
            && r.ok && r.state.open && Sound(r.state)
            && Appended(s.disk, r.state.disk, |data|, through - |data|, data)
            && r.state.disk.record.value.segment ==
               if |s.disk.Current()| + |data| > BOUND && s.disk.Current() != []
               then 1 - s.disk.record.value.segment else s.disk.record.value.segment
  {
    var at: nat := through - |data|;
    ReadyEffect(s, f);
    ReadySucceeds(s, f);
    RoomSucceeds(s.Ready(f).state, |data|, at, f);
    PreparedEffect(s, data, through, f);
    assert data[..Min(f.accepts, |data|)] == data;
    PrepareEffect(s, |data|, at, f);
    WriteEffect(s.Prepare(|data|, at, f).state, data, f.accepts);
  }

  /** What an append leaves is among the disks a crash inside it can leave. */
  lemma EndIsCrash<T>(s: State<T>, data: seq<T>, through: nat, f: Faults)
    requires Sound(s) && through >= |data| && s.Prepare(|data|, through - |data|, f).ok
    ensures s.Append(data, through, f).state.disk in AppendCrashes(s, data, through, f)
    ensures s.disk in AppendCrashes(s, data, through, f)
  {
    var prepared := s.Prepare(|data|, through - |data|, f).state;
    var n: nat := Min(f.accepts, |data|);
    assert s.Append(data, through, f).state.disk == Partly(prepared.disk, prepared.segment, data, n);
  }
}
