/** Updates of one session's record by any number of goroutines, under the record's lock; and the stop write,
    which looks at the writer under one lock and writes the record under another. */
module Records {
  import opened Base
  import S = Store

  datatype Update =
    | Foreground(command: string, cwd: string)
    | Size(cols: nat, rows: nat)
    | Modes(report: seq<byte>)
    | ClearMark
    | Mark(at: int, exitCode: Option<int>, through: nat, segment: Option<int>)
    | Rotate(next: int, begins: nat)

  function Apply(u: Update, r: S.Record): S.Record {
    match u
    case Foreground(command, cwd) => r.(foreground := command, foregroundCwd := cwd)
    case Size(cols, rows) => r.(cols := cols, rows := rows)
    case Modes(report) => r.(modes := report)
    case ClearMark => r.(endedAt := None, exitCode := None, endedThrough := 0)
    case Mark(at, exitCode, through, segment) =>
      r.(endedAt := Some(at), exitCode := exitCode, endedThrough := through,
         segment := if segment.Some? then segment.value else r.segment)
    case Rotate(next, begins) => r.(segment := next, written := begins)
  }

  datatype Job = Create(record: S.Record) | Change(update: Update) | Remove

  function Did(job: Job, record: Option<S.Record>): Option<S.Record> {
    match job
    case Create(r) => Some(r)
    case Change(u) => if record.Some? then Some(Apply(u, record.value)) else None
    case Remove => None
  }

  /** One session's record and output, as the record's writers find them. Each write reads the record,
      changes its own fields and publishes the whole; what it could not read it does not publish. */
  class RecordStore<T(==)> {
    var disk: S.Disk<T>

    constructor (disk: S.Disk<T>)
      ensures this.disk == disk
    {
      this.disk := disk;
    }

    method Create(record: S.Record, fails: bool) returns (ok: bool)
      modifies this
      ensures ok == !fails && disk.segments == old(disk.segments)
      ensures disk.record == if ok then Did(Job.Create(record), old(disk.record)) else old(disk.record)
    {
      if !fails {
        disk := disk.(record := Some(record));
      }
      return !fails;
    }

    method SetForeground(command: string, cwd: string, unreadable: bool, fails: bool) returns (ok: bool)
      modifies this
      ensures ok == (!unreadable && old(disk.record).Some? && !fails)
      ensures disk == Changed(old(disk), Foreground(command, cwd), ok)
    {
      if unreadable || disk.record.None? || fails {
        return false;
      }
      disk := disk.(record := Some(disk.record.value.(foreground := command, foregroundCwd := cwd)));
      return true;
    }

    method SetSize(cols: nat, rows: nat, unreadable: bool, fails: bool) returns (ok: bool)
      modifies this
      ensures ok == (!unreadable && old(disk.record).Some? && !fails)
      ensures disk == Changed(old(disk), Size(cols, rows), ok)
    {
      if unreadable || disk.record.None? || fails {
        return false;
      }
      disk := disk.(record := Some(disk.record.value.(cols := cols, rows := rows)));
      return true;
    }

    method SetModes(report: seq<byte>, unreadable: bool, fails: bool) returns (ok: bool)
      modifies this
      ensures ok == (!unreadable && old(disk.record).Some? && !fails)
      ensures disk == Changed(old(disk), Modes(report), ok)
    {
      if unreadable || disk.record.None? || fails {
        return false;
      }
      disk := disk.(record := Some(disk.record.value.(modes := report)));
      return true;
    }

    method ClearStopMark(unreadable: bool, fails: bool) returns (ok: bool)
      modifies this
      ensures ok == (!unreadable && old(disk.record).Some? && !fails)
      ensures disk == Changed(old(disk), ClearMark, ok)
    {
      if unreadable || disk.record.None? || fails {
        return false;
      }
      disk := disk.(record := Some(disk.record.value.(endedAt := None, exitCode := None, endedThrough := 0)));
      return true;
    }

    /** The second half of the stop write: `segment` is what the first half saw, or -1 for no file. */
    method MarkEnded(segment: int, at: int, exitCode: Option<int>, through: nat, unreadable: bool, fails: bool)
      returns (ok: bool)
      modifies this
      ensures ok == (!unreadable && old(disk.record).Some? && !fails)
      ensures disk == Changed(old(disk), Mark(at, exitCode, through, if segment >= 0 then Some(segment) else None), ok)
    {
      if unreadable || disk.record.None? {
        return false;
      }
      var record := disk.record.value.(endedThrough := through);
      if segment >= 0 {
        record := record.(segment := segment);
      }
      record := record.(endedAt := Some(at), exitCode := exitCode);
      if fails {
        return false;
      }
      disk := disk.(record := Some(record));
      return true;
    }

    /** The output goes before the record, so wherever this stops or is killed, output that is left is
        named by a record. `failsAt` is the removal that fails: a segment, or the record as 2. */
    method Remove(failsAt: Option<nat>) returns (ok: bool, ghost crashes: set<S.Disk<T>>)
      modifies this
      ensures ok <==> failsAt.None? || failsAt.value > 2
      ensures ok ==> disk == S.Disk(Did(Job.Remove, old(disk.record)), old(disk.segments) - {0, 1})
      ensures !ok ==> disk.record == old(disk.record)
      ensures disk in crashes
      ensures forall d | d in crashes ::
                d.record == old(disk.record) || (d.record.None? && 0 !in d.segments && 1 !in d.segments)
    {
      ghost var before := disk;
      crashes := {disk};
      var segment := 0;
      while segment < 2
        invariant segment <= 2
        invariant var gone: set<int> := if segment == 0 then {} else if segment == 1 then {0} else {0, 1};
                  disk == before.(segments := before.segments - gone)
        invariant failsAt.Some? ==> failsAt.value >= segment
        invariant disk in crashes && forall d | d in crashes :: d.record == before.record
      {
        if failsAt == Some(segment) {
          return false, crashes;
        }
        disk := disk.(segments := disk.segments - {segment});
        crashes := crashes + {disk};
        segment := segment + 1;
      }
      if failsAt == Some(2) {
        return false, crashes;
      }
      disk := disk.(record := None);
      crashes := crashes + {disk};
      return true, crashes;
    }
  }

  function Changed<T>(d: S.Disk<T>, u: Update, ok: bool): S.Disk<T> {
    if ok then d.(record := Did(Change(u), d.record)) else d
  }

  /** Inside the record's lock there is at most one; those waiting have read nothing yet. */
  datatype Holder = Free | Entered(job: Job) | HasRead(update: Update, seen: S.Record)

  /** `log` is every job that has published, in order. */
  datatype State = State(record: Option<S.Record>, holder: Holder, log: seq<Job>)

  datatype Move = Enter(job: Job) | Read | Publish | Fail

  function Next(s: State, move: Move): State {
    match move
    case Enter(job) => if s.holder.Free? then s.(holder := Entered(job)) else s
    case Read =>
      if !s.holder.Entered? || !s.holder.job.Change? then s
      else if s.record.None? then s.(holder := Free)
      else s.(holder := HasRead(s.holder.job.update, s.record.value))
    case Publish =>
      if s.holder.HasRead? then
        State(Some(Apply(s.holder.update, s.holder.seen)), Free, s.log + [Change(s.holder.update)])
      else if s.holder.Entered? && s.holder.job.Create? then
        State(Some(s.holder.job.record), Free, s.log + [s.holder.job])
      else if s.holder.Entered? && s.holder.job.Remove? then State(None, Free, s.log + [Remove])
      else s
    case Fail => s.(holder := Free)
  }

  function Replay(log: seq<Job>, record: Option<S.Record>): Option<S.Record>
    decreases |log|
  {
    if log == [] then record else Did(log[|log| - 1], Replay(log[..|log| - 1], record))
  }

  function Run(s: State, moves: seq<Move>): State
    decreases |moves|
  {
    if moves == [] then s else Run(Next(s, moves[0]), moves[1..])
  }

  function Begin(record: Option<S.Record>): State { State(record, Free, []) }

  ghost predicate Ok(s: State, start: Option<S.Record>) {
    s.record == Replay(s.log, start) && (s.holder.HasRead? ==> s.record == Some(s.holder.seen))
  }

  lemma ReplayLast(log: seq<Job>, job: Job, record: Option<S.Record>)
    ensures Replay(log + [job], record) == Did(job, Replay(log, record))
  {
    assert (log + [job])[..|log|] == log;
  }

  lemma PublishOk(s: State, start: Option<S.Record>)
    requires Ok(s, start)
    ensures Ok(Next(s, Publish), start)
  {
    match s.holder
    case HasRead(update, _) => ReplayLast(s.log, Change(update), start);
    case Entered(job) => ReplayLast(s.log, job, start);
    case Free =>
  }

  lemma NextOk(s: State, move: Move, start: Option<S.Record>)
    requires Ok(s, start)
    ensures Ok(Next(s, move), start)
  {
    match move
    case Publish => PublishOk(s, start);
    case Enter(_) =>
    case Read =>
    case Fail =>
  }

  /** No update is lost: in every interleaving the record is what the published updates make of it one after
      the other, each on the result of the one before. */
  lemma {:induction false} NoUpdateLost(s: State, moves: seq<Move>, start: Option<S.Record>)
    requires Ok(s, start)
    ensures Ok(Run(s, moves), start)
    ensures Run(s, moves).record == Replay(Run(s, moves).log, start)
    decreases |moves|
  {
    if moves != [] {
      NextOk(s, moves[0], start);
      NoUpdateLost(Next(s, moves[0]), moves[1..], start);
    }
  }

  lemma RunFirst(s: State, move: Move, rest: seq<Move>)
    ensures Run(s, [move] + rest) == Run(Next(s, move), rest)
  {
    assert ([move] + rest)[1..] == rest;
  }

  /** A job that finds the lock free, reads what is there and publishes does what it says, and leaves the lock; an
      update of a record that is not there, and one whose publishing fails, change nothing. */
  lemma JobPublishes(s: State, job: Job)
    requires s.holder.Free?
    ensures job.Change? ==>
              var end := Run(s, [Enter(job), Read, Publish]);
              && end.record == Did(job, s.record) && end.holder.Free?
              && end.log == if s.record.Some? then s.log + [job] else s.log
    ensures !job.Change? ==>
              var end := Run(s, [Enter(job), Publish]);
              end.record == Did(job, s.record) && end.holder.Free? && end.log == s.log + [job]
    ensures Run(s, [Enter(job), Read, Fail]) == s
  {
    var entered := Next(s, Enter(job));
    var read := Next(entered, Read);
    RunFirst(s, Enter(job), [Read, Publish]);
    RunFirst(s, Enter(job), [Publish]);
    RunFirst(s, Enter(job), [Read, Fail]);
    RunFirst(entered, Read, [Publish]);
    RunFirst(entered, Read, [Fail]);
    RunFirst(entered, Publish, []);
    RunFirst(read, Publish, []);
    RunFirst(read, Fail, []);
  }

  predicate Creating(s: State) { s.holder.Entered? && s.holder.job.Create? }

  /** Once a removal has published, nothing but a creation brings the record back: no update read what was
      there before it, and none finds anything to change. */
  lemma {:induction false} RemovedStaysRemoved(s: State, moves: seq<Move>, start: Option<S.Record>)
    requires Ok(s, start) && s.record.None? && !Creating(s)
    requires forall i | 0 <= i < |moves| :: !(moves[i].Enter? && moves[i].job.Create?)
    ensures Run(s, moves).record.None?
    decreases |moves|
  {
    if moves != [] {
      var next := Next(s, moves[0]);
      NextOk(s, moves[0], start);
      assert moves[0] == moves[0];
      RemovedStaysRemoved(next, moves[1..], start);
    }
  }

  // ---------------------------------------------------------------- disjoint fields

  datatype Field = TheForeground | TheSize | TheModes | TheMark | TheSegment | TheBeginning

  function Touches(u: Update): set<Field> {
    match u
    case Foreground(_, _) => {TheForeground}
    case Size(_, _) => {TheSize}
    case Modes(_) => {TheModes}
    case ClearMark => {TheMark}
    case Mark(_, _, _, segment) => if segment.Some? then {TheMark, TheSegment} else {TheMark}
    case Rotate(_, _) => {TheSegment, TheBeginning}
  }

  predicate SameField(f: Field, a: S.Record, b: S.Record) {
    match f
    case TheForeground => a.foreground == b.foreground && a.foregroundCwd == b.foregroundCwd
    case TheSize => a.cols == b.cols && a.rows == b.rows
    case TheModes => a.modes == b.modes
    case TheMark => a.endedAt == b.endedAt && a.exitCode == b.exitCode && a.endedThrough == b.endedThrough
    case TheSegment => a.segment == b.segment
    case TheBeginning => a.written == b.written
  }

  function Fold(us: seq<Update>, r: S.Record): S.Record
    decreases |us|
  {
    if us == [] then r else Apply(us[|us| - 1], Fold(us[..|us| - 1], r))
  }

  /** The updates that touch a field, in order. */
  function On(f: Field, us: seq<Update>): seq<Update>
    decreases |us|
  {
    if us == [] then []
    else
      var u := us[|us| - 1];
      On(f, us[..|us| - 1]) + if f in Touches(u) then [u] else []
  }

  lemma ApplyField(f: Field, u: Update, a: S.Record, b: S.Record)
    requires SameField(f, a, b)
    ensures f in Touches(u) ==> SameField(f, Apply(u, a), Apply(u, b))
    ensures f !in Touches(u) ==> SameField(f, Apply(u, a), b)
  {
    match u
    case Mark(_, _, _, _) =>
    case _ =>
  }

  lemma FoldLast(us: seq<Update>, u: Update, r: S.Record)
    ensures Fold(us + [u], r) == Apply(u, Fold(us, r))
  {
    assert (us + [u])[..|us|] == us;
  }

  /** A field is what the updates that touch it leave, whatever the others do in between. */
  lemma {:induction false} FieldIsItsOwn(f: Field, us: seq<Update>, r: S.Record)
    ensures SameField(f, Fold(us, r), Fold(On(f, us), r))
    decreases |us|
  {
    if us != [] {
      var u, before := us[|us| - 1], us[..|us| - 1];
      FieldIsItsOwn(f, before, r);
      ApplyField(f, u, Fold(before, r), Fold(On(f, before), r));
      FoldLast(On(f, before), u, r);
      assert On(f, before) + [] == On(f, before);
    }
  }

  lemma {:induction false} FactsKept(us: seq<Update>, r: S.Record)
    ensures Fold(us, r).facts == r.facts
    decreases |us|
  {
    if us != [] {
      FactsKept(us[..|us| - 1], r);
    }
  }

  /** Agreement field by field on the order of the updates touching each is agreement on the record. */
  lemma FieldsDecide(us: seq<Update>, vs: seq<Update>, r: S.Record)
    requires forall f: Field :: On(f, us) == On(f, vs)
    ensures Fold(us, r) == Fold(vs, r)
  {
    FactsKept(us, r);
    FactsKept(vs, r);
    forall f: Field ensures SameField(f, Fold(us, r), Fold(vs, r)) {
      FieldIsItsOwn(f, us, r);
      FieldIsItsOwn(f, vs, r);
      assert On(f, us) == On(f, vs);
    }
    assert SameField(TheForeground, Fold(us, r), Fold(vs, r)) && SameField(TheSize, Fold(us, r), Fold(vs, r));
    assert SameField(TheModes, Fold(us, r), Fold(vs, r)) && SameField(TheMark, Fold(us, r), Fold(vs, r));
    assert SameField(TheSegment, Fold(us, r), Fold(vs, r)) && SameField(TheBeginning, Fold(us, r), Fold(vs, r));
  }

  /** What a record reads back of an update. */
  predicate ReadsBack(u: Update, r: S.Record) {
    match u
    case Foreground(command, cwd) => r.foreground == command && r.foregroundCwd == cwd
    case Size(cols, rows) => r.cols == cols && r.rows == rows
    case Modes(report) => r.modes == report
    case ClearMark => r.endedAt == None && r.exitCode == None && r.endedThrough == 0
    case Mark(at, exitCode, through, segment) =>
      && r.endedAt == Some(at) && r.exitCode == exitCode && r.endedThrough == through
      && (segment.Some? ==> r.segment == segment.value)
    case Rotate(next, begins) => r.segment == next && r.written == begins
  }

  /** A record reads back the last update of a field, each part of it where it belongs, whatever came before and
      whatever other fields were updated since. */
  lemma {:induction false} LastUpdateReadsBack(us: seq<Update>, u: Update, vs: seq<Update>, r: S.Record)
    requires forall v | v in vs :: Touches(v) !! Touches(u)
    ensures ReadsBack(u, Fold(us + [u] + vs, r))
    decreases |vs|
  {
    if vs == [] {
      assert us + [u] + vs == us + [u];
      FoldLast(us, u, r);
    } else {
      var n := |vs| - 1;
      var v := vs[n];
      assert us + [u] + vs == us + [u] + vs[..n] + [v];
      LastUpdateReadsBack(us, u, vs[..n], r);
      FoldLast(us + [u] + vs[..n], v, r);
      KeepsReading(u, v, Fold(us + [u] + vs[..n], r));
    }
  }

  lemma KeepsReading(u: Update, v: Update, r: S.Record)
    requires ReadsBack(u, r) && Touches(v) !! Touches(u)
    ensures ReadsBack(u, Apply(v, r))
  {
    ApplyField(TheForeground, v, r, r);
    ApplyField(TheSize, v, r, r);
    ApplyField(TheModes, v, r, r);
    ApplyField(TheMark, v, r, r);
    ApplyField(TheSegment, v, r, r);
    ApplyField(TheBeginning, v, r, r);
  }

  // ---------------------------------------------------------------- any interleaving

  /** The writers of a record: what each publishes is one stream. Marks and their clearing are one. */
  datatype Writer = ForegroundWriter | SizeWriter | ModesWriter | MarkWriter | Rotation

  function WriterOf(u: Update): Writer {
    match u
    case Foreground(_, _) => ForegroundWriter
    case Size(_, _) => SizeWriter
    case Modes(_) => ModesWriter
    case ClearMark => MarkWriter
    case Mark(_, _, _, _) => MarkWriter
    case Rotate(_, _) => Rotation
  }

  function WriterTo(f: Field): Writer {
    match f
    case TheForeground => ForegroundWriter
    case TheSize => SizeWriter
    case TheModes => ModesWriter
    case TheMark => MarkWriter
    case TheSegment => Rotation
    case TheBeginning => Rotation
  }

  /** A mark made with no file open leaves the segment alone, and then no two writers share a field. */
  predicate Apart(u: Update) { u.Mark? ==> u.segment.None? }

  function StreamOf(w: Writer, us: seq<Update>): seq<Update>
    decreases |us|
  {
    if us == [] then []
    else
      var u := us[|us| - 1];
      StreamOf(w, us[..|us| - 1]) + if WriterOf(u) == w then [u] else []
  }

  lemma {:induction false} OnIsStream(f: Field, us: seq<Update>)
    requires forall u | u in us :: Apart(u)
    ensures On(f, us) == StreamOf(WriterTo(f), us)
    decreases |us|
  {
    if us != [] {
      var u := us[|us| - 1];
      assert Apart(u);
      OnIsStream(f, us[..|us| - 1]);
      assert f in Touches(u) <==> WriterOf(u) == WriterTo(f);
    }
  }

  predicate AllChanges(log: seq<Job>) { forall job | job in log :: job.Change? && Apart(job.update) }

  function Updates(log: seq<Job>): seq<Update>
    requires AllChanges(log)
    decreases |log|
  {
    if log == [] then [] else Updates(log[..|log| - 1]) + [log[|log| - 1].update]
  }

  lemma {:induction false} ReplayIsFold(log: seq<Job>, r: S.Record)
    requires AllChanges(log)
    ensures Replay(log, Some(r)) == Some(Fold(Updates(log), r))
    ensures forall u | u in Updates(log) :: Apart(u)
    decreases |log|
  {
    if log != [] {
      ReplayIsFold(log[..|log| - 1], r);
      FoldLast(Updates(log[..|log| - 1]), log[|log| - 1].update, r);
    }
  }

  /** Any two runs in which each writer publishes the same stream of updates, however the streams interleave and
      whatever else was entered, read or failed, end with one and the same record. */
  lemma InterleavingsAgree(r: S.Record, some: seq<Move>, others: seq<Move>)
    requires AllChanges(Run(Begin(Some(r)), some).log) && AllChanges(Run(Begin(Some(r)), others).log)
    requires forall w: Writer ::
               StreamOf(w, Updates(Run(Begin(Some(r)), some).log)) ==
               StreamOf(w, Updates(Run(Begin(Some(r)), others).log))
    ensures Run(Begin(Some(r)), some).record == Run(Begin(Some(r)), others).record
  {
    var a, b := Run(Begin(Some(r)), some).log, Run(Begin(Some(r)), others).log;
    NoUpdateLost(Begin(Some(r)), some, Some(r));
    NoUpdateLost(Begin(Some(r)), others, Some(r));
    ReplayIsFold(a, r);
    ReplayIsFold(b, r);
    forall f: Field ensures On(f, Updates(a)) == On(f, Updates(b)) {
      OnIsStream(f, Updates(a));
      OnIsStream(f, Updates(b));
    }
    FieldsDecide(Updates(a), Updates(b), r);
  }

  // ---------------------------------------------------------------- the stop write beside rotations

  /** Inside the writer's lock: nobody, or a rotation that has closed its file, or one that has also moved
      the record on. A stop write holds what it saw in between its two locks. */
  datatype Writing = Idle | Rolling | Rolled

  datatype Stop = NotYet | Sampled(segment: Option<int>) | Written

  /** `rolls` counts the rotations published since the stop looked at the writer. */
  datatype Pair = Pair(record: S.Record, open: bool, segment: int, writing: Writing, stop: Stop, rolls: nat)

  datatype Act =
    | Reopen
    | StartRoll
    | MoveRecord(begins: nat)
    | OpenNext
    | FailRoll
    | Sample
    | WriteMark(at: int, exitCode: Option<int>, through: nat)

  function Do(p: Pair, act: Act): Pair {
    match act
    case Reopen => if p.writing.Idle? && !p.open then p.(open := true, segment := p.record.segment) else p
    case StartRoll => if p.writing.Idle? && p.open then p.(open := false, writing := Rolling) else p
    case MoveRecord(begins) =>
      if p.writing.Rolling?
      then p.(record := Apply(Rotate(1 - p.segment, begins), p.record), writing := Rolled, rolls := p.rolls + 1)
      else p
    case OpenNext =>
      if p.writing.Rolled? then p.(open := true, segment := 1 - p.segment, writing := Idle) else p
    case FailRoll => if p.writing.Idle? then p else p.(writing := Idle)
    case Sample =>
      if p.stop.NotYet? && p.writing.Idle?
      then p.(stop := Sampled(if p.open then Some(p.segment) else None), rolls := 0)
      else p
    case WriteMark(at, exitCode, through) =>
      if p.stop.Sampled?
      then p.(record := Apply(Mark(at, exitCode, through, p.stop.segment), p.record), stop := Written)
      else p
  }

  /** Where the record says output is going is where the writer is putting it. */
  predicate Agrees(p: Pair) {
    && (p.open || p.writing.Rolling? ==> p.segment == p.record.segment)
    && (p.open ==> p.writing.Idle?)
    && (p.writing.Rolled? ==> 1 - p.segment == p.record.segment)
  }

  /** Until the mark is written record and writer agree, and what the stop saw is where the record points if
      and only if an even number of rotations went by since. */
  ghost predicate Unmarked(p: Pair) {
    && !p.stop.Written?
    && Agrees(p)
    && (p.record.segment == 0 || p.record.segment == 1)
    && (p.stop.Sampled? && p.stop.segment.Some? ==>
          p.stop.segment.value == if p.rolls % 2 == 0 then p.record.segment else 1 - p.record.segment)
  }

  lemma DoKeeps(p: Pair, act: Act)
    requires Unmarked(p) && !act.WriteMark?
    ensures Unmarked(Do(p, act))
  {
  }

  function DoAll(p: Pair, acts: seq<Act>): Pair
    decreases |acts|
  {
    if acts == [] then p else DoAll(Do(p, acts[0]), acts[1..])
  }

  lemma {:induction false} DoAllKeeps(p: Pair, acts: seq<Act>)
    requires Unmarked(p) && forall i | 0 <= i < |acts| :: !acts[i].WriteMark?
    ensures Unmarked(DoAll(p, acts))
    decreases |acts|
  {
    if acts != [] {
      DoKeeps(p, acts[0]);
      DoAllKeeps(Do(p, acts[0]), acts[1..]);
    }
  }

  /** The mark leaves record and writer in agreement if and only if the writer had no file when the stop looked
      or an even number of rotations were published between its two locks; above all when there were none. */
  lemma MarkAgrees(p: Pair, acts: seq<Act>, at: int, exitCode: Option<int>, through: nat)
    requires Unmarked(p) && forall i | 0 <= i < |acts| :: !acts[i].WriteMark?
    requires DoAll(p, acts).stop.Sampled?
    ensures var before, after := DoAll(p, acts), Do(DoAll(p, acts), WriteMark(at, exitCode, through));
            && (after.record.segment == before.record.segment <==>
                before.stop.segment.None? || before.rolls % 2 == 0)
            && (before.stop.segment.None? || before.rolls % 2 == 0 ==> Agrees(after))
            && (before.open && before.stop.segment.Some? && before.rolls % 2 == 1 ==> !Agrees(after))
            && after.record.written == before.record.written
  {
    DoAllKeeps(p, acts);
  }

  /** The interleaving that goes wrong: the stop looks, one rotation runs, the stop writes. The record then
      names the older segment beside the coordinate where the newer one begins. */
  lemma StaleMark(record: S.Record, at: nat, through: nat)
    requires record.segment == 0
    ensures var p := Pair(record, true, 0, Idle, NotYet, 0);
            var q := DoAll(p, [Sample, StartRoll, MoveRecord(at), OpenNext, WriteMark(0, None, through)]);
            && Unmarked(p) && q.segment == 1 && q.record.segment == 0 && q.record.written == at && !Agrees(q)
  {
    var p := Pair(record, true, 0, Idle, NotYet, 0);
    var acts := [Sample, StartRoll, MoveRecord(at), OpenNext, WriteMark(0, None, through)];
    var p1 := Do(p, Sample);
    var p2 := Do(p1, StartRoll);
    var p3 := Do(p2, MoveRecord(at));
    var p4 := Do(p3, OpenNext);
    var p5 := Do(p4, WriteMark(0, None, through));
    assert acts[1..] == [StartRoll, MoveRecord(at), OpenNext, WriteMark(0, None, through)];
    assert acts[2..] == [MoveRecord(at), OpenNext, WriteMark(0, None, through)];
    assert acts[3..] == [OpenNext, WriteMark(0, None, through)];
    assert acts[4..] == [WriteMark(0, None, through)];
    assert DoAll(p4, acts[4..]) == p5;
    assert acts[3..][1..] == acts[4..] && DoAll(p3, acts[3..]) == p5;
    assert acts[2..][1..] == acts[3..] && DoAll(p2, acts[2..]) == p5;
    assert acts[1..][1..] == acts[2..] && DoAll(p1, acts[1..]) == p5;
  }

  function Stale<T>(d: S.Disk<T>): S.Disk<T>
    requires d.record.Some?
  {
    d.(record := Some(d.record.value.(segment := 1 - d.record.value.segment)))
  }

  /** What a stale segment costs: the end is off by what the segments differ in length, so the output still
      holds the history only if the two segments happen to be equal; and the older half holds more than came
      before the current one when the segment that really is current does. */
  lemma StaleMeaning<T>(d: S.Disk<T>, history: seq<T>)
    requires S.Holds(d, history)
    ensures Stale(d).End() - |d.Other()| == d.End() - |d.Current()|
    ensures S.Holds(Stale(d), history) <==> d.Current() == d.Other()
    ensures |Stale(d).Other()| > Stale(d).record.value.written <==> |d.Current()| > d.record.value.written
  {
    var stale := Stale(d);
    assert stale.Current() == d.Other() && stale.Other() == d.Current();
  }
}
