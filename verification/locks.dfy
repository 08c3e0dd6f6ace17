/** The store's locks: one over its two maps, one per writer, one per record. Any number of operations on any
    sessions run at once; whatever they have done so far, one of them can take its next step. */
module Locks {
  import opened Base

  datatype Lock = Map | WriterOf(writer: nat) | RecordOf(session: nat)

  /** A lock is only waited for by one who holds locks of lower rank. The two maps' lock is never held
      across anything, and neither is a record's. */
  function Rank(lock: Lock): nat {
    match lock
    case WriterOf(_) => 0
    case RecordOf(_) => 1
    case Map => 2
  }

  /** `Touch` changes what a lock guards: the maps, a writer and its file, a record. `Look` reads the disk without
      a lock, as the record's atomic replacement lets it. */
  datatype Action = Acquire(lock: Lock) | Release(lock: Lock) | Touch(guard: Lock) | Look

  /** Looking up the writer of a session, or its record's lock. */
  const LOOKUP := [Acquire(Map), Touch(Map), Release(Map)]

  function UnderRecord(session: nat): seq<Action> {
    LOOKUP + [Acquire(RecordOf(session)), Touch(RecordOf(session)), Release(RecordOf(session))]
  }

  function UnderWriter(writer: Option<nat>): seq<Action> {
    if writer.None? then []
    else [Acquire(WriterOf(writer.value)), Touch(WriterOf(writer.value)), Release(WriterOf(writer.value))]
  }

  /** What each operation does to the locks, on the way it takes: which writer its lookup finds, if any, and
      whether an append rolls. A step that fails goes on to release what it holds. */
  datatype Op =
    | Append(session: nat, appender: nat, rolls: bool)
    | MarkEnded(session: nat, held: Option<nat>)
    | Remove(session: nat, held: Option<nat>)
    | Edit(session: nat)
    | Output(session: nat, held: Option<nat>)

  /** What an append does once it has its writer. */
  function Appending(session: nat, writer: nat, rolls: bool): seq<Action> {
    (if rolls then UnderRecord(session) else []) + [Touch(WriterOf(writer)), Release(WriterOf(writer))]
  }

  function Program(op: Op): seq<Action> {
    match op
    case Append(session, writer, rolls) =>
      LOOKUP + ([Acquire(WriterOf(writer)), Look] + Appending(session, writer, rolls))
    case MarkEnded(session, held) => LOOKUP + UnderWriter(held) + UnderRecord(session)
    case Remove(session, held) => LOOKUP + UnderWriter(held) + UnderRecord(session)
    case Edit(session) => UnderRecord(session)
    case Output(_, held) => [Look] + LOOKUP + UnderWriter(held) + [Look]
  }

  /** What is left to do, and what is held while doing it. */
  datatype Thread = Thread(todo: seq<Action>, held: set<Lock>)

  /** Locks are taken in rising rank, only held ones are released, what a lock guards is changed only by its
      holder, and nothing is held at the end. */
  predicate Ranked(todo: seq<Action>, held: set<Lock>)
    decreases |todo|
  {
    if todo == [] then held == {}
    else match todo[0]
      case Acquire(lock) => (forall l | l in held :: Rank(l) < Rank(lock)) && Ranked(todo[1..], held + {lock})
      case Release(lock) => lock in held && Ranked(todo[1..], held - {lock})
      case Touch(guard) => guard in held && Ranked(todo[1..], held)
      case Look => Ranked(todo[1..], held)
  }

  // ---------------------------------------------------------------- every operation is ranked

  lemma RankedThen(a: seq<Action>, lock: Lock, rest: seq<Action>, held: set<Lock>)
    requires a == [Acquire(lock), Touch(lock), Release(lock)]
    requires (forall l | l in held :: Rank(l) < Rank(lock)) && Ranked(rest, held)
    ensures Ranked(a + rest, held)
  {
    var todo := a + rest;
    assert held + {lock} - {lock} == held;
    assert todo[1..][0] == Touch(lock) && todo[1..][1..][0] == Release(lock) && todo[1..][1..][1..] == rest;
    assert Ranked(todo[1..][1..], held + {lock});
    assert Ranked(todo[1..], held + {lock});
  }

  lemma RecordRanked(session: nat, rest: seq<Action>, held: set<Lock>)
    requires (forall l | l in held :: Rank(l) == 0) && Ranked(rest, held)
    ensures Ranked(UnderRecord(session) + rest, held)
  {
    var a := [Acquire(RecordOf(session)), Touch(RecordOf(session)), Release(RecordOf(session))];
    RankedThen(a, RecordOf(session), rest, held);
    RankedThen(LOOKUP, Map, a + rest, held);
    assert UnderRecord(session) + rest == LOOKUP + (a + rest);
  }

  lemma WriterRanked(writer: Option<nat>, rest: seq<Action>)
    requires Ranked(rest, {})
    ensures Ranked(LOOKUP + UnderWriter(writer) + rest, {})
  {
    if writer.Some? {
      RankedThen(UnderWriter(writer), WriterOf(writer.value), rest, {});
    } else {
      assert UnderWriter(writer) + rest == rest;
    }
    RankedThen(LOOKUP, Map, UnderWriter(writer) + rest, {});
    assert LOOKUP + UnderWriter(writer) + rest == LOOKUP + (UnderWriter(writer) + rest);
  }

  lemma AppendEnds(writer: nat)
    ensures Ranked([Touch(WriterOf(writer)), Release(WriterOf(writer))], {WriterOf(writer)})
  {
    var held, tail := {WriterOf(writer)}, [Touch(WriterOf(writer)), Release(WriterOf(writer))];
    assert tail[1..] == [Release(WriterOf(writer))] && tail[1..][1..] == [];
    assert held - {WriterOf(writer)} == {};
    assert Ranked(tail[1..], held);
  }

  lemma UnderTheWriter(writer: nat, middle: seq<Action>)
    requires Ranked(middle, {WriterOf(writer)})
    ensures Ranked([Acquire(WriterOf(writer)), Look] + middle, {})
  {
    var from := [Acquire(WriterOf(writer)), Look] + middle;
    assert from[1..][0] == Look && from[1..][1..] == middle;
    assert {} + {WriterOf(writer)} == {WriterOf(writer)};
    assert Ranked(from[1..], {WriterOf(writer)});
  }

  lemma AppendingRanked(session: nat, writer: nat, rolls: bool)
    ensures Ranked(Appending(session, writer, rolls), {WriterOf(writer)})
  {
    var tail := [Touch(WriterOf(writer)), Release(WriterOf(writer))];
    AppendEnds(writer);
    if rolls {
      RecordRanked(session, tail, {WriterOf(writer)});
    } else {
      assert [] + tail == tail;
    }
  }

  lemma AppendRanked(session: nat, writer: nat, rolls: bool)
    ensures Ranked(Program(Append(session, writer, rolls)), {})
  {
    AppendingRanked(session, writer, rolls);
    UnderTheWriter(writer, Appending(session, writer, rolls));
    RankedThen(LOOKUP, Map, [Acquire(WriterOf(writer)), Look] + Appending(session, writer, rolls), {});
  }

  lemma ProgramRanked(op: Op)
    ensures Ranked(Program(op), {})
  {
    match op
    case Append(session, writer, rolls) => AppendRanked(session, writer, rolls);
    case Output(_, held) =>
      assert [Look][1..] == [];
      WriterRanked(held, [Look]);
      assert Program(op)[1..] == LOOKUP + UnderWriter(held) + [Look];
    case Edit(session) =>
      RecordRanked(session, [], {});
      assert UnderRecord(session) + [] == UnderRecord(session);
    case _ =>
      RecordRanked(op.session, [], {});
      assert UnderRecord(op.session) + [] == UnderRecord(op.session);
      WriterRanked(op.held, UnderRecord(op.session));
  }

  // ---------------------------------------------------------------- the operations together

  type State = seq<Thread>

  datatype Move = Start(op: Op) | Step(i: nat)

  predicate Free(s: State, lock: Lock) { forall i | 0 <= i < |s| :: lock !in s[i].held }

  predicate Unfinished(s: State, i: nat) { i < |s| && s[i].todo != [] }

  /** Its next step is not waiting for a lock another holds. */
  predicate CanStep(s: State, i: nat) {
    Unfinished(s, i) && (s[i].todo[0].Acquire? ==> Free(s, s[i].todo[0].lock))
  }

  function Done(t: Thread): Thread
    requires t.todo != []
  {
    match t.todo[0]
    case Acquire(lock) => Thread(t.todo[1..], t.held + {lock})
    case Release(lock) => Thread(t.todo[1..], t.held - {lock})
    case Touch(_) => Thread(t.todo[1..], t.held)
    case Look => Thread(t.todo[1..], t.held)
  }

  function Next(s: State, move: Move): State {
    match move
    case Start(op) => s + [Thread(Program(op), {})]
    case Step(i) => if CanStep(s, i) then s[i := Done(s[i])] else s
  }

  ghost predicate Ok(s: State) {
    && (forall i | 0 <= i < |s| :: Ranked(s[i].todo, s[i].held))
    && (forall i, j | 0 <= i < j < |s| :: s[i].held !! s[j].held)
  }

  lemma NextOk(s: State, move: Move)
    requires Ok(s)
    ensures Ok(Next(s, move))
  {
    if move.Start? {
      ProgramRanked(move.op);
    }
  }

  function Run(s: State, moves: seq<Move>): State
    decreases |moves|
  {
    if moves == [] then s else Run(Next(s, moves[0]), moves[1..])
  }

  lemma {:induction false} RunOk(s: State, moves: seq<Move>)
    requires Ok(s)
    ensures Ok(Run(s, moves))
    decreases |moves|
  {
    if moves != [] {
      NextOk(s, moves[0]);
      RunOk(Next(s, moves[0]), moves[1..]);
    }
  }

  /** What each operation changes is among what it touches: a removal and a stop write the record and, if there
      is one, the writer; an update the record; an append the writer's file, and the record when it rolls. */
  lemma ProgramTouches(op: Op)
    ensures Touch(Map) in Program(op)
    ensures !op.Output? && !op.Append? ==> Touch(RecordOf(op.session)) in Program(op)
    ensures op.Append? ==> Touch(WriterOf(op.appender)) in Program(op)
    ensures op.Append? ==> (Touch(RecordOf(op.session)) in Program(op) <==> op.rolls)
    ensures (op.MarkEnded? || op.Remove?) && op.held.Some? ==> Touch(WriterOf(op.held.value)) in Program(op)
  {
    assert LOOKUP[1] == Touch(Map);
    if op.Append? {
      var tail := [Touch(WriterOf(op.appender)), Release(WriterOf(op.appender))];
      assert tail[0] == Touch(WriterOf(op.appender)) && tail[0] in tail;
      RecordTouched(op.session);
    } else if !op.Output? {
      RecordTouched(op.session);
      if (op.MarkEnded? || op.Remove?) && op.held.Some? {
        assert UnderWriter(op.held)[1] == Touch(WriterOf(op.held.value));
      }
    }
  }

  lemma RecordTouched(session: nat)
    ensures Touch(RecordOf(session)) in UnderRecord(session) && Touch(Map) in UnderRecord(session)
  {
    assert UnderRecord(session)[4] == Touch(RecordOf(session)) && UnderRecord(session)[1] == Touch(Map);
  }

  /** No two operations are ever about to change the same thing at once. */
  lemma NoRace(moves: seq<Move>, i: nat, j: nat)
    requires var s := Run([], moves); i != j && Unfinished(s, i) && Unfinished(s, j)
    requires var s := Run([], moves); s[i].todo[0].Touch? && s[j].todo[0].Touch?
    ensures var s := Run([], moves); s[i].todo[0].guard != s[j].todo[0].guard
  {
    RunOk([], moves);
    var s := Run([], moves);
    assert Ranked(s[i].todo, s[i].held) && Ranked(s[j].todo, s[j].held);
    if i < j {
      assert s[i].held !! s[j].held;
    } else {
      assert s[j].held !! s[i].held;
    }
  }

  predicate WaitsFor(s: State, i: nat, j: nat) {
    Unfinished(s, i) && j < |s| && s[i].todo[0].Acquire? && s[i].todo[0].lock in s[j].held
  }

  /** Who is waited for, waits for a lock of higher rank or not at all. */
  lemma WaitRises(s: State, i: nat, j: nat)
    requires Ok(s) && WaitsFor(s, i, j)
    ensures i != j && Unfinished(s, j)
    ensures s[j].todo[0].Acquire? ==> Rank(s[i].todo[0].lock) < Rank(s[j].todo[0].lock)
  {
    assert Ranked(s[i].todo, s[i].held) && Ranked(s[j].todo, s[j].held);
  }

  ghost predicate Chain(s: State, c: seq<nat>) { forall k: nat | k + 1 < |c| :: WaitsFor(s, c[k], c[k + 1]) }

  /** The wait-for relation has no cycle in any reachable state: no operation ever waits, through others, for
      itself, and no chain of waits is longer than the ranks. */
  lemma NoCycle(moves: seq<Move>, c: seq<nat>)
    requires Chain(Run([], moves), c) && |c| > 1
    ensures |c| <= 4 && c[0] != c[|c| - 1]
  {
    var s := Run([], moves);
    RunOk([], moves);
    ChainRises(s, c, |c| - 2);
    WaitRises(s, c[0], c[1]);
    var last := c[|c| - 1];
    WaitRises(s, c[|c| - 2], last);
  }

  lemma {:induction false} ChainRises(s: State, c: seq<nat>, k: nat)
    requires Ok(s) && Chain(s, c) && k + 1 < |c|
    ensures WaitsFor(s, c[0], c[1]) && WaitsFor(s, c[k], c[k + 1])
    ensures Rank(s[c[0]].todo[0].lock) + k <= Rank(s[c[k]].todo[0].lock) <= 2
  {
    assert WaitsFor(s, c[k], c[k + 1]) && WaitsFor(s, c[0], c[0 + 1]);
    if k > 0 {
      ChainRises(s, c, k - 1);
      WaitRises(s, c[k - 1], c[k]);
    }
  }

  /** From an unfinished operation, following who it waits for leads to one that can step. */
  lemma {:induction false} Leads(s: State, i: nat) returns (j: nat)
    requires Ok(s) && Unfinished(s, i)
    ensures CanStep(s, j)
    decreases if s[i].todo[0].Acquire? then 3 - Rank(s[i].todo[0].lock) else 0
  {
    j := i;
    if !CanStep(s, i) {
      var holder :| 0 <= holder < |s| && s[i].todo[0].lock in s[holder].held;
      WaitRises(s, i, holder);
      if s[holder].todo[0].Acquire? {
        j := Leads(s, holder);
      } else {
        j := holder;
      }
    }
  }

  /** Never stuck: whatever has been started and stepped so far, if any operation is unfinished, one can step. */
  lemma NeverStuck(moves: seq<Move>, i: nat) returns (j: nat)
    requires Unfinished(Run([], moves), i)
    ensures CanStep(Run([], moves), j)
  {
    RunOk([], moves);
    j := Leads(Run([], moves), i);
  }

  function Left(s: State): nat {
    if s == [] then 0 else Left(s[..|s| - 1]) + |s[|s| - 1].todo|
  }

  lemma {:induction false} StepShortens(s: State, i: nat)
    requires Unfinished(s, i)
    ensures Left(s[i := Done(s[i])]) + 1 == Left(s)
  {
    var n, stepped := |s| - 1, s[i := Done(s[i])];
    if i == n {
      assert stepped[..n] == s[..n];
    } else {
      StepShortens(s[..n], i);
      assert s[..n][i := Done(s[i])] == stepped[..n];
    }
  }

  predicate Finished(s: State) { forall i | 0 <= i < |s| :: s[i].todo == [] }

  lemma {:induction false} NothingLeft(s: State)
    ensures Left(s) == 0 <==> Finished(s)
  {
    if s != [] {
      var n := |s| - 1;
      NothingLeft(s[..n]);
      assert Finished(s) <==> Finished(s[..n]) && s[n].todo == [];
    }
  }

  /** However the next operation to step is chosen among those that can: everything started is finished after
      exactly as many steps as were left, and never before. */
  lemma {:induction false} AllFinish(s: State, pick: seq<nat>)
    requires Ok(s) && Picks(s, pick)
    ensures |pick| <= Left(s)
    ensures |pick| == Left(s) <==> Finished(Picked(s, pick))
    decreases |pick|
  {
    if pick == [] {
      NothingLeft(s);
    } else {
      NextOk(s, Step(pick[0]));
      StepShortens(s, pick[0]);
      AllFinish(Next(s, Step(pick[0])), pick[1..]);
    }
  }

  predicate Picks(s: State, pick: seq<nat>)
    decreases |pick|
  {
    pick == [] || (CanStep(s, pick[0]) && Picks(Next(s, Step(pick[0])), pick[1..]))
  }

  function Picked(s: State, pick: seq<nat>): State
    decreases |pick|
  {
    if pick == [] then s else Picked(Next(s, Step(pick[0])), pick[1..])
  }
}
