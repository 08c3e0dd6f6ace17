/** Runs from the open of a session on in which a loss is hidden and the session is answered full. */
module HiddenLosses {
  import opened Base
  import S = Store
  import F = Feed
  import V = Restore

  const NOTHING := S.Faults(false, S.Opens, false, false, false, S.Opens, 0)

  function Zeros(n: nat): seq<byte> { seq(n, _ => 0) }

  /** The first read of a new session, stored. */
  function First(facts: S.Record): F.Pipe { V.Pass(F.Begin(facts), Zeros(1), F.ALL) }

  lemma FirstStored(facts: S.Record)
    ensures var p := First(facts);
            && F.Ok(p) && V.Idle(p) && |p.history| == 1 && p.store.written == 1 && p.store.disk.End() == 1
            && V.Oldest(p.store.disk) == Some(0) && p.store.disk.record.value.written == 0
  {
    var begun := F.Begin(facts);
    var printed := F.Next(begun, F.Print(Zeros(1)));
    var taken := F.Next(printed, F.Take);
    F.BeginOk(facts);
    F.NextOk(begun, F.Print(Zeros(1)));
    F.NextOk(printed, F.Take);
    F.NextOk(taken, F.Sink(F.ALL));
    V.PrintThenTake(begun, Zeros(1));
    var c := taken.inflight.value;
    assert |c.data| == 1 && c.data[0].at == 0;
    FirstAppend(begun.store, c);
  }

  lemma FirstAppend(store: S.State<F.Cell>, c: F.Chunk<F.Cell>)
    requires store.disk.record.Some? && store.disk.record.value.segment == 0 && store.disk.record.value.written == 0
    requires store.disk.segments == map[] && !store.open && |c.data| == 1 && c.through == 1
    ensures var after := store.Append(c.data, 1, F.ALL).state;
            && after.open && after.written == 1 && after.disk.record == store.disk.record
            && after.disk.Current() == c.data
  {
    var ready := store.Ready(F.ALL).state;
    assert ready.disk.Segment(0) == [] && ready.written == 0;
    assert store.Append(c.data, 1, F.ALL) == ready.Write(c.data, F.DEPTH);
    assert [] + c.data[..1] == c.data;
  }

  /** The second read lost, the session marked, the third stored: full, with a byte lost and the third where the
      second was. */
  lemma MaskedRun(facts: S.Record)
    ensures var end := V.MarkedBetween(First(facts), 0, 0, 0, NOTHING, F.ALL);
            && F.Ok(end) && F.Lost(end) != {}
            && V.ReachesMark(end.store.disk) && !F.Whole(end.store.disk)
  {
    FirstStored(facts);
    F.MissingCount(First(facts));
    V.LaterOutputHidesLoss(First(facts), 0, 0, 0, NOTHING, F.ALL);
  }

  // ---------------------------------------------------------------- a full segment with a hole

  /** `n` full reads, stored. */
  function Filled(p: F.Pipe, n: nat): F.Pipe {
    if n == 0 then p else V.Pass(Filled(p, n - 1), Zeros(READ), F.ALL)
  }

  lemma {:induction false} FilledEffect(p: F.Pipe, n: nat)
    requires F.Ok(p) && V.Idle(p) && p.store.written + n * READ <= S.BOUND && V.Oldest(p.store.disk) == Some(0)
    ensures var q := Filled(p, n);
            && F.Ok(q) && V.Idle(q) && |q.history| == |p.history| + n * READ
            && q.store.written == p.store.written + n * READ && q.store.disk.End() == p.store.disk.End() + n * READ
            && q.store.disk.record == p.store.disk.record && V.Oldest(q.store.disk) == Some(0)
  {
    if n > 0 {
      FilledEffect(p, n - 1);
      V.PassEffect(Filled(p, n - 1), Zeros(READ), F.ALL);
    }
  }

  /** One read stored, one lost, and reads stored until the segment is full. */
  function Holed(facts: S.Record): F.Pipe {
    V.Pass(Filled(V.Pass(First(facts), Zeros(1), NOTHING), 127), Zeros(READ - 1), F.ALL)
  }

  lemma HoledFull(facts: S.Record)
    ensures var p := Holed(facts);
            && F.Ok(p) && V.Idle(p) && |p.history| == S.BOUND + 1 && p.store.written == S.BOUND
            && p.store.disk.End() == S.BOUND && p.store.disk.record.value.written == 0
            && V.Oldest(p.store.disk) == Some(0)
  {
    FirstStored(facts);
    V.PassEffect(First(facts), Zeros(1), NOTHING);
    var lost := V.Pass(First(facts), Zeros(1), NOTHING);
    FilledEffect(lost, 127);
    V.PassEffect(Filled(lost, 127), Zeros(READ - 1), F.ALL);
  }

  /** Then the session is marked, and one more read is taken. */
  function AboutToRoll(facts: S.Record): F.Pipe {
    F.Next(F.Next(F.Next(Holed(facts), F.Stop(0, S.BOUND + 1)), F.Print(Zeros(1))), F.Take)
  }

  lemma AboutToRollOk(facts: S.Record)
    ensures var p := AboutToRoll(facts);
            && F.Ok(p) && p.inflight.Some? && p.inflight.value.through == |p.history| == S.BOUND + 2
            && |p.inflight.value.data| == 1 && p.inflight.value.data[0].at == S.BOUND + 1
            && p.Line() == [p.inflight.value] && V.Rotates(p, F.ALL)
            && p.store.disk.End() == S.BOUND && V.Oldest(p.store.disk) == Some(0)
            && p.store.disk.record.value.written == 0 && p.store.disk.record.value.endedAt.Some?
  {
    HoledFull(facts);
    var holed := Holed(facts);
    var marked := F.Next(holed, F.Stop(0, S.BOUND + 1));
    V.StopEffect(holed, 0, S.BOUND + 1);
    assert marked.store.disk.Current() == holed.store.disk.Current();
    F.NextOk(marked, F.Print(Zeros(1)));
    F.NextOk(F.Next(marked, F.Print(Zeros(1))), F.Take);
    V.PrintThenTake(marked, Zeros(1));
  }

  /** The one byte that is neither stored nor on the way lies between the first one stored and the chunk. */
  lemma HoleWithin(p: F.Pipe) returns (k: nat)
    requires F.Ok(p) && p.inflight.Some? && p.Line() == [p.inflight.value]
    requires p.inflight.value.through == |p.history| && |p.inflight.value.data| == 1
    requires p.inflight.value.data[0].at + 1 == |p.history| == p.store.disk.End() + 2
    requires p.store.disk.record.value.written == 0 && V.Oldest(p.store.disk) == Some(0)
    ensures p.store.disk.Current() != [] && k in F.Lost(p) && V.Within(p, k)
  {
    OneLost(p);
    k :| k in F.Lost(p);
    LostIsWithin(p, k);
  }

  lemma OneLost(p: F.Pipe)
    requires F.Ok(p) && p.inflight.Some? && p.Line() == [p.inflight.value] && |p.inflight.value.data| == 1
    requires |p.history| == p.store.disk.End() + 2
    ensures F.Lost(p) != {}
  {
    var c := p.inflight.value;
    F.EndFallsShortByMissing(p);
    F.WeightAppend([], c);
    assert [] + [c] == [c];
  }

  lemma LostIsWithin(p: F.Pipe, k: nat)
    requires F.Ok(p) && p.inflight.Some? && p.Line() == [p.inflight.value]
    requires p.inflight.value.through == |p.history| && |p.inflight.value.data| == 1
    requires p.inflight.value.data[0].at + 1 == |p.history|
    requires V.Oldest(p.store.disk) == Some(0) && k in F.Lost(p)
    ensures p.store.disk.Current() != [] && V.Within(p, k)
  {
    var cells, c := p.store.disk.Current(), p.inflight.value;
    assert cells[0].at in F.Coordinates(cells);
    assert c in p.Line() && c.data[0].at in F.OnTheWay(p.Line());
  }

  /** And it rolls: full, nothing counted missing, and the whole older half one coordinate off. */
  lemma RotatedRun(facts: S.Record)
    ensures var end := F.Next(AboutToRoll(facts), F.Sink(F.ALL));
            && F.Ok(end) && F.Missing(end) == {} && V.ReachesMark(end.store.disk) && !F.Whole(end.store.disk)
  {
    AboutToRollOk(facts);
    var k := HoleWithin(AboutToRoll(facts));
    V.RotationHidesLoss(AboutToRoll(facts), F.ALL, k);
  }
}
