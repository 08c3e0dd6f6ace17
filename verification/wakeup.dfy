/** The pump, the acknowledgements that release it, and the renderers that come and go, interleaved at
    the grain their locks allow. The pump parks on a channel of one slot; a release is decided under one
    lock and sent outside it. */
module Wakeup {
  import opened Base
  import R = Ring

  type u64 = x: nat | x < TWO_64

  /** Where the pump is in its loop. `Testing` has seen a renderer attached and not yet asked the ring;
      `Marking` was told to hold and has not yet recorded it. */
  datatype Pump = Reading | Looking | Testing | Marking | Parked | Clearing

  datatype State = State(
    pump: Pump,
    written: u64,
    acked: u64,
    attached: bool,
    paused: bool,
    slot: bool,
    acks: multiset<u64>, // acknowledgements applied and not yet tested, by the total each one read
    signals: nat,        // releases decided and not yet sent
    atAttach: nat)       // what was outstanding when the renderer attached

  datatype Move =
    | Write(count: nat)
    | Look
    | Test
    | Mark
    | Wake
    | Clear
    | Ack(through: nat)
    | Tested(total: u64)
    | Signal
    | Attach
    | Detach(current: bool)
    | DetachActive
    | Reap

  /** Every step any goroutine can take; one that is not enabled changes nothing. */
  function Next(s: State, move: Move, limits: Limits): State {
    match move
    case Write(count) =>
      if s.pump.Reading? && 0 < count <= READ && s.written + count < TWO_64
      then s.(written := s.written + count, pump := Looking) else s
    case Look =>
      if s.pump.Looking? then s.(pump := if s.attached then Testing else Clearing) else s
    case Test =>
      if s.pump.Testing?
      then s.(pump := if R.Holding(s.written, s.acked, limits) then Marking else Clearing) else s
    case Mark =>
      if s.pump.Marking? then s.(paused := true, pump := Parked) else s
    case Wake =>
      if s.pump.Parked? && s.slot then s.(slot := false, pump := Looking) else s
    case Clear =>
      if s.pump.Clearing? then s.(paused := false, pump := Reading) else s
    case Ack(through) =>
      var clamped := if through > s.written then s.written else through;
      s.(acked := if clamped > s.acked then clamped else s.acked, acks := s.acks + multiset{s.written})
    case Tested(total) =>
      if total !in s.acks then s
      else s.(acks := s.acks - multiset{total},
              signals := if R.Releasing(total, s.acked, limits) then s.signals + 1 else s.signals)
    case Signal =>
      if s.signals > 0 then s.(signals := s.signals - 1, slot := true) else s
    case Attach =>
      s.(attached := true, atAttach := if s.attached then s.atAttach else Sub64(s.written, s.acked))
    case Detach(current) =>
      s.(attached := s.attached && !current, signals := s.signals + 1)
    case DetachActive =>
      if s.attached then s.(attached := false, signals := s.signals + 1) else s
    case Reap => s.(signals := s.signals + 1)
  }

  /** A pump as it starts: a new session has printed nothing, a restored one stands at the coordinate it was
      restored at, and nothing has been acknowledged to either. */
  function Start(written: u64): State { State(Reading, written, 0, false, false, false, multiset{}, 0, 0) }

  function Run(s: State, moves: seq<Move>, limits: Limits): State
    decreases |moves|
  {
    if moves == [] then s else Run(Next(s, moves[0], limits), moves[1..], limits)
  }

  /** Some release that will fill the slot is on its way: one decided and not sent, or an acknowledgement
      applied and not tested whose test cannot fail while the pump stays where it is. */
  predicate Released(s: State) {
    s.slot || s.signals > 0 || s.written in s.acks
  }

  /** Past the look at the renderer, a renderer that has gone since has sent a release. */
  predicate HeldByRenderer(s: State) {
    s.pump in {Testing, Marking, Parked} ==> s.attached || s.slot || s.signals > 0
  }

  /** Past the test, an outstanding total that has come down to the low mark since has a release on the way. */
  predicate HeldByWatermark(s: State, limits: Limits) {
    s.pump in {Marking, Parked} ==> s.written > s.acked + limits.lowWatermark || Released(s)
  }

  predicate Bounded(s: State, limits: Limits) {
    s.attached ==>
      var allowed := Max(s.atAttach, limits.highWatermark - 1);
      s.written <= s.acked + allowed + if s.pump in {Reading, Clearing} then 0 else READ
  }

  predicate Ok(s: State, limits: Limits) {
    && s.acked <= s.written
    && (forall total | total in s.acks :: total <= s.written)
    && HeldByRenderer(s)
    && HeldByWatermark(s, limits)
    && Bounded(s, limits)
    && (s.pump.Parked? ==> s.paused)
    && (s.pump.Reading? ==> !s.paused)
  }

  lemma PumpOk(s: State, move: Move, limits: Limits)
    requires Ok(s, limits)
    requires move.Write? || move.Look? || move.Test? || move.Mark? || move.Wake? || move.Clear?
    ensures Ok(Next(s, move, limits), limits)
  {
  }

  lemma AckOk(s: State, through: nat, limits: Limits)
    requires Ok(s, limits)
    ensures Ok(Next(s, Ack(through), limits), limits)
  {
  }

  lemma TestedOk(s: State, total: u64, limits: Limits)
    requires Ok(s, limits)
    ensures Ok(Next(s, Tested(total), limits), limits)
  {
    if total in s.acks && total != s.written && s.written in s.acks {
      assert s.written in s.acks - multiset{total};
    }
  }

  lemma RendererOk(s: State, move: Move, limits: Limits)
    requires Ok(s, limits)
    requires move.Signal? || move.Attach? || move.Detach? || move.DetachActive? || move.Reap?
    ensures Ok(Next(s, move, limits), limits)
  {
  }

  lemma NextOk(s: State, move: Move, limits: Limits)
    requires Ok(s, limits)
    ensures Ok(Next(s, move, limits), limits)
  {
    match move
    case Ack(through) => AckOk(s, through, limits);
    case Tested(total) => TestedOk(s, total, limits);
    case Write(_) => PumpOk(s, move, limits);
    case Look => PumpOk(s, move, limits);
    case Test => PumpOk(s, move, limits);
    case Mark => PumpOk(s, move, limits);
    case Wake => PumpOk(s, move, limits);
    case Clear => PumpOk(s, move, limits);
    case _ => RendererOk(s, move, limits);
  }

  lemma {:induction false} RunOk(s: State, moves: seq<Move>, limits: Limits)
    requires Ok(s, limits)
    ensures Ok(Run(s, moves, limits), limits)
    decreases |moves|
  {
    if moves != [] {
      NextOk(s, moves[0], limits);
      RunOk(Next(s, moves[0], limits), moves[1..], limits);
    }
  }

  /** In every interleaving, of a new session or a restored one: a pump parked on an empty slot is there because
      a renderer is attached and is more than the low mark behind, or because a release that will fill the slot
      is still in flight. One parked with no renderer always has a release to come. */
  lemma NoLostWakeup(written: u64, moves: seq<Move>, limits: Limits)
    ensures var s := Run(Start(written), moves, limits);
            s.pump.Parked? && !s.slot ==>
              || (s.attached && s.written - s.acked > limits.lowWatermark)
              || s.signals > 0
              || (exists total | total in s.acks :: WillRelease(s, total, limits))
    ensures var s := Run(Start(written), moves, limits);
            s.pump.Parked? && !s.attached ==> s.slot || s.signals > 0
  {
    var s := Run(Start(written), moves, limits);
    RunOk(Start(written), moves, limits);
    if s.pump.Parked? && !s.slot && s.signals == 0 && s.written - s.acked <= limits.lowWatermark {
      assert WillRelease(s, s.written, limits);
    }
  }

  /** The acknowledgement passes its test now and after any further acknowledgements. */
  predicate WillRelease(s: State, total: u64, limits: Limits) {
    total == s.written && s.acked <= total && total - s.acked <= limits.lowWatermark
  }

  lemma WillReleaseDoes(s: State, total: u64, move: Move, limits: Limits)
    requires Ok(s, limits) && s.pump.Parked? && total in s.acks && WillRelease(s, total, limits)
    ensures Next(s, Tested(total), limits).signals == s.signals + 1
    ensures move == Tested(total) || Next(s, move, limits).pump != Parked ||
            (total in Next(s, move, limits).acks && WillRelease(Next(s, move, limits), total, limits))
  {
    match move
    case Tested(other) =>
      if other != total && other in s.acks {
        assert total in s.acks - multiset{other};
      }
    case Ack(through) => WillReleaseStays(s, total, through, limits);
    case _ => OthersLeaveAcks(s, move, limits);
  }

  lemma OthersLeaveAcks(s: State, move: Move, limits: Limits)
    requires s.pump.Parked? && !move.Ack? && !move.Tested?
    ensures var next := Next(s, move, limits);
            next.acks == s.acks && next.written == s.written && next.acked == s.acked
  {
  }

  lemma WillReleaseStays(s: State, total: u64, through: nat, limits: Limits)
    requires Ok(s, limits) && total in s.acks && WillRelease(s, total, limits)
    ensures total in Next(s, Ack(through), limits).acks && WillRelease(Next(s, Ack(through), limits), total, limits)
  {
  }

  /** Nothing acknowledges more than was written, so the pause test never wraps; and a renderer is never
      owed more than the larger of what it attached behind by and one below the high mark, and one read. */
  lemma Backpressure(written: u64, moves: seq<Move>, limits: Limits)
    ensures var s := Run(Start(written), moves, limits);
            && s.acked <= s.written && Sub64(s.written, s.acked) == s.written - s.acked
            && (s.attached ==> s.written - s.acked <= Max(s.atAttach, limits.highWatermark - 1) + READ)
  {
    RunOk(Start(written), moves, limits);
  }

  lemma RunFirst(s: State, move: Move, rest: seq<Move>, limits: Limits)
    ensures Run(s, [move] + rest, limits) == Run(Next(s, move, limits), rest, limits)
  {
    assert ([move] + rest)[1..] == rest;
  }

  /** The release test subtracts what was written when an acknowledgement was applied from what is
      acknowledged when it is tested. It gives the difference if and only if nothing acknowledged past that
      total in between; if something did, the test refuses unless the difference wraps all the way into the
      low mark; and a pump within the low mark and with no release sent is left the release it needs. */
  lemma ReleaseTest(s: State, total: u64, limits: Limits)
    requires Ok(s, limits) && total in s.acks
    ensures Sub64(total, s.acked) == total - s.acked <==> s.acked <= total
    ensures total < s.acked ==>
              (Next(s, Tested(total), limits).signals == s.signals <==>
               limits.lowWatermark + (s.acked - total) < TWO_64)
    ensures var next := Next(s, Tested(total), limits);
            && total < s.acked && next.signals == s.signals == 0
            && s.pump.Parked? && !s.slot && s.written - s.acked <= limits.lowWatermark
            ==> s.written in next.acks && WillRelease(next, s.written, limits)
  {
    if total < s.acked && s.written in s.acks {
      assert total != s.written;
      assert s.written in s.acks - multiset{total};
    }
  }

  /** One write acknowledged for nothing, another, and then an acknowledgement of both. */
  const OVERTAKEN := State(Looking, 2, 2, false, false, false, multiset{1, 2}, 0, 0)

  lemma Overtakes(limits: Limits)
    ensures Run(Start(0), [Write(1), Ack(0), Look, Clear, Write(1), Ack(2)], limits) == OVERTAKEN
  {
    var s2 := Start(0).(pump := Looking, written := 1, acks := multiset{1});
    var s4 := s2.(pump := Reading);
    assert Next(Next(Start(0), Write(1), limits), Ack(0), limits) == s2;
    assert Next(Next(s2, Look, limits), Clear, limits) == s4;
    assert Next(Next(s4, Write(1), limits), Ack(2), limits) == OVERTAKEN;
    RunTwo(s4, Write(1), Ack(2), [], limits);
    RunTwo(s2, Look, Clear, [Write(1), Ack(2)], limits);
    RunTwo(Start(0), Write(1), Ack(0), [Look, Clear, Write(1), Ack(2)], limits);
  }

  lemma RunTwo(s: State, first: Move, second: Move, rest: seq<Move>, limits: Limits)
    ensures Run(s, [first, second] + rest, limits) == Run(Next(Next(s, first, limits), second, limits), rest, limits)
  {
    RunFirst(Next(s, first, limits), second, rest, limits);
    RunFirst(s, first, [second] + rest, limits);
    assert [first, second] + rest == [first] + ([second] + rest);
  }

  /** It does happen: an acknowledgement reads the total, is overtaken by more output and a later
      acknowledgement, and then subtracts the greater from the less. */
  lemma ReleaseTestCanWrap(limits: Limits)
    requires limits.lowWatermark < TWO_64 - 1
    ensures var s := Run(Start(0), [Write(1), Ack(0), Look, Clear, Write(1), Ack(2)], limits);
            && 1 in s.acks && s.acked == 2 && Sub64(1, s.acked) == TWO_64 - 1
            && Next(s, Tested(1), limits).signals == s.signals
  {
    Overtakes(limits);
  }

  // ---------------------------------------------------------------- what is asked for is what happens

  /** An acknowledgement acknowledges: all it names, as far as that was written, and never less than before. */
  lemma AckMeaning(s: State, through: nat, limits: Limits)
    requires Ok(s, limits)
    ensures Next(s, Ack(through), limits).acked == Max(s.acked, Min(through, s.written))
  {
  }

  /** A renderer that has taken enough gets the pump going: from anywhere the pump is parked, an acknowledgement
      that leaves no more than the low mark outstanding, its test, and the release it sends wake the pump. */
  lemma AckReleases(s: State, through: nat, limits: Limits)
    requires Ok(s, limits) && s.pump.Parked? && s.written <= through + limits.lowWatermark
    ensures Run(s, [Ack(through), Tested(s.written), Signal, Wake], limits).pump == Looking
  {
    var s1 := Next(s, Ack(through), limits);
    var s2 := Next(s1, Tested(s.written), limits);
    RunTwo(s, Ack(through), Tested(s.written), [Signal, Wake], limits);
    RunTwo(s2, Signal, Wake, [], limits);
    assert s2.signals > 0;
  }

  /** A detach of the renderer gets the pump reading again, whoever asks for it. */
  lemma DetachReleases(s: State, limits: Limits)
    requires Ok(s, limits) && s.pump.Parked?
    ensures Run(s, [Detach(true), Signal, Wake, Look, Clear], limits).pump == Reading
    ensures s.attached ==> Run(s, [DetachActive, Signal, Wake, Look, Clear], limits).pump == Reading
  {
    FromSignal(Next(s, Detach(true), limits), limits);
    RunFirst(s, Detach(true), [Signal, Wake, Look, Clear], limits);
    if s.attached {
      FromSignal(Next(s, DetachActive, limits), limits);
      RunFirst(s, DetachActive, [Signal, Wake, Look, Clear], limits);
    }
  }

  /** The end of the session wakes it. */
  lemma ReapReleases(s: State, limits: Limits)
    requires s.pump.Parked?
    ensures Run(s, [Reap, Signal, Wake], limits).pump == Looking
  {
    RunFirst(s, Reap, [Signal, Wake], limits);
    RunTwo(Next(s, Reap, limits), Signal, Wake, [], limits);
  }

  lemma FromSignal(s: State, limits: Limits)
    requires s.pump.Parked? && s.signals > 0 && !s.attached
    ensures Run(s, [Signal, Wake, Look, Clear], limits).pump == Reading
  {
    RunTwo(s, Signal, Wake, [Look, Clear], limits);
    RunTwo(Next(Next(s, Signal, limits), Wake, limits), Look, Clear, [], limits);
  }

  /** The pump is held after a read exactly when a renderer is attached and at least the high mark is
      outstanding; otherwise it goes on to the next read. */
  lemma HeldExactlyWhenBehind(s: State, count: nat, limits: Limits)
    requires Ok(s, limits) && s.pump.Reading? && 0 < count <= READ && s.written + count < TWO_64
    ensures var behind := s.attached && s.written + count >= s.acked + limits.highWatermark;
            && (behind ==> var p := Run(s, [Write(count), Look, Test, Mark], limits); p.pump.Parked? && p.paused)
            && (!behind ==> Run(s, [Write(count), Look, Test, Clear], limits).pump == Reading)
            && Next(s, Write(count), limits).written == s.written + count
  {
    var looked := Next(Next(s, Write(count), limits), Look, limits);
    RunTwo(s, Write(count), Look, [Test, Mark], limits);
    RunTwo(s, Write(count), Look, [Test, Clear], limits);
    RunTwo(looked, Test, Mark, [], limits);
    RunTwo(looked, Test, Clear, [], limits);
  }

  /** An attached renderer stays attached until it is detached, and a superseded detach does not. */
  lemma AttachHolds(s: State, move: Move, limits: Limits)
    ensures Next(s, Attach, limits).attached
    ensures s.attached ==> (Next(s, move, limits).attached <==> !(move.DetachActive? || move == Detach(true)))
    ensures !s.attached ==> (Next(s, move, limits).attached <==> move.Attach?)
  {
  }
}
