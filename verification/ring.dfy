/** One session's retained output: a bounded tail of everything the shell printed, addressed by a
    coordinate that never restarts, with leases that hold the floor back up to a budget.

    `history` in the lemmas is everything the session ever printed; byte k of it has coordinate k. */
module Ring {
  import opened Base

  type Token = string

  datatype Lease = Lease(after: nat, broken: bool)

  datatype Mode = Resumed | Restarted

  /** What a reader at some coordinate is answered. A blocked reader parks until the next write or the end. */
  datatype ReadAnswer =
    | Bytes(from: nat, data: seq<byte>, next: nat)
    | Ended(at: nat)
    | Blocked

  datatype ConsumeAnswer = Cursor(after: nat) | NoLease | BrokenLease

  /** Where the floor would go if no lease held it back. */
  function Window(live: nat, capacity: nat): nat {
    if live > capacity then live - capacity else 0
  }

  /** A lease the window has passed is kept while it is within the budget of the live edge. */
  predicate Breaks(lease: Lease, live: nat, window: nat, budget: nat)
    requires window <= live
  {
    !lease.broken && lease.after < window && live - lease.after > budget
  }

  function Judged(lease: Lease, live: nat, window: nat, budget: nat): Lease
    requires window <= live
  {
    if Breaks(lease, live, window, budget) then lease.(broken := true) else lease
  }

  function JudgeAll(leases: map<Token, Lease>, live: nat, window: nat, budget: nat): map<Token, Lease>
    requires window <= live
  {
    map t | t in leases :: Judged(leases[t], live, window, budget)
  }

  function Cursors(leases: map<Token, Lease>): set<nat> {
    set t | t in leases && !leases[t].broken :: leases[t].after
  }

  ghost predicate IsTarget(target: nat, cursors: set<nat>, window: nat) {
    && target <= window
    && (forall c | c in cursors :: target <= c)
    && (target == window || target in cursors)
  }

  lemma {:induction false} TargetExists(cursors: set<nat>, window: nat)
    ensures exists target: nat :: IsTarget(target, cursors, window)
    decreases |cursors|
  {
    if c :| c in cursors && c < window {
      TargetExists(cursors - {c}, c);
      var target: nat :| IsTarget(target, cursors - {c}, c);
      assert forall d | d in cursors :: d == c || d in cursors - {c};
      assert IsTarget(target, cursors, window);
    } else {
      assert IsTarget(window, cursors, window);
    }
  }

  /** The least of the window and the cursors held. */
  ghost function Target(cursors: set<nat>, window: nat): (target: nat)
    ensures IsTarget(target, cursors, window)
  {
    TargetExists(cursors, window);
    var target: nat :| IsTarget(target, cursors, window);
    target
  }

  datatype State = State(
    bytes: seq<byte>,
    floor: nat,
    capacity: nat,
    budget: nat,
    acked: nat,
    ended: bool,
    leases: map<Token, Lease>)
  {
    function Live(): nat { floor + |bytes| }

    function JudgedLeases(): map<Token, Lease> {
      JudgeAll(leases, Live(), Window(Live(), capacity), budget)
    }

    ghost function TrimFloor(): (f: nat)
      ensures floor <= f <= Live()
    {
      Max(floor, Target(Cursors(JudgedLeases()), Window(Live(), capacity)))
    }

    ghost function Trim(): (s: State)
      ensures s.Live() == Live()
    {
      this.(bytes := bytes[TrimFloor() - floor..], floor := TrimFloor(), leases := JudgedLeases())
    }

    /** The tail of the data this ring can serve, ending at the coordinate given or, if that is behind
        the data, at the data's own end. */
    function Refit(data: seq<byte>, through: nat): State {
      var end := if through < |data| then |data| else through;
      var kept := if |data| > capacity then data[|data| - capacity..] else data;
      this.(bytes := kept, floor := end - |kept|)
    }

    ghost function Restore(data: seq<byte>, through: nat): State { Refit(data, through).Trim() }

    ghost function Write(data: seq<byte>): State {
      this.(bytes := bytes + data).Trim()
    }

    predicate Leasable(after: nat) { floor <= after <= Live() }

    function TakeLease(token: Token, after: nat): State {
      if Leasable(after) then this.(leases := leases[token := Lease(after, false)]) else this
    }

    function Consumed(token: Token): ConsumeAnswer {
      if token !in leases then NoLease
      else if leases[token].broken || leases[token].after < floor then BrokenLease
      else Cursor(leases[token].after)
    }

    ghost function Drop(token: Token): State {
      this.(leases := leases - {token}).Trim()
    }

    /** An absent token is refused before anything changes. */
    ghost function Consume(token: Token): State {
      if token !in leases then this else Drop(token)
    }

    function Ack(through: nat): State {
      if through > acked then this.(acked := through) else this
    }

    function End(): State { this.(ended := true) }

    function Read(at: nat): ReadAnswer {
      var from := if at < floor then floor else at;
      if from < Live() then Bytes(from, bytes[from - floor..], Live())
      else if ended then Ended(from)
      else Blocked
    }

    function Resolve(from: Option<nat>): (nat, Mode) {
      match from
      case None => (Live(), Resumed)
      case Some(at) =>
        if at < floor || at > Live() then (floor, Restarted) else (at, Resumed)
    }
  }

  /** Half way through a trim: the leases not pending are judged as the window judges them, and the
      target is the least of the window and the cursors that survived so far. */
  ghost predicate Visited(
    start: map<Token, Lease>, now: map<Token, Lease>, pending: set<Token>,
    target: nat, live: nat, window: nat, budget: nat)
  {
    && target <= window <= live
    && now.Keys == start.Keys
    && (forall t | t in start ::
          now[t] == if t in pending then start[t] else Judged(start[t], live, window, budget))
    && (target < window ==> live - target <= budget && target in Cursors(now))
    && (forall t | t in start && t !in pending && !now[t].broken :: target <= now[t].after)
  }

  /** A lease kept, broken or holding the target back: whichever the visit does, it stays half way. */
  lemma VisitOne(
    start: map<Token, Lease>, now: map<Token, Lease>, pending: set<Token>, t: Token,
    target: nat, live: nat, window: nat, budget: nat)
    requires Visited(start, now, pending, target, live, window, budget) && t in pending && pending <= start.Keys
    ensures now[t].broken || now[t].after >= target ==>
              Visited(start, now, pending - {t}, target, live, window, budget)
    ensures !now[t].broken && now[t].after < target && live - now[t].after > budget ==>
              Visited(start, now[t := Lease(now[t].after, true)], pending - {t}, target, live, window, budget)
    ensures !now[t].broken && now[t].after < target && live - now[t].after <= budget ==>
              Visited(start, now, pending - {t}, now[t].after, live, window, budget)
  {
    if !now[t].broken && now[t].after < target && live - now[t].after > budget {
      var broken := now[t := Lease(now[t].after, true)];
      if target < window {
        var u :| u in now && !now[u].broken && now[u].after == target;
        assert u in broken && broken[u] == now[u];
      }
    }
  }

  /** The loop of a trim. The leases are visited in whatever order the map yields them (`t` is any
      pending one), and the answer does not depend on it. */
  method VisitLeases(leases: map<Token, Lease>, live: nat, window: nat, budget: nat)
    returns (judged: map<Token, Lease>, target: nat)
    requires window <= live
    ensures judged == JudgeAll(leases, live, window, budget)
    ensures target == Target(Cursors(judged), window)
  {
    judged, target := leases, window;
    var pending := leases.Keys;
    while pending != {}
      invariant pending <= leases.Keys
      invariant Visited(leases, judged, pending, target, live, window, budget)
      decreases pending
    {
      var t :| t in pending;
      VisitOne(leases, judged, pending, t, target, live, window, budget);
      pending := pending - {t};
      if judged[t].broken || judged[t].after >= target {
        continue;
      }
      if live - judged[t].after > budget {
        judged := judged[t := Lease(judged[t].after, true)];
        continue;
      }
      target := judged[t].after;
    }
    TargetUnique(Cursors(judged), window, target);
  }

  lemma TrimIs(s: State, judged: map<Token, Lease>, target: nat)
    requires judged == s.JudgedLeases() && target == Target(Cursors(judged), Window(s.Live(), s.capacity))
    ensures s.Trim() ==
            if target > s.floor then s.(bytes := s.bytes[target - s.floor..], floor := target, leases := judged)
            else s.(leases := judged)
  {
    assert s.bytes[0..] == s.bytes;
  }

  /** The ring as the daemon holds it. The lock makes each method one step. */
  class Ring {
    const capacity: nat
    const limits: Limits
    var bytes: seq<byte>
    var floor: nat
    var acked: nat
    var ended: bool
    var leases: map<Token, Lease>

    function View(): State
      reads this
    {
      State(bytes, floor, capacity, limits.leaseBuffer, acked, ended, leases)
    }

    constructor (capacity: int, limits: Limits)
      ensures this.limits == limits
      ensures View() == Fresh(capacity, limits)
    {
      this.capacity := if capacity <= 0 then limits.highWatermark else capacity;
      this.limits := limits;
      bytes, floor, acked, ended, leases := [], 0, 0, false, map[];
    }

    method TrimLocked()
      modifies this
      ensures View() == old(View()).Trim()
    {
      var live := floor + |bytes|;
      var target: nat := 0;
      if live > capacity {
        target := live - capacity;
      }
      ghost var start := View();
      leases, target := VisitLeases(leases, live, target, limits.leaseBuffer);
      TrimIs(start, leases, target);
      if target > floor {
        bytes := bytes[target - floor..];
        floor := target;
      }
    }

    method Restore(data: seq<byte>, through: nat)
      modifies this
      ensures View() == old(View()).Restore(data, through)
    {
      var end := through;
      if end < |data| {
        end := |data|;
      }
      var kept := data;
      if |kept| > capacity {
        kept := kept[|kept| - capacity..];
      }
      bytes := kept;
      floor := end - |kept|;
      assert View() == old(View()).Refit(data, through);
      TrimLocked();
    }

    method Write(data: seq<byte>) returns (next: nat)
      modifies this
      ensures View() == old(View()).Write(data)
      ensures next == old(View()).Live() + |data|
    {
      bytes := bytes + data;
      TrimLocked();
      next := floor + |bytes|;
    }

    method TakeLease(token: Token, after: nat) returns (ok: bool)
      modifies this
      ensures ok == old(View()).Leasable(after)
      ensures View() == old(View()).TakeLease(token, after)
    {
      var live := floor + |bytes|;
      if after < floor || after > live {
        return false;
      }
      leases := leases[token := Lease(after, false)];
      return true;
    }

    method ConsumeLease(token: Token) returns (answer: ConsumeAnswer)
      modifies this
      ensures answer == old(View()).Consumed(token)
      ensures View() == old(View()).Consume(token)
    {
      if token !in leases {
        return NoLease;
      }
      var lease := leases[token];
      leases := leases - {token};
      if lease.broken || lease.after < floor {
        TrimLocked();
        return BrokenLease;
      }
      TrimLocked();
      return Cursor(lease.after);
    }

    method ExpireLease(token: Token)
      modifies this
      ensures View() == old(View()).Drop(token)
    {
      leases := leases - {token};
      TrimLocked();
    }

    method End()
      modifies this
      ensures View() == old(View()).End()
    {
      ended := true;
    }

    method Ack(through: nat)
      modifies this
      ensures View() == old(View()).Ack(through)
    {
      if through > acked {
        acked := through;
      }
    }

    /** One pass of the blocking read: `Blocked` is where the caller parks and comes back. */
    method Read(at: nat) returns (answer: ReadAnswer)
      ensures answer == View().Read(at)
    {
      var live := floor + |bytes|;
      var from := at;
      if from < floor {
        from := floor;
      }
      if from < live {
        return Bytes(from, bytes[from - floor..], live);
      }
      if ended {
        return Ended(from);
      }
      return Blocked;
    }

    /** Holds exactly when the high mark is outstanding, as long as no more was acknowledged than written. */
    method Paused(written: nat) returns (hold: bool)
      requires written < TWO_64 && acked < TWO_64
      ensures hold == Holding(written, acked, limits)
      ensures acked <= written ==> (hold <==> written >= acked + limits.highWatermark)
    {
      var outstanding := Sub64(written, acked);
      return outstanding >= limits.highWatermark;
    }

    /** Releases exactly when no more than the low mark is outstanding. Asked with a total that has been
        acknowledged past, it releases only if the wrapped difference is that small. */
    method Resumed(written: nat) returns (go: bool)
      requires written < TWO_64 && acked < TWO_64
      ensures go == Releasing(written, acked, limits)
      ensures acked <= written ==> (go <==> written <= acked + limits.lowWatermark)
      ensures acked > written ==> (go <==> TWO_64 <= limits.lowWatermark + (acked - written))
    {
      return Sub64(written, acked) <= limits.lowWatermark;
    }
  }

  predicate Holding(written: nat, acked: nat, limits: Limits)
    requires written < TWO_64 && acked < TWO_64
  {
    Sub64(written, acked) >= limits.highWatermark
  }

  predicate Releasing(written: nat, acked: nat, limits: Limits)
    requires written < TWO_64 && acked < TWO_64
  {
    Sub64(written, acked) <= limits.lowWatermark
  }

  function Fresh(capacity: int, limits: Limits): State {
    State([], 0, if capacity <= 0 then limits.highWatermark else capacity, limits.leaseBuffer, 0, false, map[])
  }

  /** Being a lower bound that is attained fixes the target: no order of visits can end anywhere else. */
  lemma TargetUnique(cursors: set<nat>, window: nat, target: nat)
    requires IsTarget(target, cursors, window)
    ensures target == Target(cursors, window)
  {
  }

  /** What one trim does, said without the visit: the leases broken are exactly the unbroken ones
      behind the window and over the budget, and the floor moves to the least surviving cursor or the
      window, never back. */
  lemma TrimMeaning(s: State, t: Token)
    requires t in s.leases
    ensures t in s.Trim().leases && s.Trim().leases[t].after == s.leases[t].after
    ensures s.Trim().leases[t].broken <==>
            s.leases[t].broken ||
            (s.leases[t].after + s.capacity < s.Live() && s.leases[t].after + s.budget < s.Live())
    ensures s.Trim().floor == s.floor || s.Trim().floor + s.capacity == s.Live() ||
            exists u :: u in s.leases && !s.Trim().leases[u].broken && s.leases[u].after == s.Trim().floor
    ensures !s.Trim().leases[t].broken ==> s.Trim().floor <= Max(s.floor, s.leases[t].after)
    ensures s.floor <= s.Trim().floor && (s.Trim().floor == s.floor || s.Trim().floor + s.capacity <= s.Live())
  {
    var trimmed := s.Trim();
    var cursors := Cursors(trimmed.leases);
    assert !trimmed.leases[t].broken ==> trimmed.leases[t].after in cursors;
    if trimmed.floor != s.floor && trimmed.floor + s.capacity != s.Live() {
      assert trimmed.floor in cursors;
      var u :| u in trimmed.leases && !trimmed.leases[u].broken && trimmed.leases[u].after == trimmed.floor;
      assert u in s.leases;
    }
  }

  // ---------------------------------------------------------------- the window over the history

  /** The ring holds exactly the history from its floor, and holds all of what an unbroken lease names. */
  ghost predicate Holds(s: State, history: seq<byte>) {
    && s.Live() == |history|
    && s.bytes == history[s.floor..]
    && (forall t | t in s.leases && !s.leases[t].broken :: s.floor <= s.leases[t].after <= |history|)
  }

  /** What is retained fits the larger of the tail and the budget. */
  predicate Bounded(s: State) { |s.bytes| <= Max(s.capacity, s.budget) }

  ghost predicate Ok(s: State, history: seq<byte>) { Holds(s, history) && Bounded(s) }

  lemma TrimOk(s: State, history: seq<byte>)
    requires Holds(s, history)
    ensures Ok(s.Trim(), history)
  {
    var trimmed := s.Trim();
    var window := Window(s.Live(), s.capacity);
    var cursors := Cursors(trimmed.leases);
    assert trimmed.bytes == history[trimmed.floor..];
    forall t | t in trimmed.leases && !trimmed.leases[t].broken
      ensures trimmed.floor <= trimmed.leases[t].after
    {
      assert trimmed.leases[t].after in cursors;
    }
    var target := Target(cursors, window);
    if target != window {
      var t :| t in trimmed.leases && !trimmed.leases[t].broken && trimmed.leases[t].after == target;
      assert !Breaks(s.leases[t], s.Live(), window, s.budget);
    }
  }

  datatype Op =
    | Write(data: seq<byte>)
    | TakeLease(token: Token, after: nat)
    | Consume(token: Token)
    | Expire(token: Token)
    | Ack(through: nat)
    | End

  ghost function Step(s: State, op: Op): State {
    match op
    case Write(data) => s.Write(data)
    case TakeLease(token, after) => s.TakeLease(token, after)
    case Consume(token) => s.Consume(token)
    case Expire(token) => s.Drop(token)
    case Ack(through) => s.Ack(through)
    case End => s.End()
  }

  function Printed(op: Op): seq<byte> {
    if op.Write? then op.data else []
  }

  ghost function Run(s: State, ops: seq<Op>): State
    decreases |ops|
  {
    if ops == [] then s else Run(Step(s, ops[0]), ops[1..])
  }

  function PrintedAll(ops: seq<Op>): seq<byte>
    decreases |ops|
  {
    if ops == [] then [] else Printed(ops[0]) + PrintedAll(ops[1..])
  }

  lemma StepOk(s: State, history: seq<byte>, op: Op)
    requires Ok(s, history)
    ensures Ok(Step(s, op), history + Printed(op))
    ensures s.floor <= Step(s, op).floor
    ensures Step(s, op).capacity == s.capacity && Step(s, op).budget == s.budget
  {
    match op
    case Write(data) =>
      TrimOk(s.(bytes := s.bytes + data), history + data);
    case TakeLease(token, after) =>
      assert history + [] == history;
    case Consume(token) =>
      assert history + [] == history;
      TrimOk(s.(leases := s.leases - {token}), history);
    case Expire(token) =>
      assert history + [] == history;
      TrimOk(s.(leases := s.leases - {token}), history);
    case Ack(through) =>
      assert history + [] == history;
    case End =>
      assert history + [] == history;
  }

  /** Over any run the ring holds byte k at coordinate k for every k from its floor to the live edge,
      its floor never goes back, no lease it still honours is behind the floor, and it stays bounded. */
  lemma {:induction false} RunOk(s: State, history: seq<byte>, ops: seq<Op>)
    requires Ok(s, history)
    ensures Ok(Run(s, ops), history + PrintedAll(ops))
    ensures s.floor <= Run(s, ops).floor
    decreases |ops|
  {
    if ops == [] {
      assert history + [] == history;
    } else {
      var grown := history + Printed(ops[0]);
      assert history + PrintedAll(ops) == grown + PrintedAll(ops[1..]);
      StepOk(s, history, ops[0]);
      RunOk(Step(s, ops[0]), grown, ops[1..]);
    }
  }

  /** A fresh ring stood up on stored output holds that output's tail at its own coordinates. */
  lemma RestoreOk(capacity: int, limits: Limits, history: seq<byte>, kept: nat)
    requires kept <= |history|
    ensures var data := history[|history| - kept..];
            var s := Fresh(capacity, limits).Restore(data, |history|);
            Ok(s, history) && |s.bytes| == Min(kept, s.capacity) && s.leases == map[]
  {
    var data := history[|history| - kept..];
    var s := Fresh(capacity, limits).Refit(data, |history|);
    assert s.bytes == history[|history| - |s.bytes|..];
    TrimOk(s, history);
    assert s.JudgedLeases() == map[];
    assert Cursors(map[]) == {};
  }

  /** A read answers the history from the cursor or, when the cursor was overtaken, from the floor, and
      always up to the live edge. It blocks only at the live edge of a session that has not ended. */
  lemma ReadMeaning(s: State, history: seq<byte>, at: nat)
    requires Ok(s, history)
    ensures var from := if at < s.floor then s.floor else at;
            && (from < |history| ==> s.Read(at) == Bytes(from, history[from..], |history|))
            && (from >= |history| ==> s.Read(at) == if s.ended then Ended(from) else Blocked)
  {
    var from := if at < s.floor then s.floor else at;
    if from < |history| {
      assert s.bytes[from - s.floor..] == history[from..];
    }
  }

  // ---------------------------------------------------------------- leases

  /** Some lease other than `token` that the trim leaves unbroken sits at or behind the cursor. */
  ghost predicate HeldByAnother(s: State, token: Token, cursor: nat) {
    exists u :: u in s.leases && u != token && !s.leases[u].broken && s.leases[u].after <= cursor &&
      !Breaks(s.leases[u], s.Live(), Window(s.Live(), s.capacity), s.budget)
  }

  /** Dropping a lease leaves the floor at or behind its cursor exactly when the cursor is inside the
      tail or another lease holds it. */
  lemma DropFloor(s: State, history: seq<byte>, token: Token)
    requires Ok(s, history)
    requires token in s.leases && !s.leases[token].broken
    ensures var cursor := s.leases[token].after;
            s.Drop(token).floor <= cursor <==>
            s.Live() - cursor <= s.capacity || HeldByAnother(s, token, cursor)
  {
    var cursor := s.leases[token].after;
    var left := s.(leases := s.leases - {token});
    var window := Window(s.Live(), s.capacity);
    var judged := left.JudgedLeases();
    var target := Target(Cursors(judged), window);
    assert left.Trim().floor == Max(s.floor, target);
    if HeldByAnother(s, token, cursor) {
      var u :| u in s.leases && u != token && !s.leases[u].broken && s.leases[u].after <= cursor &&
               !Breaks(s.leases[u], s.Live(), window, s.budget);
      assert u in left.leases && judged[u] == s.leases[u];
      assert s.leases[u].after in Cursors(judged);
    } else if target < window && target <= cursor {
      var u :| u in judged && !judged[u].broken && judged[u].after == target;
      assert u in s.leases && u != token && s.leases[u] == judged[u];
    }
  }

  /** Consuming yields the cursor leased exactly when no trim broke the lease, and at that moment
      everything from it is retained. The trim that follows no longer counts the lease: a read from the
      cursor after it loses nothing if and only if the cursor is inside the tail or another lease holds it. */
  lemma ConsumeMeaning(s: State, history: seq<byte>, token: Token)
    requires Ok(s, history)
    requires token in s.leases
    ensures s.Consumed(token).Cursor? <==> !s.leases[token].broken
    ensures s.Consumed(token).Cursor? ==>
              s.Consumed(token).after == s.leases[token].after && s.floor <= s.leases[token].after <= s.Live()
    ensures s.Consumed(token).Cursor? && s.leases[token].after < s.Live() ==>
              (Lossless(s.Consume(token), history, s.leases[token].after) <==>
               s.Live() - s.leases[token].after <= s.capacity || HeldByAnother(s, token, s.leases[token].after))
  {
    if !s.leases[token].broken && s.leases[token].after < s.Live() {
      DropFloor(s, history, token);
      TrimOk(s.(leases := s.leases - {token}), history);
      LosslessMeaning(s.Drop(token), history, s.leases[token].after);
    }
  }

  /** A read from the cursor answers all of the history from it. */
  ghost predicate Lossless(s: State, history: seq<byte>, cursor: nat)
    requires cursor <= |history|
  {
    s.Read(cursor) == Bytes(cursor, history[cursor..], |history|)
  }

  lemma LosslessMeaning(s: State, history: seq<byte>, cursor: nat)
    requires Ok(s, history) && cursor < |history|
    ensures Lossless(s, history, cursor) <==> s.floor <= cursor
  {
    ReadMeaning(s, history, cursor);
  }

  /** The case the trailing trim loses: a lease well within its budget, consumed, and the bytes it
      named already dropped when the caller reads from it. */
  lemma ConsumedCursorCanBePassed()
    ensures var s := State([1, 2, 3], 0, 2, 3, 0, false, map["renderer" := Lease(0, false)]);
            && Ok(s, [1, 2, 3])
            && s.Consumed("renderer") == Cursor(0)
            && s.Consume("renderer").floor == 1
  {
    var s := State([1, 2, 3], 0, 2, 3, 0, false, map["renderer" := Lease(0, false)]);
    assert Cursors(s.(leases := s.leases - {"renderer"}).JudgedLeases()) == {};
  }

  /** A reader is served from where it asked when the ring still holds that, and otherwise is told it
      was restarted and served everything retained; it never starts past the live edge. */
  lemma ResolveMeaning(s: State, history: seq<byte>, from: Option<nat>)
    requires Ok(s, history)
    ensures var (at, mode) := s.Resolve(from);
            && s.floor <= at <= |history|
            && s.bytes[at - s.floor..] == history[at..]
            && (from.Some? ==> (mode.Resumed? <==> s.floor <= from.value <= |history|))
            && (from.Some? && mode.Resumed? ==> at == from.value)
            && (mode.Restarted? ==> at == s.floor)
            && (from.None? ==> at == |history| && mode.Resumed?)
  {
    var (at, mode) := s.Resolve(from);
    assert s.bytes[at - s.floor..] == history[at..];
  }

  // ---------------------------------------------------------------- what is asked for is what happens

  /** A lease taken where the ring still holds output is consumed at the coordinate it was taken at; outside
      that range it is refused, and the ring is as it was. */
  lemma LeaseRoundTrip(s: State, history: seq<byte>, t: Token, after: nat)
    requires Ok(s, history)
    ensures s.Leasable(after) <==> s.floor <= after <= |history|
    ensures s.Leasable(after) ==> s.TakeLease(t, after).Consumed(t) == Cursor(after)
    ensures !s.Leasable(after) ==> s.TakeLease(t, after) == s
  {
  }

  /** An operation on other leases, or on none. */
  predicate Spares(op: Op, t: Token) {
    (op.TakeLease? || op.Consume? || op.Expire?) ==> op.token != t
  }

  lemma StepSpares(s: State, op: Op, t: Token)
    requires t in s.leases && Spares(op, t)
    ensures t in Step(s, op).leases && Step(s, op).leases[t].after == s.leases[t].after
  {
  }

  /** And whatever happens to the ring and to other leases in between, consuming it answers that coordinate or
      that it is broken. */
  lemma {:induction false} LeaseKept(s: State, ops: seq<Op>, t: Token)
    requires t in s.leases && forall op | op in ops :: Spares(op, t)
    ensures var answer := Run(s, ops).Consumed(t);
            answer == Cursor(s.leases[t].after) || answer == BrokenLease
    decreases |ops|
  {
    if ops != [] {
      StepSpares(s, ops[0], t);
      LeaseKept(Step(s, ops[0]), ops[1..], t);
    }
  }

  /** A lease is consumed once, and consuming it leaves the others where they were. */
  lemma ConsumedOnce(s: State, t: Token, u: Token)
    requires t in s.leases && u in s.leases && u != t
    ensures s.Consume(t).Consumed(t) == NoLease && s.Drop(t).Consumed(t) == NoLease
    ensures u in s.Consume(t).leases && s.Consume(t).leases[u].after == s.leases[u].after
  {
  }

  /** More than the capacity is retained only while an unbroken lease holds the floor where it is; so with no
      lease, no more than the capacity is. */
  lemma TrimRetains(s: State, history: seq<byte>)
    requires Holds(s, history)
    ensures |s.Trim().bytes| > s.capacity ==>
              exists t :: t in s.Trim().leases && !s.Trim().leases[t].broken &&
                s.Trim().leases[t].after == s.Trim().floor
    ensures s.leases == map[] ==> |s.Trim().bytes| <= s.capacity
    ensures s.leases == map[] && |history| - s.floor >= s.capacity ==> |s.Trim().bytes| == s.capacity
  {
    TrimOk(s, history);
    var trimmed := s.Trim();
    var window := Window(s.Live(), s.capacity);
    if |trimmed.bytes| > s.capacity {
      var target := Target(Cursors(trimmed.leases), window);
      assert target in Cursors(trimmed.leases);
      var t :| t in trimmed.leases && !trimmed.leases[t].broken && trimmed.leases[t].after == target;
    }
    if s.leases == map[] {
      assert trimmed.leases == map[] && Cursors(trimmed.leases) == {};
    }
  }

  /** The acknowledged position is the furthest ever acknowledged. */
  lemma {:induction false} AckedIsFurthest(s: State, ops: seq<Op>)
    ensures Run(s, ops).acked >= s.acked
    ensures forall op | op in ops && op.Ack? :: op.through <= Run(s, ops).acked
    ensures Run(s, ops).acked == s.acked || Ack(Run(s, ops).acked) in ops
    decreases |ops|
  {
    if ops != [] {
      AckedIsFurthest(Step(s, ops[0]), ops[1..]);
      assert ops[0] in ops;
      assert forall op | op in ops :: op == ops[0] || op in ops[1..];
    }
  }

  /** Once it has ended, no read waits, whatever else happens. */
  lemma {:induction false} EndedNeverBlocks(s: State, ops: seq<Op>, at: nat)
    requires s.ended || End in ops
    ensures Run(s, ops).Read(at) != Blocked
    decreases |ops|
  {
    if ops != [] {
      assert End in ops ==> ops[0] == End || End in ops[1..];
      EndedNeverBlocks(Step(s, ops[0]), ops[1..], at);
    }
  }
}
