/** The process ledger: what is running now, one revision per change, and bounded streams of those
    changes beside atomic snapshots. */
module Ledger {
  import opened Base

  /** Process ids are only compared and put in order. */
  type Id = nat

  datatype Process = Process(
    id: Id, owner: string, window: Option<string>, pane: Option<string>, cwd: string,
    pid: nat, parentPid: nat, command: string, state: string,
    startedAt: int, endedAt: Option<int>)

  datatype Kind = Started | Updated | Ended

  datatype Change = Change(kind: Kind, process: Process)

  datatype Event = Event(revision: nat, change: Change)

  const BUFFER: nat := 64

  /** A stream of events: what its peer was given at the start and has received since, and the channel
      between them. */
  datatype Subscription = Subscription(
    at: nat, snapshot: map<Id, Process>, received: seq<Event>, buffer: seq<Event>, open: bool)
  {
    function All(): seq<Event> { received + buffer }

    /** A full channel is closed rather than skipped, so the loss shows. */
    function Offer(event: Event): Subscription {
      if !open then this
      else if |buffer| < BUFFER then this.(buffer := buffer + [event])
      else this.(open := false)
    }
  }

  type SubId = nat

  datatype State = State(
    revision: nat,
    sessions: map<nat, map<Id, Process>>,
    processes: map<Id, Process>,
    subs: map<SubId, Subscription>,
    log: seq<Event>)
  {
    function Publish(change: Change): State {
      var event := Event(revision + 1, change);
      State(revision + 1, sessions, Apply(processes, change),
            map o | o in subs :: subs[o].Offer(event), log + [event])
    }

    function PublishAll(changes: seq<Change>): State
      decreases |changes|
    {
      if changes == [] then this
      else PublishAll(changes[..|changes| - 1]).Publish(changes[|changes| - 1])
    }

    function Session(id: nat): map<Id, Process> { if id in sessions then sessions[id] else map[] }

    ghost function ReplaceSession(id: nat, next: seq<Process>, endedAt: int): State {
      var records := ById(next);
      var published := PublishAll(Changes(Session(id), records, endedAt));
      published.(sessions := Filed(sessions, id, records))
    }

    function Observe(sub: SubId): State {
      this.(subs := subs[sub := Subscription(revision, processes, [], [], true)])
    }

    function Receive(sub: SubId): State {
      if sub in subs && subs[sub].buffer != [] then
        var s := subs[sub];
        this.(subs := subs[sub := s.(received := s.received + [s.buffer[0]], buffer := s.buffer[1..])])
      else this
    }

    function Stop(sub: SubId): State {
      if sub in subs then this.(subs := subs[sub := subs[sub].(open := false)]) else this
    }
  }

  predicate In(sessions: map<nat, map<Id, Process>>, session: nat, id: Id) {
    session in sessions && id in sessions[session]
  }

  /** Records are filed under the id they state. */
  ghost predicate Keyed(sessions: map<nat, map<Id, Process>>) {
    forall x, id | In(sessions, x, id) :: sessions[x][id].id == id
  }

  /** A session with no records has no entry. */
  function Filed(sessions: map<nat, map<Id, Process>>, session: nat, records: map<Id, Process>): map<nat, map<Id,
      Process>> {
    if records == map[] then sessions - {session} else sessions[session := records]
  }

  predicate KeyedById(records: map<Id, Process>) { forall id | id in records :: records[id].id == id }

  lemma FiledKeyed(sessions: map<nat, map<Id, Process>>, session: nat, records: map<Id, Process>)
    requires Keyed(sessions)
    ensures session in sessions ==> KeyedById(sessions[session])
    ensures KeyedById(records) ==> Keyed(Filed(sessions, session, records))
  {
    var filed := Filed(sessions, session, records);
    if session in sessions {
      forall id | id in sessions[session] ensures sessions[session][id].id == id { assert In(sessions, session, id); }
    }
    if KeyedById(records) {
      forall x, id | In(filed, x, id) ensures filed[x][id].id == id { assert x != session ==> In(sessions, x, id); }
    }
  }

  const EMPTY := State(0, map[], map[], map[], [])

  function Apply(processes: map<Id, Process>, change: Change): map<Id, Process> {
    if change.kind.Ended? then processes - {change.process.id}
    else processes[change.process.id := change.process]
  }

  /** The last record given for an id is the one that counts. */
  function ById(next: seq<Process>): (records: map<Id, Process>)
    ensures KeyedById(records)
  {
    if next == [] then map[]
    else
      var last := next[|next| - 1];
      ById(next[..|next| - 1])[last.id := last]
  }

  predicate IsLeast(m: Id, ids: set<Id>) {
    m in ids && forall x | x in ids :: m <= x
  }

  lemma {:induction false} LeastExists(ids: set<Id>)
    requires ids != {}
    ensures exists m :: IsLeast(m, ids)
    decreases |ids|
  {
    var m :| m in ids;
    if x :| x in ids && x < m {
      var rest := ids - {m};
      assert x in rest;
      LeastExists(rest);
      var least :| IsLeast(least, rest);
      assert ids == rest + {m};
      assert IsLeast(least, ids);
    } else {
      assert IsLeast(m, ids);
    }
  }

  function Sorted(ids: set<Id>): (sorted: seq<Id>)
    ensures forall id :: id in sorted <==> id in ids
    decreases |ids|
  {
    if ids == {} then []
    else
      LeastExists(ids);
      var m :| IsLeast(m, ids);
      [m] + Sorted(ids - {m})
  }

  lemma {:induction false} SortedIncreases(ids: set<Id>, i: nat, j: nat)
    requires i < j < |Sorted(ids)|
    ensures Sorted(ids)[i] < Sorted(ids)[j]
    decreases i
  {
    var least := Sorted(ids)[0];
    var rest := Sorted(ids - {least});
    assert Sorted(ids) == [least] + rest;
    if i == 0 {
      assert Sorted(ids)[j] == rest[j - 1] && rest[j - 1] in ids - {least};
    } else {
      SortedIncreases(ids - {least}, i - 1, j - 1);
    }
  }

  predicate SameOptional<T(==)>(left: Option<T>, right: Option<T>) {
    if left.None? || right.None? then left.None? && right.None? else left.value == right.value
  }

  predicate SameRecord(left: Process, right: Process) {
    && left.id == right.id && left.owner == right.owner
    && SameOptional(left.window, right.window) && SameOptional(left.pane, right.pane)
    && left.cwd == right.cwd && left.pid == right.pid && left.parentPid == right.parentPid
    && left.command == right.command && left.state == right.state
    && left.startedAt == right.startedAt && SameOptional(left.endedAt, right.endedAt)
  }

  function EndedRecord(process: Process, endedAt: int): Process {
    process.(state := "ended", endedAt := Some(endedAt))
  }

  /** A record not there before starts, one that differs is updated, and one that is the same is silent. */
  function Arrivals(previous: map<Id, Process>, next: map<Id, Process>, ids: seq<Id>): seq<Change>
    requires forall id | id in ids :: id in next
  {
    if ids == [] then []
    else
      var n := |ids| - 1;
      Arrivals(previous, next, ids[..n]) + Arrival(previous, next, ids[n])
  }

  function Arrival(previous: map<Id, Process>, next: map<Id, Process>, id: Id): seq<Change>
    requires id in next
  {
    if id !in previous then [Change(Started, next[id])]
    else if SameRecord(previous[id], next[id]) then []
    else [Change(Updated, next[id])]
  }

  function Departures(previous: map<Id, Process>, ids: seq<Id>, endedAt: int): seq<Change>
    requires forall id | id in ids :: id in previous
  {
    if ids == [] then []
    else
      var n := |ids| - 1;
      Departures(previous, ids[..n], endedAt) + [Change(Ended, EndedRecord(previous[ids[n]], endedAt))]
  }

  function Changes(previous: map<Id, Process>, next: map<Id, Process>, endedAt: int): seq<Change> {
    Arrivals(previous, next, Sorted(next.Keys)) + Departures(previous, Sorted(previous.Keys - next.Keys), endedAt)
  }

  class Ledger {
    var revision: nat
    var sessions: map<nat, map<Id, Process>>
    var processes: map<Id, Process>
    var subs: map<SubId, Subscription>
    ghost var log: seq<Event>

    ghost function View(): State
      reads this
    {
      State(revision, sessions, processes, subs, log)
    }

    constructor ()
      ensures View() == EMPTY
    {
      revision, sessions, processes, subs, log := 0, map[], map[], map[], [];
    }

    /** Every open stream is offered the event, in whatever order the map yields them; none waits. */
    method PublishLocked(change: Change)
      modifies this`revision, this`subs, this`log
      ensures View() == old(View()).Publish(change).(processes := old(processes))
    {
      revision := revision + 1;
      var event := Event(revision, change);
      log := log + [event];
      subs := OfferAll(subs, event);
    }

    static method OfferAll(streams: map<SubId, Subscription>, event: Event) returns (offered: map<SubId, Subscription>)
      ensures offered == map o | o in streams :: streams[o].Offer(event)
    {
      offered := streams;
      var pending := streams.Keys;
      while pending != {}
        invariant pending <= offered.Keys == streams.Keys
        invariant forall o | o in streams :: offered[o] == if o in pending then streams[o] else streams[o].Offer(event)
        decreases pending
      {
        var o :| o in pending;
        pending := pending - {o};
        if offered[o].open {
          if |offered[o].buffer| < BUFFER {
            offered := offered[o := offered[o].(buffer := offered[o].buffer + [event])];
          } else {
            offered := offered[o := offered[o].(open := false)];
          }
        }
      }
    }

    static method IndexById(next: seq<Process>) returns (records: map<Id, Process>)
      ensures records == ById(next)
    {
      records := map[];
      for i := 0 to |next|
        invariant records == ById(next[..i])
      {
        assert next[..i + 1][..i] == next[..i];
        records := records[next[i].id := next[i]];
      }
      assert next[..|next|] == next;
    }

    method ReplaceSession(sessionId: nat, next: seq<Process>, endedAt: int) returns (changes: seq<Change>)
      requires Keyed(sessions)
      modifies this
      ensures Keyed(sessions) && View() == old(View()).ReplaceSession(sessionId, next, endedAt)
      ensures changes == Changes(old(View()).Session(sessionId), ById(next), endedAt)
    {
      ghost var start := View();
      FiledKeyed(sessions, sessionId, ById(next));
      var previous := if sessionId in sessions then sessions[sessionId] else map[];
      var records := IndexById(next);
      changes := PublishArrivals(previous, records);
      var ended := PublishDepartures(previous, records, endedAt);
      PublishAllAppend(start, changes, ended);
      changes := changes + ended;
      if records == map[] {
        sessions := sessions - {sessionId};
      } else {
        sessions := sessions[sessionId := records];
      }
      assert sessions == Filed(start.sessions, sessionId, records);
    }

    method PublishArrival(previous: map<Id, Process>, next: map<Id, Process>, id: Id) returns (changes: seq<Change>)
      requires id in next && next[id].id == id
      modifies this`revision, this`subs, this`log, this`processes
      ensures changes == Arrival(previous, next, id)
      ensures View() == old(View()).PublishAll(changes)
    {
      var kind := Started;
      if id in previous {
        if SameRecord(previous[id], next[id]) {
          return [];
        }
        kind := Updated;
      }
      var change := Change(kind, next[id]);
      PublishMore(View(), [], change);
      PublishLocked(change);
      processes := processes[id := next[id]];
      return [change];
    }

    method PublishArrivals(previous: map<Id, Process>, next: map<Id, Process>) returns (changes: seq<Change>)
      requires KeyedById(next)
      modifies this`revision, this`subs, this`log, this`processes
      ensures changes == Arrivals(previous, next, Sorted(next.Keys))
      ensures View() == old(View()).PublishAll(changes)
    {
      var ids := Sorted(next.Keys);
      ghost var start := View();
      changes := [];
      for i := 0 to |ids|
        invariant changes == Arrivals(previous, next, ids[..i])
        invariant View() == start.PublishAll(changes)
      {
        var id := ids[i];
        assert id in next;
        ArrivalsNext(previous, next, ids, i);
        var arrival := PublishArrival(previous, next, id);
        PublishAllAppend(start, changes, arrival);
        changes := changes + arrival;
      }
      assert ids[..|ids|] == ids;
    }

    method PublishDepartures(previous: map<Id, Process>, next: map<Id, Process>, endedAt: int)
      returns (changes: seq<Change>)
      requires KeyedById(previous)
      modifies this`revision, this`subs, this`log, this`processes
      ensures changes == Departures(previous, Sorted(previous.Keys - next.Keys), endedAt)
      ensures View() == old(View()).PublishAll(changes)
    {
      var ids := Sorted(previous.Keys - next.Keys);
      assert forall id | id in ids :: id in previous by {
        assert forall id :: id in ids <==> id in previous.Keys - next.Keys;
      }
      ghost var start := View();
      changes := [];
      for i := 0 to |ids|
        invariant changes == Departures(previous, ids[..i], endedAt)
        invariant View() == start.PublishAll(changes)
      {
        assert ids[..i + 1][..i] == ids[..i];
        var id := ids[i];
        assert id in previous;
        var change := Change(Ended, EndedRecord(previous[id], endedAt));
        PublishLocked(change);
        processes := processes - {id};
        PublishMore(start, changes, change);
        changes := changes + [change];
      }
      assert ids[..|ids|] == ids;
    }

    /** The snapshot and the stream begin under one lock. */
    method Observe(sub: SubId) returns (at: nat, snapshot: map<Id, Process>)
      requires sub !in subs
      modifies this`subs
      ensures View() == old(View()).Observe(sub) && at == revision && snapshot == processes
    {
      subs := subs[sub := Subscription(revision, processes, [], [], true)];
      return revision, processes;
    }

    method Stop(sub: SubId)
      modifies this`subs
      ensures View() == old(View()).Stop(sub)
    {
      if sub in subs && subs[sub].open {
        subs := subs[sub := subs[sub].(open := false)];
      }
    }
  }

  lemma PublishMore(s: State, changes: seq<Change>, change: Change)
    ensures s.PublishAll(changes + [change]) == s.PublishAll(changes).Publish(change)
  {
    assert (changes + [change])[..|changes|] == changes;
  }

  lemma {:induction false} PublishAllAppend(s: State, first: seq<Change>, second: seq<Change>)
    ensures s.PublishAll(first).PublishAll(second) == s.PublishAll(first + second)
    decreases |second|
  {
    if second == [] {
      assert first + [] == first;
    } else {
      var n := |second| - 1;
      PublishAllAppend(s, first, second[..n]);
      assert (first + second)[..|first| + n] == first + second[..n];
    }
  }

  // ---------------------------------------------------------------- what a replacement announces

  function ApplyAll(processes: map<Id, Process>, changes: seq<Change>): map<Id, Process> {
    if changes == [] then processes
    else Apply(ApplyAll(processes, changes[..|changes| - 1]), changes[|changes| - 1])
  }

  lemma {:induction false} ApplyAllAppend(processes: map<Id, Process>, first: seq<Change>, second: seq<Change>)
    ensures ApplyAll(ApplyAll(processes, first), second) == ApplyAll(processes, first + second)
    decreases |second|
  {
    if second == [] {
      assert first + [] == first;
    } else {
      var n := |second| - 1;
      ApplyAllAppend(processes, first, second[..n]);
      assert (first + second)[..|first| + n] == first + second[..n];
    }
  }

  /** The change is about an id whose record differs, and says how. */
  predicate Announces(previous: map<Id, Process>, next: map<Id, Process>, endedAt: int, change: Change) {
    var id := change.process.id;
    match change.kind
    case Started => id !in previous && id in next && change.process == next[id]
    case Updated => id in previous && id in next && previous[id] != next[id] && change.process == next[id]
    case Ended => id in previous && id !in next && change.process == EndedRecord(previous[id], endedAt)
  }

  /** No two changes are about the same id. */
  predicate OncePerId(changes: seq<Change>) {
    if changes == [] then true
    else
      var before, last := changes[..|changes| - 1], changes[|changes| - 1];
      OncePerId(before) && forall c | c in before :: c.process.id != last.process.id
  }

  function Lookup(processes: map<Id, Process>, id: Id): Option<Process> {
    if id in processes then Some(processes[id]) else None
  }

  predicate Distinct(ids: seq<Id>) { forall i, j | 0 <= i < j < |ids| :: ids[i] != ids[j] }

  lemma ArrivalsNext(previous: map<Id, Process>, next: map<Id, Process>, ids: seq<Id>, i: nat)
    requires i < |ids| && forall id | id in ids :: id in next
    ensures Arrivals(previous, next, ids[..i + 1]) ==
            Arrivals(previous, next, ids[..i]) + Arrival(previous, next, ids[i])
  {
    assert ids[..i + 1][..i] == ids[..i];
  }

  lemma SameRecordIsEquality(left: Process, right: Process)
    ensures SameRecord(left, right) <==> left == right
  {
  }

  lemma SortedDistinct(ids: set<Id>)
    ensures Distinct(Sorted(ids))
  {
    forall i, j | 0 <= i < j < |Sorted(ids)| ensures Sorted(ids)[i] != Sorted(ids)[j] {
      SortedIncreases(ids, i, j);
    }
  }

  lemma OncePerIdMore(changes: seq<Change>, more: Change)
    requires OncePerId(changes) && forall c | c in changes :: c.process.id != more.process.id
    ensures OncePerId(changes + [more])
  {
    assert (changes + [more])[..|changes|] == changes;
  }

  lemma ArrivalAnnounces(previous: map<Id, Process>, next: map<Id, Process>, id: Id, endedAt: int)
    requires id in next && next[id].id == id
    ensures forall c | c in Arrival(previous, next, id) :: Announces(previous, next, endedAt, c) && c.process.id == id
    ensures |Arrival(previous, next, id)| <= 1
  {
  }

  lemma {:induction false} ArrivalsAnnounce(previous: map<Id, Process>, next: map<Id, Process>, ids: seq<Id>,
      endedAt: int)
    requires KeyedById(next) && forall id | id in ids :: id in next
    ensures forall c | c in Arrivals(previous, next, ids) ::
              Announces(previous, next, endedAt, c) && c.process.id in ids
  {
    if ids != [] {
      var n := |ids| - 1;
      ArrivalsAnnounce(previous, next, ids[..n], endedAt);
      assert ids[n] in ids;
      ArrivalAnnounces(previous, next, ids[n], endedAt);
    }
  }

  lemma {:induction false} ArrivalsOnce(previous: map<Id, Process>, next: map<Id, Process>, ids: seq<Id>, endedAt: int)
    requires KeyedById(next) && Distinct(ids) && forall id | id in ids :: id in next
    ensures OncePerId(Arrivals(previous, next, ids))
  {
    if ids != [] {
      var n := |ids| - 1;
      var before, arrival := Arrivals(previous, next, ids[..n]), Arrival(previous, next, ids[n]);
      ArrivalsOnce(previous, next, ids[..n], endedAt);
      ArrivalsAnnounce(previous, next, ids[..n], endedAt);
      assert ids[n] in ids && ids[n] !in ids[..n];
      ArrivalAnnounces(previous, next, ids[n], endedAt);
      if arrival == [] {
        assert before + [] == before;
      } else {
        OncePerIdMore(before, arrival[0]);
        assert arrival == [arrival[0]];
      }
    }
  }

  lemma ArrivalApplied(processes: map<Id, Process>, previous: map<Id, Process>, next: map<Id, Process>, arriving: Id,
      id: Id)
    requires arriving in next && next[arriving].id == arriving
    requires id in previous ==> id == arriving ==> Lookup(processes, id) == Some(previous[id])
    ensures Lookup(ApplyAll(processes, Arrival(previous, next, arriving)), id) ==
            if id == arriving then Some(next[arriving]) else Lookup(processes, id)
  {
    var arrival := Arrival(previous, next, arriving);
    if arrival != [] {
      assert arrival[..0] == [];
    } else {
      SameRecordIsEquality(previous[arriving], next[arriving]);
    }
  }

  lemma {:induction false} ArrivalsApplied(processes: map<Id, Process>, previous: map<Id, Process>, next: map<Id,
      Process>, ids: seq<Id>, id: Id)
    requires KeyedById(next) && Distinct(ids) && forall id | id in ids :: id in next
    requires id in previous ==> Lookup(processes, id) == Some(previous[id])
    ensures Lookup(ApplyAll(processes, Arrivals(previous, next, ids)), id) ==
            if id in ids then Some(next[id]) else Lookup(processes, id)
  {
    if ids != [] {
      var n := |ids| - 1;
      var before := Arrivals(previous, next, ids[..n]);
      ArrivalsApplied(processes, previous, next, ids[..n], id);
      assert id in ids <==> id in ids[..n] || id == ids[n];
      assert ids[n] in ids && ids[n] !in ids[..n];
      ArrivalApplied(ApplyAll(processes, before), previous, next, ids[n], id);
      ApplyAllAppend(processes, before, Arrival(previous, next, ids[n]));
    }
  }

  lemma {:induction false} DeparturesAnnounce(previous: map<Id, Process>, next: map<Id, Process>, ids: seq<Id>,
      endedAt: int)
    requires KeyedById(previous) && Distinct(ids) && forall id | id in ids :: id in previous && id !in next
    ensures forall c | c in Departures(previous, ids, endedAt) ::
              Announces(previous, next, endedAt, c) && c.process.id in ids
    ensures OncePerId(Departures(previous, ids, endedAt))
  {
    if ids != [] {
      var n := |ids| - 1;
      var before := Departures(previous, ids[..n], endedAt);
      DeparturesAnnounce(previous, next, ids[..n], endedAt);
      assert ids[n] in ids && ids[n] !in ids[..n];
      assert Departures(previous, ids, endedAt)[..|before|] == before;
    }
  }

  lemma {:induction false} DeparturesApplied(processes: map<Id, Process>, previous: map<Id, Process>, ids: seq<Id>,
      endedAt: int, id: Id)
    requires KeyedById(previous) && forall id | id in ids :: id in previous
    ensures Lookup(ApplyAll(processes, Departures(previous, ids, endedAt)), id) ==
            if id in ids then None else Lookup(processes, id)
  {
    if ids != [] {
      var n := |ids| - 1;
      var before := Departures(previous, ids[..n], endedAt);
      var last := Change(Ended, EndedRecord(previous[ids[n]], endedAt));
      DeparturesApplied(processes, previous, ids[..n], endedAt, id);
      assert ids == ids[..n] + [ids[n]];
      assert (before + [last])[..|before|] == before;
      assert ApplyAll(processes, before + [last]) == ApplyAll(processes, before) - {ids[n]};
    }
  }

  lemma {:induction false} OncePerIdJoin(first: seq<Change>, second: seq<Change>)
    requires OncePerId(first) && OncePerId(second)
    requires forall c, d | c in first && d in second :: c.process.id != d.process.id
    ensures OncePerId(first + second)
    decreases |second|
  {
    if second == [] {
      assert first + [] == first;
    } else {
      var n := |second| - 1;
      OncePerIdJoin(first, second[..n]);
      assert (first + second)[..|first| + n] == first + second[..n];
      assert second[n] in second;
    }
  }

  /** A replacement announces each record that starts, changes or ends, once, and nothing else. */
  lemma ChangesAnnounce(previous: map<Id, Process>, next: map<Id, Process>, endedAt: int)
    requires KeyedById(previous) && KeyedById(next)
    ensures forall c | c in Changes(previous, next, endedAt) :: Announces(previous, next, endedAt, c)
    ensures OncePerId(Changes(previous, next, endedAt))
  {
    var departing := Sorted(previous.Keys - next.Keys);
    SortedDistinct(next.Keys);
    SortedDistinct(previous.Keys - next.Keys);
    assert forall id | id in departing :: id in previous.Keys - next.Keys;
    ArrivalsAnnounce(previous, next, Sorted(next.Keys), endedAt);
    ArrivalsOnce(previous, next, Sorted(next.Keys), endedAt);
    DeparturesAnnounce(previous, next, departing, endedAt);
    OncePerIdJoin(Arrivals(previous, next, Sorted(next.Keys)), Departures(previous, departing, endedAt));
  }

  /** Applied to an inventory that holds the session's records, the announcements leave exactly the new
      ones in their place, and every other process as it was. */
  lemma ChangesApplied(processes: map<Id, Process>, previous: map<Id, Process>, next: map<Id, Process>, endedAt: int,
      id: Id)
    requires KeyedById(previous) && KeyedById(next)
    requires id in previous ==> Lookup(processes, id) == Some(previous[id])
    ensures Lookup(ApplyAll(processes, Changes(previous, next, endedAt)), id) ==
            if id in next then Some(next[id]) else if id in previous then None else Lookup(processes, id)
  {
    var departing := Sorted(previous.Keys - next.Keys);
    assert forall id | id in departing :: id in previous.Keys - next.Keys;
    var first := Arrivals(previous, next, Sorted(next.Keys));
    SortedDistinct(next.Keys);
    ArrivalsApplied(processes, previous, next, Sorted(next.Keys), id);
    DeparturesApplied(ApplyAll(processes, first), previous, departing, endedAt, id);
    ApplyAllAppend(processes, first, Departures(previous, departing, endedAt));
    assert id in departing <==> id in previous.Keys - next.Keys;
  }

  // ---------------------------------------------------------------- snapshot plus replay

  function ChangesOf(events: seq<Event>): seq<Change> {
    seq(|events|, i requires 0 <= i < |events| => events[i].change)
  }

  /** The inventory after the first `n` events ever published. */
  function InventoryAt(log: seq<Event>, n: nat): map<Id, Process>
    requires n <= |log|
  {
    ApplyAll(map[], ChangesOf(log[..n]))
  }

  ghost predicate Numbered(log: seq<Event>) {
    forall i | 0 <= i < |log| :: log[i].revision == i + 1
  }

  /** What a stream has given or still holds is the log from its snapshot on, without a gap; if it is open
      it reaches the present, and if it was closed it ends where it was closed. */
  ghost predicate StreamOk(log: seq<Event>, s: Subscription) {
    && s.at + |s.All()| <= |log|
    && s.snapshot == InventoryAt(log, s.at)
    && s.All() == log[s.at..s.at + |s.All()|]
    && (s.open ==> s.at + |s.All()| == |log|)
    && |s.buffer| <= BUFFER
  }

  ghost predicate Ok(s: State) {
    && s.revision == |s.log| && Numbered(s.log)
    && s.processes == InventoryAt(s.log, |s.log|)
    && (forall o | o in s.subs :: StreamOk(s.log, s.subs[o]))
  }

  lemma OfferOk(log: seq<Event>, s: Subscription, event: Event)
    requires StreamOk(log, s)
    ensures StreamOk(log + [event], s.Offer(event))
  {
    var longer, offered := log + [event], s.Offer(event);
    assert longer[..s.at] == log[..s.at];
    if s.open && |s.buffer| < BUFFER {
      assert offered.All() == s.All() + [event];
      assert longer[s.at..|longer|] == log[s.at..|log|] + [event];
    } else {
      assert longer[s.at..s.at + |s.All()|] == log[s.at..s.at + |s.All()|];
    }
  }

  lemma PublishOk(s: State, change: Change)
    requires Ok(s)
    ensures Ok(s.Publish(change))
  {
    var next := s.Publish(change);
    var event := next.log[|s.log|];
    assert ChangesOf(next.log[..|next.log|]) == ChangesOf(s.log[..|s.log|]) + [change];
    ApplyAllAppend(map[], ChangesOf(s.log[..|s.log|]), [change]);
    assert ApplyAll(s.processes, [change]) == Apply(s.processes, change) by {
      assert [change][..0] == [];
    }
    forall o | o in next.subs ensures StreamOk(next.log, next.subs[o]) {
      OfferOk(s.log, s.subs[o], event);
    }
  }

  lemma {:induction false} PublishAllOk(s: State, changes: seq<Change>)
    requires Ok(s)
    ensures Ok(s.PublishAll(changes))
    ensures var p := s.PublishAll(changes);
            p.processes == ApplyAll(s.processes, changes) && p.revision == s.revision + |changes|
                && p.sessions == s.sessions
    decreases |changes|
  {
    if changes != [] {
      var n := |changes| - 1;
      PublishAllOk(s, changes[..n]);
      PublishOk(s.PublishAll(changes[..n]), changes[n]);
    }
  }

  datatype Move =
    | Replace(session: nat, next: seq<Process>, endedAt: int)
    | Subscribe(sub: SubId)
    | Receive(sub: SubId)
    | Stop(sub: SubId)

  ghost function Next(s: State, move: Move): State {
    match move
    case Replace(session, next, endedAt) => s.ReplaceSession(session, next, endedAt)
    case Subscribe(sub) => if sub in s.subs then s else s.Observe(sub)
    case Receive(sub) => s.Receive(sub)
    case Stop(sub) => s.Stop(sub)
  }

  ghost function Run(s: State, moves: seq<Move>): State
    decreases |moves|
  {
    if moves == [] then s else Run(Next(s, moves[0]), moves[1..])
  }

  lemma StreamUpdateOk(s: State, sub: SubId, stream: Subscription)
    requires Ok(s) && StreamOk(s.log, stream)
    ensures Ok(s.(subs := s.subs[sub := stream]))
  {
  }

  lemma ReplaceOk(s: State, session: nat, next: seq<Process>, endedAt: int)
    requires Ok(s)
    ensures Ok(s.ReplaceSession(session, next, endedAt))
  {
    PublishAllOk(s, Changes(s.Session(session), ById(next), endedAt));
  }

  lemma SubscribeOk(s: State, sub: SubId)
    requires Ok(s)
    ensures Ok(s.Observe(sub))
  {
    assert s.log[|s.log|..] == [];
    StreamUpdateOk(s, sub, Subscription(s.revision, s.processes, [], [], true));
  }

  lemma ReceiveOk(s: State, sub: SubId)
    requires Ok(s)
    ensures Ok(s.Receive(sub))
  {
    if sub in s.subs && s.subs[sub].buffer != [] {
      var before := s.subs[sub];
      var after := before.(received := before.received + [before.buffer[0]], buffer := before.buffer[1..]);
      assert after.All() == before.All();
      StreamUpdateOk(s, sub, after);
    }
  }

  lemma StopOk(s: State, sub: SubId)
    requires Ok(s)
    ensures Ok(s.Stop(sub))
  {
    if sub in s.subs {
      var after := s.subs[sub].(open := false);
      assert after.All() == s.subs[sub].All();
      StreamUpdateOk(s, sub, after);
    }
  }

  lemma NextOk(s: State, move: Move)
    requires Ok(s)
    ensures Ok(Next(s, move))
  {
    match move
    case Replace(session, next, endedAt) => ReplaceOk(s, session, next, endedAt);
    case Subscribe(sub) => SubscribeOk(s, sub);
    case Receive(sub) => ReceiveOk(s, sub);
    case Stop(sub) => StopOk(s, sub);
  }

  lemma {:induction false} RunOk(s: State, moves: seq<Move>)
    requires Ok(s)
    ensures Ok(Run(s, moves))
    decreases |moves|
  {
    if moves != [] {
      NextOk(s, moves[0]);
      RunOk(Next(s, moves[0]), moves[1..]);
    }
  }

  /** The events carry the revisions after the snapshot without a gap, and applying them to the snapshot
      gives the inventory as it was at the last of them; an open stream's is the inventory now. */
  ghost predicate Replays(s: State, stream: Subscription) {
    var all := stream.received + stream.buffer;
    var end := stream.at + |all|;
    && end <= s.revision == |s.log|
    && (forall i | 0 <= i < |all| :: all[i].revision == stream.at + 1 + i)
    && ApplyAll(stream.snapshot, ChangesOf(all)) == InventoryAt(s.log, end)
    && (stream.open ==> end == s.revision && ApplyAll(stream.snapshot, ChangesOf(all)) == s.processes)
  }

  lemma InventoryFrom(log: seq<Event>, at: nat, end: nat)
    requires at <= end <= |log|
    ensures ApplyAll(InventoryAt(log, at), ChangesOf(log[at..end])) == InventoryAt(log, end)
  {
    ApplyAllAppend(map[], ChangesOf(log[..at]), ChangesOf(log[at..end]));
    assert log[..end] == log[..at] + log[at..end];
    assert ChangesOf(log[..end]) == ChangesOf(log[..at]) + ChangesOf(log[at..end]);
  }

  lemma StreamReplays(s: State, stream: Subscription)
    requires Ok(s) && StreamOk(s.log, stream)
    ensures Replays(s, stream)
  {
    var all := stream.All();
    forall i | 0 <= i < |all| ensures all[i].revision == stream.at + 1 + i {
      assert all[i] == s.log[stream.at + i];
    }
    InventoryFrom(s.log, stream.at, stream.at + |all|);
  }

  /** Whatever replacements, subscriptions, receives and stops came before, every stream replays: complete
      while it is open, and a gap-free prefix once it fell behind and was closed. */
  lemma SnapshotPlusReplay(moves: seq<Move>)
    ensures var s := Run(EMPTY, moves); forall sub | sub in s.subs :: Replays(s, s.subs[sub])
  {
    RunOk(EMPTY, moves);
    var s := Run(EMPTY, moves);
    forall sub | sub in s.subs ensures Replays(s, s.subs[sub]) {
      StreamReplays(s, s.subs[sub]);
    }
  }

  // ---------------------------------------------------------------- a stream ends only when it is full

  lemma {:induction false} LogGrows(s: State, changes: seq<Change>)
    ensures s.log <= s.PublishAll(changes).log && |s.PublishAll(changes).log| == |s.log| + |changes|
    decreases |changes|
  {
    if changes != [] {
      LogGrows(s, changes[..|changes| - 1]);
    }
  }

  lemma SuffixGrows(log: seq<Event>, event: Event, from: nat)
    requires from <= |log|
    ensures (log + [event])[from..] == log[from..] + [event]
  {
  }

  /** What a stream holds after changes are published: what it held, and as many of the events as there was room
      for, and it is open as long as that was all of them. */
  predicate Streamed(before: Subscription, after: Subscription, events: seq<Event>) {
    && (after.open <==> |before.buffer| + |events| <= BUFFER)
    && after.received == before.received && before.buffer <= after.buffer
    && |after.buffer| == Min(BUFFER, |before.buffer| + |events|)
    && (after.open ==> after.buffer == before.buffer + events)
  }

  lemma StreamedMore(before: Subscription, now: Subscription, events: seq<Event>, event: Event)
    requires Streamed(before, now, events) && before.open && |before.buffer| <= BUFFER
    ensures Streamed(before, now.Offer(event), events + [event])
  {
    if now.open {
      assert before.buffer + (events + [event]) == before.buffer + events + [event];
    }
  }

  /** An open stream stays open, with what is published at the end of what it holds, exactly as long as that fits
      the channel; what fitted is kept. */
  lemma {:induction false} OpenWhileItFits(s: State, changes: seq<Change>, o: SubId)
    requires o in s.subs && s.subs[o].open && |s.subs[o].buffer| <= BUFFER
    ensures o in s.PublishAll(changes).subs && |s.PublishAll(changes).log| == |s.log| + |changes|
    ensures Streamed(s.subs[o], s.PublishAll(changes).subs[o], s.PublishAll(changes).log[|s.log|..])
    decreases |changes|
  {
    LogGrows(s, changes);
    if changes == [] {
      assert s.log[|s.log|..] == [];
    } else {
      var q, event := s.PublishAll(changes[..|changes| - 1]), s.PublishAll(changes).log[|s.log| + |changes| - 1];
      LogGrows(s, changes[..|changes| - 1]);
      OpenWhileItFits(s, changes[..|changes| - 1], o);
      OfferMeaning(q, changes[|changes| - 1], o);
      SuffixGrows(q.log, event, |s.log|);
      StreamedMore(s.subs[o], q.subs[o], q.log[|s.log|..], event);
    }
  }

  /** One event: a stream with room for it stays open and holds it last, one without ends holding what it held,
      and an ended one is left alone. */
  lemma OfferMeaning(s: State, change: Change, o: SubId)
    requires o in s.subs
    ensures var before, p := s.subs[o], s.Publish(change);
            && o in p.subs && p.log == s.log + [Event(s.revision + 1, change)]
            && (before.open ==> (p.subs[o].open <==> |before.buffer| < 64))
            && (before.open && p.subs[o].open ==> p.subs[o].buffer == before.buffer + [p.log[|s.log|]])
            && (before.open && !p.subs[o].open ==> p.subs[o].buffer == before.buffer)
            && (!before.open ==> p.subs[o] == before)
            && p.subs[o].received == before.received
  {
  }

  /** The stream is not stopped, and every replacement finds room in it for all it announces. */
  ghost predicate KeepsUp(s: State, moves: seq<Move>, o: SubId)
    requires o in s.subs
    decreases |moves|
  {
    moves != [] ==>
      var next := Next(s, moves[0]);
      && moves[0] != Stop(o)
      && (moves[0].Replace? ==>
            var changes := Changes(s.Session(moves[0].session), ById(moves[0].next), moves[0].endedAt);
            |s.subs[o].buffer| + |changes| <= BUFFER)
      && o in next.subs && KeepsUp(next, moves[1..], o)
  }

  lemma {:induction false} ClosedStays(s: State, moves: seq<Move>, o: SubId)
    requires Ok(s) && o in s.subs && !s.subs[o].open
    ensures o in Run(s, moves).subs && !Run(s, moves).subs[o].open
    decreases |moves|
  {
    if moves != [] {
      NextOk(s, moves[0]);
      NextStream(s, moves[0], o);
      ClosedStays(Next(s, moves[0]), moves[1..], o);
    }
  }

  lemma {:induction false} PublishAllClosed(s: State, changes: seq<Change>, o: SubId)
    requires o in s.subs && !s.subs[o].open
    ensures o in s.PublishAll(changes).subs && s.PublishAll(changes).subs[o] == s.subs[o]
    decreases |changes|
  {
    if changes != [] {
      PublishAllClosed(s, changes[..|changes| - 1], o);
      OfferMeaning(s.PublishAll(changes[..|changes| - 1]), changes[|changes| - 1], o);
    }
  }

  lemma NextStream(s: State, move: Move, o: SubId)
    requires Ok(s) && o in s.subs
    ensures var next := Next(s, move);
            && o in next.subs
            && (!s.subs[o].open ==> !next.subs[o].open)
            && (s.subs[o].open ==>
                  (next.subs[o].open <==>
                     && move != Stop(o)
                     && (move.Replace? ==>
                           |s.subs[o].buffer| +
                           |Changes(s.Session(move.session), ById(move.next), move.endedAt)| <= BUFFER)))
  {
    match move
    case Replace(session, records, endedAt) =>
      var changes := Changes(s.Session(session), ById(records), endedAt);
      if s.subs[o].open {
        OpenWhileItFits(s, changes, o);
      } else {
        PublishAllClosed(s, changes, o);
      }
    case _ =>
  }

  /** Over any run, an open stream is still open if and only if it was not stopped and every replacement found
      room in it for all it announced. */
  lemma {:induction false} OpenIffKeepsUp(s: State, moves: seq<Move>, o: SubId)
    requires Ok(s) && o in s.subs && s.subs[o].open
    ensures o in Run(s, moves).subs && (Run(s, moves).subs[o].open <==> KeepsUp(s, moves, o))
    decreases |moves|
  {
    if moves != [] {
      var next := Next(s, moves[0]);
      NextOk(s, moves[0]);
      NextStream(s, moves[0], o);
      if next.subs[o].open {
        OpenIffKeepsUp(next, moves[1..], o);
      } else {
        ClosedStays(next, moves[1..], o);
      }
    }
  }

  /** A stream begins open, with what is running now and nothing else; and as many receives as it holds give its
      peer all of it, in order, open or ended. */
  lemma {:induction false} ReceivesAll(s: State, o: SubId)
    requires o in s.subs
    ensures var t := Run(s, seq(|s.subs[o].buffer|, _ => Receive(o)));
            o in t.subs && t.subs[o] == s.subs[o].(received := s.subs[o].All(), buffer := [])
    decreases |s.subs[o].buffer|
  {
    var receives := seq(|s.subs[o].buffer|, _ => Receive(o));
    if s.subs[o].buffer == [] {
      assert s.subs[o].All() == s.subs[o].received;
    } else {
      var next := Next(s, receives[0]);
      assert next.subs[o].All() == s.subs[o].All();
      assert receives[1..] == seq(|next.subs[o].buffer|, _ => Receive(o));
      ReceivesAll(next, o);
    }
  }

  lemma SubscribedNow(s: State, o: SubId)
    requires Ok(s) && o !in s.subs
    ensures var next := Next(s, Subscribe(o));
            && o in next.subs && next.subs[o].open && next.subs[o].All() == []
            && next.subs[o].snapshot == s.processes && next.subs[o].at == s.revision
            && !Next(next, Stop(o)).subs[o].open
  {
  }

  // ---------------------------------------------------------------- the inventory is the sessions' records

  /** No other session holds any of the ids. */
  ghost predicate Own(sessions: map<nat, map<Id, Process>>, session: nat, records: map<Id, Process>) {
    forall x, id | In(sessions, x, id) && id in records :: x == session
  }

  /** The inventory holds every session's records, as they are, and nothing else; no two share an id. */
  ghost predicate Unites(s: State) {
    && Keyed(s.sessions)
    && (forall x, y, id | In(s.sessions, x, id) && In(s.sessions, y, id) :: x == y)
    && (forall x, id | In(s.sessions, x, id) :: Lookup(s.processes, id) == Some(s.sessions[x][id]))
    && (forall id | id in s.processes :: exists x :: In(s.sessions, x, id))
  }

  lemma PublishAllProcesses(s: State, changes: seq<Change>)
    ensures s.PublishAll(changes).processes == ApplyAll(s.processes, changes)
    ensures s.PublishAll(changes).sessions == s.sessions
    decreases |changes|
  {
    if changes != [] {
      PublishAllProcesses(s, changes[..|changes| - 1]);
    }
  }

  /** What a replacement leaves, said without how: the session's records are the new ones and the
      inventory has them in place of the old. */
  ghost predicate Replaced(s: State, session: nat, records: map<Id, Process>, t: State) {
    && t.sessions == Filed(s.sessions, session, records)
    && (forall id :: Lookup(t.processes, id) ==
          if id in records then Some(records[id])
          else if id in s.Session(session) then None else Lookup(s.processes, id))
  }

  lemma ReplaceIs(s: State, session: nat, next: seq<Process>, endedAt: int)
    requires Unites(s)
    ensures Replaced(s, session, ById(next), s.ReplaceSession(session, next, endedAt))
  {
    var previous, records := s.Session(session), ById(next);
    PublishAllProcesses(s, Changes(previous, records, endedAt));
    forall id
      ensures Lookup(s.ReplaceSession(session, next, endedAt).processes, id) ==
              if id in records then Some(records[id]) else if id in previous then None else Lookup(s.processes, id)
    {
      assert id in previous ==> In(s.sessions, session, id);
      FiledKeyed(s.sessions, session, records);
      ChangesApplied(s.processes, previous, records, endedAt, id);
    }
  }

  lemma ReplacedSessions(s: State, session: nat, records: map<Id, Process>, t: State)
    requires Replaced(s, session, records, t)
    ensures t.Session(session) == records && (records == map[] ==> session !in t.sessions)
    ensures forall other | other != session :: t.Session(other) == s.Session(other)
  {
  }

  lemma ReplacedUnites(s: State, session: nat, records: map<Id, Process>, t: State)
    requires Unites(s) && KeyedById(records) && Own(s.sessions, session, records)
    requires Replaced(s, session, records, t)
    ensures Unites(t)
  {
    forall x, id ensures In(t.sessions, x, id) <==> if x == session then id in records else In(s.sessions, x, id) {
    }
    FiledKeyed(s.sessions, session, records);
    forall x, id | In(t.sessions, x, id)
      ensures Lookup(t.processes, id) == Some(t.sessions[x][id])
    {
      if x != session {
        assert In(s.sessions, x, id);
        assert id in s.Session(session) ==> In(s.sessions, session, id);
      }
    }
    forall id | id in t.processes
      ensures exists x :: In(t.sessions, x, id)
    {
      assert Lookup(t.processes, id) == Some(t.processes[id]);
      if id in records {
        assert In(t.sessions, session, id);
      } else {
        var x :| In(s.sessions, x, id);
        assert In(t.sessions, x, id);
      }
    }
  }

  /** A replacement with ids of its own leaves the inventory the union of the sessions, this one's records
      now exactly the last given for each id and the others' as they were. An empty replacement leaves no
      record of the session anywhere. */
  lemma ReplaceUnites(s: State, session: nat, next: seq<Process>, endedAt: int)
    requires Unites(s) && Own(s.sessions, session, ById(next))
    ensures Unites(s.ReplaceSession(session, next, endedAt))
    ensures s.ReplaceSession(session, next, endedAt).Session(session) == ById(next)
    ensures forall other | other != session ::
              s.ReplaceSession(session, next, endedAt).Session(other) == s.Session(other)
    ensures next == [] ==> session !in s.ReplaceSession(session, next, endedAt).sessions
  {
    ReplaceIs(s, session, next, endedAt);
    var t := s.ReplaceSession(session, next, endedAt);
    ReplacedSessions(s, session, ById(next), t);
    ReplacedUnites(s, session, ById(next), t);
  }

  /** Every replacement along the run uses ids no other session holds at that moment. */
  ghost predicate OwnIds(s: State, moves: seq<Move>)
    decreases |moves|
  {
    moves != [] ==>
      && (moves[0].Replace? ==> Own(s.sessions, moves[0].session, ById(moves[0].next)))
      && OwnIds(Next(s, moves[0]), moves[1..])
  }

  lemma {:induction false} RunUnites(s: State, moves: seq<Move>)
    requires Unites(s) && OwnIds(s, moves)
    ensures Unites(Run(s, moves))
    decreases |moves|
  {
    if moves != [] {
      match moves[0] {
        case Replace(session, next, endedAt) => ReplaceUnites(s, session, next, endedAt);
        case _ =>
      }
      RunUnites(Next(s, moves[0]), moves[1..]);
    }
  }
}
