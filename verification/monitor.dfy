/** The race between a session starting to be watched, its process tree changing, and its end. Starts may
    be duplicated and notifications may be late; once the end has been reported, no record of the session
    is in the ledger and none is added.

    A goroutine waiting for a lock has read nothing that matters, so any number of them may be waiting:
    what is tracked is where the one inside each lock is, and where the end of the session is. */
module Monitor {
  import opened Base
  import L = Ledger

  type MonitorId = nat

  /** Inside the lock over the map of monitors: a start, which holds it throughout, or the end. */
  datatype MapHolder =
    | Free
    | Looking
    | Inserting
    | Shell(m: MonitorId)
    | WatchWait(m: MonitorId)
    | Watching(m: MonitorId)
    | SyncWait(m: MonitorId)
    | Syncing(m: MonitorId)
    | Publishing(m: MonitorId)
    | Leaving
    | Taking
  {
    /** A start that inserted its monitor and has not finished with it. */
    predicate Underway() { Shell? || WatchWait? || Watching? || SyncWait? || Syncing? || Publishing? }
  }

  /** Inside one monitor's lock: the start, a notification's reconcile, or the end. */
  datatype MonitorHolder = Nobody | TheStart | NoteLooking | NotePublishing | TheEnd

  datatype Mon = Mon(inside: MonitorHolder, closed: bool)

  /** How far the one goroutine that ends the session is. */
  datatype End =
    | Open
    | Marked
    | InMap
    | CloseWait(m: MonitorId)
    | Closing(m: MonitorId)
    | Replacing
    | Ended

  datatype State = State(
    session: nat,
    closed: bool,
    mapLock: MapHolder,
    entry: Option<MonitorId>,
    monitors: map<MonitorId, Mon>,
    end: End,
    filed: set<nat>) // the sessions the ledger has records of
  {
    function Inside(m: MonitorId, who: MonitorHolder): State
      requires m in monitors
    {
      this.(monitors := monitors[m := monitors[m].(inside := who)])
    }

    function Replace(records: seq<L.Process>): State {
      this.(filed := File(filed, session, records))
    }
  }

  /** The sessions the ledger has records of, after one is replaced. */
  function File(filed: set<nat>, session: nat, records: seq<L.Process>): set<nat> {
    if records == [] then filed - {session} else filed + {session}
  }

  lemma FileIsReplaceSession(ledger: L.State, session: nat, records: seq<L.Process>, at: int)
    ensures ledger.ReplaceSession(session, records, at).sessions.Keys ==
            File(ledger.sessions.Keys, session, records)
  {
    L.PublishAllProcesses(ledger, L.Changes(ledger.Session(session), L.ById(records), at));
    if records != [] {
      assert records[|records| - 1].id in L.ById(records);
    }
  }

  /** What a step reads from outside: the tree's records, whether reading them failed, an unused monitor. */
  datatype Input = Input(records: seq<L.Process>, fails: bool, unused: MonitorId)

  datatype Move =
    | StartEnters
    | StartSteps(input: Input)
    | NoteEnters(m: MonitorId)
    | NoteSteps(m: MonitorId, input: Input)
    | EndMarks
    | EndSteps
    | Elsewhere(session: nat, records: seq<L.Process>)

  /** Every step any goroutine can take; one that is not enabled changes nothing. */
  function Next(s: State, move: Move): State {
    match move
    case StartEnters => if s.mapLock.Free? then s.(mapLock := Looking) else s
    case StartSteps(input) => StartStep(s, input)
    case NoteEnters(m) =>
      if m in s.monitors && s.monitors[m].inside.Nobody? then s.Inside(m, NoteLooking) else s
    case NoteSteps(m, input) => if m in s.monitors then NoteStep(s, m, input) else s
    case EndMarks => if s.closed then s else s.(closed := true, end := Marked)
    case EndSteps => EndStep(s)
    case Elsewhere(session, records) =>
      if session == s.session then s else s.(filed := File(s.filed, session, records))
  }

  function StartStep(s: State, input: Input): State {
    match s.mapLock
    case Looking => s.(mapLock := if s.closed then Leaving else Inserting)
    case Inserting =>
      if s.entry.Some? then s.(mapLock := Leaving)
      else if input.unused in s.monitors then s
      else
        s.(entry := Some(input.unused), monitors := s.monitors[input.unused := Mon(Nobody, false)],
           mapLock := Shell(input.unused))
    case Shell(m) => s.Replace(input.records).(mapLock := WatchWait(m))
    case WatchWait(m) => StartEntersMonitor(s, m, Watching(m))
    case Watching(m) => if m in s.monitors then s.Inside(m, Nobody).(mapLock := SyncWait(m)) else s
    case SyncWait(m) => StartEntersMonitor(s, m, Syncing(m))
    case Syncing(m) =>
      if m !in s.monitors then s
      else if s.monitors[m].closed || input.fails then s.Inside(m, Nobody).(mapLock := Leaving)
      else s.(mapLock := Publishing(m))
    case Publishing(m) =>
      if m in s.monitors then s.Replace(input.records).Inside(m, Nobody).(mapLock := Leaving) else s
    case Leaving => s.(mapLock := Free)
    case _ => s
  }

  function StartEntersMonitor(s: State, m: MonitorId, inside: MapHolder): State {
    if m in s.monitors && s.monitors[m].inside.Nobody? then s.Inside(m, TheStart).(mapLock := inside) else s
  }

  function NoteStep(s: State, m: MonitorId, input: Input): State
    requires m in s.monitors
  {
    match s.monitors[m].inside
    case NoteLooking => s.Inside(m, if s.monitors[m].closed || input.fails then Nobody else NotePublishing)
    case NotePublishing => s.Replace(input.records).Inside(m, Nobody)
    case _ => s
  }

  function EndStep(s: State): State {
    match s.end
    case Marked => if s.mapLock.Free? then s.(mapLock := Taking, end := InMap) else s
    case InMap =>
      s.(mapLock := Free, entry := None, end := if s.entry.Some? then CloseWait(s.entry.value) else Replacing)
    case CloseWait(m) =>
      if m in s.monitors && s.monitors[m].inside.Nobody? then s.Inside(m, TheEnd).(end := Closing(m)) else s
    case Closing(m) =>
      if m !in s.monitors then s
      else if s.monitors[m].closed then s.Inside(m, Nobody).(end := Ended)
      else s.(monitors := s.monitors[m := Mon(Nobody, true)], end := Replacing)
    case Replacing => s.Replace([]).(end := Ended)
    case _ => s
  }

  function Begin(session: nat, filed: set<nat>): State {
    State(session, false, Free, None, map[], Open, filed)
  }

  // ---------------------------------------------------------------- the invariant

  /** Each lock has the one inside it that says so. */
  ghost predicate Locked(s: State) {
    && (s.mapLock.Taking? <==> s.end.InMap?)
    && (s.mapLock.Underway() ==> s.entry == Some(s.mapLock.m))
    && (forall m | m in s.monitors ::
          && (s.monitors[m].inside.TheStart? <==> s.mapLock in {Watching(m), Syncing(m), Publishing(m)})
          && (s.monitors[m].inside.TheEnd? <==> s.end == Closing(m)))
  }

  /** Until the end takes the entry there is at most the monitor of that entry, open; from then on no start
      adds anything, and the one monitor there was is being closed or is closed. */
  ghost predicate Phased(s: State) {
    && (s.closed <==> !s.end.Open?)
    && (s.end.Open? || s.end.Marked? || s.end.InMap? ==>
          && s.monitors.Keys == (if s.entry.Some? then {s.entry.value} else {})
          && (forall m | m in s.monitors :: !s.monitors[m].closed))
    && (!(s.end.Open? || s.end.Marked? || s.end.InMap?) ==>
          s.entry.None? && (s.mapLock.Free? || s.mapLock.Looking? || s.mapLock.Leaving?))
    && (s.end.CloseWait? || s.end.Closing? ==> s.monitors.Keys == {s.end.m} && !s.monitors[s.end.m].closed)
    && (s.end.Replacing? || s.end.Ended? ==> forall m | m in s.monitors :: s.monitors[m].closed)
  }

  /** A reconcile about to publish does so on an open monitor; after the end nothing is there. */
  ghost predicate Quiet(s: State) {
    && (forall m | m in s.monitors && s.monitors[m].inside.NotePublishing? :: !s.monitors[m].closed)
    && (s.end.Ended? ==> s.session !in s.filed)
  }

  ghost predicate Ok(s: State) { Locked(s) && Phased(s) && Quiet(s) }

  lemma StartLocked(s: State, input: Input)
    requires Ok(s)
    ensures Locked(StartStep(s, input))
  {
  }

  lemma StartPhased(s: State, input: Input)
    requires Ok(s)
    ensures Phased(StartStep(s, input)) && Quiet(StartStep(s, input))
  {
  }

  lemma StartOk(s: State, input: Input)
    requires Ok(s)
    ensures Ok(StartStep(s, input))
  {
    StartLocked(s, input);
    StartPhased(s, input);
  }

  lemma NoteLocked(s: State, m: MonitorId, input: Input)
    requires Ok(s) && m in s.monitors
    ensures Locked(NoteStep(s, m, input))
  {
  }

  lemma NotePhased(s: State, m: MonitorId, input: Input)
    requires Ok(s) && m in s.monitors
    ensures Phased(NoteStep(s, m, input)) && Quiet(NoteStep(s, m, input))
  {
  }

  lemma NoteOk(s: State, m: MonitorId, input: Input)
    requires Ok(s) && m in s.monitors
    ensures Ok(NoteStep(s, m, input))
  {
    NoteLocked(s, m, input);
    NotePhased(s, m, input);
  }

  lemma EndOk(s: State)
    requires Ok(s)
    ensures Ok(EndStep(s))
  {
  }

  lemma NextOk(s: State, move: Move)
    requires Ok(s)
    ensures Ok(Next(s, move))
  {
    match move
    case StartSteps(input) => StartOk(s, input);
    case NoteSteps(m, input) =>
      if m in s.monitors {
        NoteOk(s, m, input);
      }
    case EndSteps => EndOk(s);
    case _ =>
  }

  function Run(s: State, moves: seq<Move>): State
    decreases |moves|
  {
    if moves == [] then s else Run(Next(s, moves[0]), moves[1..])
  }

  lemma {:induction false} RunOk(s: State, moves: seq<Move>)
    requires Ok(s)
    ensures Ok(Run(s, moves))
    ensures Run(s, moves).session == s.session
    ensures s.end.Ended? ==> Run(s, moves).end.Ended?
    decreases |moves|
  {
    if moves != [] {
      NextOk(s, moves[0]);
      RunOk(Next(s, moves[0]), moves[1..]);
    }
  }

  /** In every interleaving of any number of starts, notifications, reconciles, ends and changes to other
      sessions: from the moment the end has returned, the ledger holds no record of the session. */
  lemma ClosedStaysClosed(session: nat, filed: set<nat>, moves: seq<Move>, later: seq<Move>)
    requires Run(Begin(session, filed), moves).end.Ended?
    ensures session !in Run(Begin(session, filed), moves).filed
    ensures session !in Run(Run(Begin(session, filed), moves), later).filed
  {
    RunOk(Begin(session, filed), moves);
    RunOk(Run(Begin(session, filed), moves), later);
  }

  lemma EndsInFive(s: State)
    requires Ok(s) && s.end.Marked? && s.mapLock.Free?
    requires forall m | m in s.monitors :: s.monitors[m].inside.Nobody?
    ensures EndStep(EndStep(EndStep(EndStep(EndStep(s))))).end.Ended?
  {
    EndOk(s);
    var taking := EndStep(s);
    EndOk(taking);
    var taken := EndStep(taking);
    assert taken.end.CloseWait? ==> taken.end.m in taken.monitors;
  }

  lemma RunEnd(s: State, rest: seq<Move>)
    ensures Run(s, [EndSteps] + rest) == Run(EndStep(s), rest)
  {
    assert ([EndSteps] + rest)[1..] == rest;
  }

  /** The end of a session does return once whoever is inside the locks has left them. */
  lemma EndReturns(s: State)
    requires Ok(s) && s.end.Marked? && s.mapLock.Free?
    requires forall m | m in s.monitors :: s.monitors[m].inside.Nobody?
    ensures Run(s, [EndSteps, EndSteps, EndSteps, EndSteps, EndSteps]).end.Ended?
  {
    EndsInFive(s);
    RunEnds(s);
  }

  lemma RunEnds(s: State)
    ensures Run(s, [EndSteps, EndSteps, EndSteps, EndSteps, EndSteps]) ==
            EndStep(EndStep(EndStep(EndStep(EndStep(s)))))
  {
    var s1 := EndStep(s);
    var s2 := EndStep(s1);
    var s3 := EndStep(s2);
    var s4 := EndStep(s3);
    RunEnd(s, [EndSteps, EndSteps, EndSteps, EndSteps]);
    RunEnd(s1, [EndSteps, EndSteps, EndSteps]);
    RunEnd(s2, [EndSteps, EndSteps]);
    RunEnd(s3, [EndSteps]);
    RunEnd(s4, []);
  }

  // ---------------------------------------------------------------- starts and notifications do publish

  lemma RunFirst(s: State, move: Move, rest: seq<Move>)
    ensures Run(s, [move] + rest) == Run(Next(s, move), rest)
  {
    assert ([move] + rest)[1..] == rest;
  }

  /** A start that finds the lock free, the session open and unwatched files the shell's record. */
  lemma StartFiles(s: State, input: Input)
    requires Ok(s) && s.mapLock.Free? && !s.closed && s.entry.None?
    requires input.unused !in s.monitors && input.records != []
    ensures var end := Run(s, [StartEnters, StartSteps(input), StartSteps(input), StartSteps(input)]);
            s.session in end.filed && end.entry == Some(input.unused) && end.mapLock == WatchWait(input.unused)
  {
    var entered := Next(s, StartEnters);
    var looked := StartStep(entered, input);
    var inserted := StartStep(looked, input);
    RunFirst(s, StartEnters, [StartSteps(input), StartSteps(input), StartSteps(input)]);
    RunFirst(entered, StartSteps(input), [StartSteps(input), StartSteps(input)]);
    RunFirst(looked, StartSteps(input), [StartSteps(input)]);
    RunFirst(inserted, StartSteps(input), []);
  }

  /** And one that finds the session closed, or watched already, files nothing and leaves. */
  lemma StartLeaves(s: State, input: Input)
    requires Ok(s) && s.mapLock.Free? && (s.closed || s.entry.Some?)
    ensures var end := Run(s, [StartEnters, StartSteps(input), StartSteps(input), StartSteps(input)]);
            end.filed == s.filed && end.monitors == s.monitors
  {
    var entered := Next(s, StartEnters);
    var looked := StartStep(entered, input);
    var next := StartStep(looked, input);
    RunFirst(s, StartEnters, [StartSteps(input), StartSteps(input), StartSteps(input)]);
    RunFirst(entered, StartSteps(input), [StartSteps(input), StartSteps(input)]);
    RunFirst(looked, StartSteps(input), [StartSteps(input)]);
    RunFirst(next, StartSteps(input), []);
  }

  /** A notification on an open monitor whose reading does not fail publishes what it read, and leaves. */
  lemma NotePublishes(s: State, m: MonitorId, input: Input)
    requires Ok(s) && m in s.monitors && s.monitors[m].inside.Nobody? && !s.monitors[m].closed && !input.fails
    ensures var end := Run(s, [NoteEnters(m), NoteSteps(m, input), NoteSteps(m, input)]);
            && end.filed == File(s.filed, s.session, input.records)
            && (s.session in end.filed <==> input.records != [])
            && end.monitors == s.monitors
  {
    var entered := Next(s, NoteEnters(m));
    var looked := Next(entered, NoteSteps(m, input));
    RunFirst(s, NoteEnters(m), [NoteSteps(m, input), NoteSteps(m, input)]);
    RunFirst(entered, NoteSteps(m, input), [NoteSteps(m, input)]);
    RunFirst(looked, NoteSteps(m, input), []);
    assert Next(looked, NoteSteps(m, input)).monitors == s.monitors;
  }

  /** So does the reconcile that ends a start, and one that fails publishes nothing; both let the lock go. */
  lemma StartReconciles(s: State, input: Input)
    requires Ok(s) && s.mapLock.Syncing? && !s.monitors[s.mapLock.m].closed
    ensures !input.fails ==>
              var end := Run(s, [StartSteps(input), StartSteps(input), StartSteps(input)]);
              end.filed == File(s.filed, s.session, input.records) && end.mapLock.Free?
    ensures input.fails ==>
              var end := Run(s, [StartSteps(input), StartSteps(input)]);
              end.filed == s.filed && end.mapLock.Free?
  {
    var synced := StartStep(s, input);
    var published := StartStep(synced, input);
    RunFirst(s, StartSteps(input), [StartSteps(input), StartSteps(input)]);
    RunFirst(synced, StartSteps(input), [StartSteps(input)]);
    RunFirst(published, StartSteps(input), []);
    RunFirst(s, StartSteps(input), [StartSteps(input)]);
    RunFirst(synced, StartSteps(input), []);
  }
}
