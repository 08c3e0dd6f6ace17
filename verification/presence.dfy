/** Who is showing a session, and when nobody has been for too long. */
module Presence {
  import opened Base

  type Time = int

  type ObserverId = nat

  type Token = string

  datatype State = State(
    generation: nat,
    attached: bool,
    observers: set<ObserverId>,
    tokens: map<Token, ObserverId>,
    displaying: set<ObserverId>,
    detachedAt: Option<Time>,
    writtenAt: Option<Time>)
  {
    /** A renderer, or an observer showing the session to someone. */
    predicate Present() { attached || displaying != {} }

    function AttachRenderer(): State {
      this.(generation := NextGeneration(generation), attached := true, detachedAt := None)
    }

    function DetachRenderer(holder: nat, now: Time): State {
      if attached && generation == holder then this.(attached := false).Stamp(now) else this
    }

    function DetachActive(now: Time): State {
      if attached then this.(attached := false).Stamp(now) else this
    }

    function Stamp(now: Time): State {
      if Present() then this else this.(detachedAt := Some(now))
    }

    function Show(observer: ObserverId): State {
      this.(displaying := displaying + {observer}, detachedAt := None)
    }

    /** A token names an observer that is already subscribed; without one `id` is a new observer. */
    function Observe(token: Token, id: ObserverId, displays: bool): Option<State> {
      if token != "" then
        if token !in tokens then None
        else
          var taken := this.(tokens := tokens - {token});
          Some(if displays then taken.Show(tokens[token]) else taken)
      else
        var joined := this.(observers := observers + {id});
        Some(if displays then joined.Show(id) else joined)
    }

    function RemoveObserver(observer: ObserverId, now: Time): State {
      var left := this.(
        observers := observers - {observer},
        displaying := displaying - {observer},
        tokens := map t | t in tokens && tokens[t] != observer :: tokens[t]);
      if observer in displaying && detachedAt.None? then left.Stamp(now) else left
    }

    function SetDisplays(token: Token, displays: bool, now: Time): Option<State> {
      if token !in tokens then None
      else if displays then Some(Show(tokens[token]))
      else if tokens[token] in displaying then Some(this.(displaying := displaying - {tokens[token]}).Stamp(now))
      else Some(this)
    }

    /** Shows the session without clearing when it was last detached. */
    function AdoptObserver(token: Token, observer: ObserverId, displays: bool): State {
      this.(observers := observers + {observer}, tokens := tokens[token := observer],
            displaying := if displays then displaying + {observer} else displaying)
    }

    function Wrote(now: Time): State { this.(writtenAt := Some(now)) }

    predicate AbandonedSince(moment: Time) {
      && !Present()
      && detachedAt.Some? && detachedAt.value < moment
      && (writtenAt.None? || writtenAt.value < moment)
    }
  }

  function NextGeneration(generation: nat): nat {
    var next := (generation + 1) % TWO_64;
    if next == 0 then 1 else next
  }

  class Session {
    var generation: nat
    var attached: bool
    var observers: set<ObserverId>
    var tokens: map<Token, ObserverId>
    var displaying: set<ObserverId>
    var detachedAt: Option<Time>
    var writtenAt: Option<Time>

    function View(): State
      reads this
    {
      State(generation, attached, observers, tokens, displaying, detachedAt, writtenAt)
    }

    predicate PresenceLocked()
      reads this
    {
      attached || |displaying| > 0
    }

    method AttachRenderer() returns (holder: nat)
      modifies this
      ensures View() == old(View()).AttachRenderer() && holder == generation != 0
    {
      generation := (generation + 1) % TWO_64;
      if generation == 0 {
        generation := 1;
      }
      attached, detachedAt := true, None;
      return generation;
    }

    method DetachRenderer(holder: nat, now: Time)
      modifies this
      ensures View() == old(View()).DetachRenderer(holder, now)
    {
      if attached && generation == holder {
        attached := false;
        if !PresenceLocked() {
          detachedAt := Some(now);
        }
      }
    }

    method DetachActiveRenderer(now: Time) returns (detached: bool)
      modifies this
      ensures View() == old(View()).DetachActive(now) && detached == old(attached)
    {
      detached := attached;
      attached := false;
      if detached && !PresenceLocked() {
        detachedAt := Some(now);
      }
    }

    method Observe(token: Token, id: ObserverId, displays: bool) returns (ok: bool)
      modifies this
      ensures ok == old(View()).Observe(token, id, displays).Some?
      ensures View() == if ok then old(View()).Observe(token, id, displays).value else old(View())
    {
      var observer := id;
      if token != "" {
        if token !in tokens {
          return false;
        }
        observer := tokens[token];
        tokens := tokens - {token};
      } else {
        observers := observers + {id};
      }
      if displays {
        displaying, detachedAt := displaying + {observer}, None;
      }
      return true;
    }

    method RemoveObserver(observer: ObserverId, now: Time)
      modifies this
      ensures View() == old(View()).RemoveObserver(observer, now)
    {
      var showed := observer in displaying;
      observers := observers - {observer};
      displaying := displaying - {observer};
      tokens := map t | t in tokens && tokens[t] != observer :: tokens[t];
      if showed && !PresenceLocked() && detachedAt.None? {
        detachedAt := Some(now);
      }
    }

    method SetDisplays(token: Token, displays: bool, now: Time) returns (ok: bool)
      modifies this
      ensures ok == old(View()).SetDisplays(token, displays, now).Some?
      ensures View() == if ok then old(View()).SetDisplays(token, displays, now).value else old(View())
    {
      if token !in tokens {
        return false;
      }
      var observer := tokens[token];
      if displays {
        displaying, detachedAt := displaying + {observer}, None;
        return true;
      }
      if observer in displaying {
        displaying := displaying - {observer};
        if !PresenceLocked() {
          detachedAt := Some(now);
        }
      }
      return true;
    }

    method AdoptObserver(token: Token, observer: ObserverId, displays: bool)
      modifies this
      ensures View() == old(View()).AdoptObserver(token, observer, displays)
    {
      observers := observers + {observer};
      tokens := tokens[token := observer];
      if displays {
        displaying := displaying + {observer};
      }
    }
  }

  /** The registry's sweep over what it holds: a session is ended if and only if it has been abandoned
      since before the window, and the rest are kept. */
  method EndAbandoned(sessions: map<nat, State>, now: Time, abandonAfter: int)
    returns (kept: map<nat, State>, ended: set<nat>)
    ensures ended == set id | id in sessions && abandonAfter > 0 && sessions[id].AbandonedSince(now - abandonAfter)
    ensures kept == map id | id in sessions && id !in ended :: sessions[id]
  {
    kept, ended := sessions, {};
    if abandonAfter <= 0 {
      return;
    }
    var deadline := now - abandonAfter;
    var pending := sessions.Keys;
    while pending != {}
      invariant pending <= sessions.Keys
      invariant ended == set id | id in sessions && id !in pending && sessions[id].AbandonedSince(deadline)
      invariant kept == map id | id in sessions && id !in ended :: sessions[id]
      decreases pending
    {
      var id :| id in pending;
      pending := pending - {id};
      if sessions[id].AbandonedSince(deadline) {
        ended := ended + {id};
        kept := kept - {id};
      }
    }
  }

  // ---------------------------------------------------------------- abandonment is earned

  /** The session beside a clock that never goes back, with what the clock saw: the last instant at which
      something showed the session, and the last at which it printed. */
  datatype World = World(session: State, now: Time, lastPresent: Option<Time>, lastOutput: Option<Time>)

  datatype Act =
    | Attach
    | Detach(holder: nat)
    | DetachAny
    | Observes(token: Token, id: ObserverId, displays: bool)
    | Remove(id: ObserverId)
    | Displays(token: Token, displays: bool)
    | Adopt(token: Token, id: ObserverId, displays: bool)
    | Print

  function Apply(s: State, act: Act, at: Time): State {
    match act
    case Attach => s.AttachRenderer()
    case Detach(holder) => s.DetachRenderer(holder, at)
    case DetachAny => s.DetachActive(at)
    case Observes(token, id, displays) => (match s.Observe(token, id, displays) case None => s case Some(n) => n)
    case Remove(id) => s.RemoveObserver(id, at)
    case Displays(token, displays) => (match s.SetDisplays(token, displays, at) case None => s case Some(n) => n)
    case Adopt(token, id, displays) => s.AdoptObserver(token, id, displays)
    case Print => s.Wrote(at)
  }

  datatype Timed = Timed(wait: nat, act: Act)

  /** Time passes, then the act happens; whatever showed the session did so up to that instant. */
  function Next(w: World, t: Timed): World {
    var at := w.now + t.wait;
    var session := Apply(w.session, t.act, at);
    World(session, at,
          if w.session.Present() || session.Present() then Some(at) else w.lastPresent,
          if t.act.Print? then Some(at) else w.lastOutput)
  }

  function Run(w: World, acts: seq<Timed>): World
    decreases |acts|
  {
    if acts == [] then w else Run(Next(w, acts[0]), acts[1..])
  }

  predicate Before(a: Option<Time>, moment: Time) { a.None? || a.value < moment }

  /** While something shows the session no detach is on record; one on record is no earlier than the last
      instant of presence. */
  predicate Honest(w: World) {
    && (w.session.Present() ==> w.session.detachedAt.None? && w.lastPresent.Some?)
    && (w.session.detachedAt.Some? ==>
          && w.lastPresent.Some? && w.lastPresent.value <= w.session.detachedAt.value <= w.now)
    && w.session.writtenAt == w.lastOutput
  }

  /** Adopting an observer that shows the session is safe unless a detach is on record. */
  predicate Safe(w: World, act: Act) {
    act.Adopt? && act.displays ==> w.session.detachedAt.None?
  }

  ghost predicate SafeRun(w: World, acts: seq<Timed>)
    decreases |acts|
  {
    acts != [] ==> Safe(w, acts[0].act) && SafeRun(Next(w, acts[0]), acts[1..])
  }

  /** A step keeps the record honest if and only if it is safe. */
  lemma HonestStep(w: World, t: Timed)
    requires Honest(w)
    ensures Honest(Next(w, t)) <==> Safe(w, t.act)
    ensures Safe(w, t.act) && w.session.Present() && !Next(w, t).session.Present() ==>
              Next(w, t).session.detachedAt == Some(Next(w, t).now)
  {
    if t.act.Adopt? && t.act.displays {
      assert t.act.id in Next(w, t).session.displaying;
    }
  }

  lemma {:induction false} HonestRun(w: World, acts: seq<Timed>)
    requires Honest(w) && SafeRun(w, acts)
    ensures Honest(Run(w, acts))
    decreases |acts|
  {
    if acts != [] {
      HonestStep(w, acts[0]);
      HonestRun(Next(w, acts[0]), acts[1..]);
    }
  }

  /** A session as it is opened: no renderer, the observers it was opened with and the tokens bound to them,
      and those of them that show it. */
  function Opened(
    now: Time, observers: set<ObserverId>, tokens: map<Token, ObserverId>, shown: set<ObserverId>): World
  {
    World(State(0, false, observers, tokens, shown, None, None), now,
          if shown != {} then Some(now) else None, None)
  }

  /** A session a sweep may end at any moment has been shown to nobody and printed nothing at any instant
      from the moment on, and was shown to someone before it; one that nothing ever showed is never ended. */
  lemma AbandonmentIsEarned(
    now: Time, observers: set<ObserverId>, tokens: map<Token, ObserverId>, shown: set<ObserverId>,
    acts: seq<Timed>, moment: Time)
    requires SafeRun(Opened(now, observers, tokens, shown), acts)
    ensures var w := Run(Opened(now, observers, tokens, shown), acts);
            w.session.AbandonedSince(moment) ==>
              && !w.session.Present()
              && w.lastPresent.Some? && w.lastPresent.value < moment
              && Before(w.lastOutput, moment)
  {
    HonestRun(Opened(now, observers, tokens, shown), acts);
  }

  /** And when nothing shows the session, the detach on record is the last instant something did. */
  predicate Stamped(w: World) {
    Honest(w) && (!w.session.Present() && w.lastPresent.Some? ==> w.session.detachedAt == w.lastPresent)
  }

  lemma StampedStep(w: World, t: Timed)
    requires Stamped(w) && Safe(w, t.act)
    ensures Stamped(Next(w, t))
  {
    HonestStep(w, t);
  }

  lemma {:induction false} StampedRun(w: World, acts: seq<Timed>)
    requires Stamped(w) && SafeRun(w, acts)
    ensures Stamped(Run(w, acts))
    decreases |acts|
  {
    if acts != [] {
      StampedStep(w, acts[0]);
      StampedRun(Next(w, acts[0]), acts[1..]);
    }
  }

  /** From any open, over any safe run: a sweep may end a session if and only if something showed it once, nothing
      shows it now or has since before the deadline, and it printed nothing from the deadline on. */
  lemma AbandonedExactly(
    now: Time, observers: set<ObserverId>, tokens: map<Token, ObserverId>, shown: set<ObserverId>,
    acts: seq<Timed>, moment: Time)
    requires SafeRun(Opened(now, observers, tokens, shown), acts)
    ensures var w := Run(Opened(now, observers, tokens, shown), acts);
            w.session.AbandonedSince(moment) <==>
              && !w.session.Present()
              && w.lastPresent.Some? && w.lastPresent.value < moment
              && Before(w.lastOutput, moment)
  {
    StampedRun(Opened(now, observers, tokens, shown), acts);
  }

  // ---------------------------------------------------------------- who shows the session

  /** The renderer that attached last shows the session until its own detach, or anyone's of the active one. */
  lemma RendererShows(s: State, holder: nat, now: Time)
    ensures s.AttachRenderer().Present() && s.AttachRenderer().attached
    ensures s.AttachRenderer().generation != s.generation && s.AttachRenderer().generation != 0
    ensures s.AttachRenderer().DetachRenderer(holder, now).attached <==> holder != s.AttachRenderer().generation
    ensures !s.AttachRenderer().DetachActive(now).attached
    ensures s.displaying == {} ==>
              s.AttachRenderer().DetachRenderer(s.AttachRenderer().generation, now).detachedAt == Some(now)
  {
  }

  /** An observer that joins, or is named by a token, shows the session exactly as it says, until it says
      otherwise or is removed; and no other observer is affected. */
  lemma ObserverShows(s: State, token: Token, id: ObserverId, other: ObserverId, displays: bool, now: Time)
    requires other != id && s.Observe("", id, displays).Some?
    ensures var joined := s.Observe("", id, displays).value;
            && id in joined.observers && (displays ==> id in joined.displaying && joined.Present())
            && (id !in s.displaying && !displays ==> id !in joined.displaying)
            && (other in joined.displaying <==> other in s.displaying)
    ensures var adopted := s.AdoptObserver(token, id, displays);
            && id in adopted.observers && token in adopted.tokens && adopted.tokens[token] == id
            && adopted.SetDisplays(token, displays, now).Some?
            && (id in adopted.SetDisplays(token, displays, now).value.displaying <==> displays)
            && (other in adopted.SetDisplays(token, displays, now).value.displaying <==> other in s.displaying)
    ensures var left := s.RemoveObserver(id, now);
            && id !in left.observers && id !in left.displaying && (forall t | t in left.tokens :: left.tokens[t] != id)
            && (other in left.displaying <==> other in s.displaying)
            && (other in left.observers <==> other in s.observers)
  {
  }

  /** A sweep would end the session, though something showed it at or after the deadline. */
  predicate EndedUnearned(w: World, moment: Time) {
    w.session.AbandonedSince(moment) && !Before(w.lastPresent, moment)
  }

  /** Adopting an observer that shows the session, and removing it any time later, lets a sweep end the session
      unearned if and only if a detach was on record when it was adopted, and that detach and the last output
      are before the deadline while the removal is not. */
  lemma AdoptThenRemove(w: World, token: Token, id: ObserverId, a: nat, b: nat, moment: Time)
    requires Honest(w)
    ensures var end := Next(Next(w, Timed(a, Adopt(token, id, true))), Timed(b, Remove(id)));
            EndedUnearned(end, moment) <==>
              && !Safe(w, Adopt(token, id, true))
              && w.session.detachedAt.value < moment <= w.now + a + b
              && Before(w.lastOutput, moment)
  {
    var shown := Next(w, Timed(a, Adopt(token, id, true)));
    assert id in shown.session.displaying;
    if !Safe(w, Adopt(token, id, true)) {
      assert w.session.displaying == {};
      assert shown.session.displaying == {id} && {id} - {id} == {};
    }
  }

  /** Runs that adopt no observer are safe. */
  lemma {:induction false} NoAdoptIsSafe(w: World, acts: seq<Timed>)
    requires forall t | t in acts :: !t.act.Adopt?
    ensures SafeRun(w, acts)
    decreases |acts|
  {
    if acts != [] {
      NoAdoptIsSafe(Next(w, acts[0]), acts[1..]);
    }
  }

  /** One such case from the open on: detached at 10, shown again from 20 to 100, and at 100 abandoned
      since before 50. */
  lemma AdoptedSessionEndedEarly()
    ensures var acts := [Timed(0, Attach), Timed(10, DetachAny), Timed(10, Adopt("t", 7, true)), Timed(80, Remove(7))];
            var w := Run(Opened(0, {}, map[], {}), acts);
            w.now == 100 && w.lastPresent == Some(100) && w.session.AbandonedSince(50)
  {
    var w0 := Opened(0, {}, map[], {});
    var w1 := Next(w0, Timed(0, Attach));
    var w2 := Next(w1, Timed(10, DetachAny));
    var w3 := Next(w2, Timed(10, Adopt("t", 7, true)));
    assert 7 in w3.session.displaying;
    var w4 := Next(w3, Timed(80, Remove(7)));
    assert w3.session.displaying - {7} == {};
    var a4 := [Timed(80, Remove(7))];
    var a3 := [Timed(10, Adopt("t", 7, true))] + a4;
    var a2 := [Timed(10, DetachAny)] + a3;
    var a1 := [Timed(0, Attach)] + a2;
    assert a4[1..] == [] && a3[1..] == a4 && a2[1..] == a3 && a1[1..] == a2;
    assert Run(w4, []) == w4 && Run(w3, a4) == w4 && Run(w2, a3) == w4 && Run(w1, a2) == w4 && Run(w0, a1) == w4;
  }

  // ---------------------------------------------------------------- superseded renderers

  function GenerationAfter(holder: nat, attaches: nat): nat {
    if attaches == 0 then holder else NextGeneration(GenerationAfter(holder, attaches - 1))
  }

  /** The counter skips zero, which no holder is ever handed. */
  lemma NextIs(generation: nat)
    requires 1 <= generation < TWO_64
    ensures NextGeneration(generation) == if generation == TWO_64 - 1 then 1 else generation + 1
  {
  }

  lemma {:induction false} GenerationIs(holder: nat, attaches: nat)
    requires 1 <= holder < TWO_64
    ensures GenerationAfter(holder, attaches) == (holder - 1 + attaches) % (TWO_64 - 1) + 1
  {
    if attaches > 0 {
      GenerationIs(holder, attaches - 1);
      var turn := holder - 1 + (attaches - 1);
      ModStep(turn, TWO_64 - 1);
      NextIs(turn % (TWO_64 - 1) + 1);
    }
  }

  lemma ModStep(a: nat, m: nat)
    requires m > 1
    ensures (a + 1) % m == if a % m == m - 1 then 0 else a % m + 1
  {
    var q, r := a / m, a % m;
    assert a == m * q + r;
    if r == m - 1 {
      assert a + 1 == m * (q + 1);
      ModUnique(a + 1, m, q + 1, 0);
    } else {
      ModUnique(a + 1, m, q, r + 1);
    }
  }

  lemma ModUnique(a: nat, m: nat, q: nat, r: nat)
    requires m > 0 && r < m && a == m * q + r
    ensures a % m == r
  {
    var d := a / m - q;
    assert m * d == r - a % m;
  }

  /** A handle handed out, then `attaches` more: the handle names the renderer again only after the
      counter went all the way round, so within that the superseded holder's detach changes nothing. */
  lemma SupersededDetach(s: State, holder: nat, attaches: nat, now: Time)
    requires 1 <= holder < TWO_64 && s.generation == GenerationAfter(holder, attaches)
    ensures s.generation == holder <==> attaches % (TWO_64 - 1) == 0
    ensures 0 < attaches < TWO_64 - 1 ==> s.DetachRenderer(holder, now) == s
  {
    var m := TWO_64 - 1;
    GenerationIs(holder, attaches);
    var q, r := attaches / m, attaches % m;
    assert attaches == m * q + r;
    if holder - 1 + r < m {
      ModUnique(holder - 1 + attaches, m, q, holder - 1 + r);
    } else {
      assert holder - 1 + attaches == m * (q + 1) + (holder - 1 + r - m);
      ModUnique(holder - 1 + attaches, m, q + 1, holder - 1 + r - m);
    }
  }
}
