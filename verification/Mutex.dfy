// The asynchronous mutex under every interleaving of its callers (src/common/Mutex.ts).
//
// Between two awaits a task runs without interruption, so one turn of `lockAsync` is atomic: a
// compare-exchange, and, if that fails, the registration of a one-shot listener. `unlock` emits
// synchronously: every listener is resolved and removed before it returns.
module Mutexes {

  type Task = nat

  /** The shared word takes two values only. */
  type Word = w | 0 <= w <= 1

  const LOCKED: Word := 1
  const UNLOCKED: Word := 0

  /** A woken task has been resolved but has not run its next turn yet. */
  datatype Phase = Idle | Parked | Woken | Holding

  datatype State = State(word: Word, listeners: set<Task>, phases: map<Task, Phase>) {
    function PhaseOf(t: Task): Phase {
      if t in phases then phases[t] else Idle
    }

    predicate Holds(t: Task) {
      PhaseOf(t) == Holding
    }
  }

  const FREE := State(UNLOCKED, {}, map[])

  datatype Event = Lock(task: Task) | Resume(task: Task) | Unlock(task: Task)

  /** One turn of `lockAsync`, first or repeated. */
  function Turn(s: State, t: Task): State {
    if s.word == UNLOCKED then s.(word := LOCKED, phases := s.phases[t := Holding])
    else s.(listeners := s.listeners + {t}, phases := s.phases[t := Parked])
  }

  /** Resolves every listener. */
  function Wake(phases: map<Task, Phase>, listeners: set<Task>): map<Task, Phase> {
    map t | t in phases.Keys + listeners :: if t in listeners then Woken else phases[t]
  }

  /** Any task may call `unlock`; a holder stops holding. On a free word it throws and changes nothing. */
  function Release(s: State, t: Task): State {
    if s.word == UNLOCKED then s
    else State(UNLOCKED, {}, Wake(if s.Holds(t) then s.phases[t := Idle] else s.phases, s.listeners))
  }

  predicate Enabled(s: State, e: Event) {
    match e
    case Lock(t) => s.PhaseOf(t) == Idle
    case Resume(t) => s.PhaseOf(t) == Woken
    case Unlock(_) => true
  }

  function Step(s: State, e: Event): State {
    match e
    case Lock(t) => Turn(s, t)
    case Resume(t) => Turn(s, t)
    case Unlock(t) => Release(s, t)
  }

  /**
   * At most one task holds, the word says so, exactly the parked tasks listen, and nobody is parked
   * while the lock is free.
   */
  ghost predicate Safe(s: State) {
    && (forall t, u :: s.Holds(t) && s.Holds(u) ==> t == u)
    && (s.word == LOCKED <==> exists t :: s.Holds(t))
    && (forall t :: t in s.listeners <==> s.PhaseOf(t) == Parked)
    && (s.word == UNLOCKED ==> s.listeners == {})
  }

  lemma TurnSafe(s: State, t: Task)
    requires Safe(s) && (s.PhaseOf(t) == Idle || s.PhaseOf(t) == Woken)
    ensures Safe(Turn(s, t))
    ensures Turn(s, t).Holds(t) <==> s.word == UNLOCKED
  {
    var after := Turn(s, t);
    forall u
      ensures after.Holds(u) <==> if u == t then s.word == UNLOCKED else s.Holds(u)
      ensures u in after.listeners <==> after.PhaseOf(u) == Parked
    {
    }
    if s.word == LOCKED {
      var u :| s.Holds(u);
      assert after.Holds(u);
    } else {
      assert after.Holds(t);
    }
  }

  /** Releasing a held lock keeps everything safe exactly when the caller is the holder. */
  lemma {:induction false} ReleaseSafeIff(s: State, t: Task)
    requires Safe(s) && s.word == LOCKED
    ensures Safe(Release(s, t)) <==> s.Holds(t)
  {
    var after := Release(s, t);
    var holder :| s.Holds(holder);
    forall u
      ensures after.Holds(u) <==> s.Holds(u) && !(u == t)
      ensures after.PhaseOf(u) != Parked
    {
      assert holder !in s.listeners;
    }
    if t != holder {
      assert after.Holds(holder);
    }
  }

  /** Callers unlock only what they hold, or throw on a free lock. */
  predicate Disciplined(s: State, e: Event) {
    e.Unlock? && s.word == LOCKED ==> s.Holds(e.task)
  }

  function Run(s: State, events: seq<Event>): State
    decreases |events|
  {
    if events == [] then s else Run(Step(s, events[0]), events[1..])
  }

  predicate DisciplinedRun(s: State, events: seq<Event>)
    decreases |events|
  {
    events == []
    || (Enabled(s, events[0]) && Disciplined(s, events[0]) && DisciplinedRun(Step(s, events[0]), events[1..]))
  }

  lemma StepSafe(s: State, e: Event)
    requires Safe(s) && Enabled(s, e) && Disciplined(s, e)
    ensures Safe(Step(s, e))
  {
    hide Safe, Turn, Release;
    match e {
      case Lock(t) => TurnSafe(s, t);
      case Resume(t) => TurnSafe(s, t);
      case Unlock(t) => UnlockSafe(s, t);
    }
  }

  lemma UnlockSafe(s: State, t: Task)
    requires Safe(s) && (s.word == LOCKED ==> s.Holds(t))
    ensures Safe(Release(s, t))
  {
    if s.word == LOCKED {
      hide Release;
      ReleaseSafeIff(s, t);
    }
  }

  /** Every interleaving of any number of tasks is safe. */
  lemma {:induction false} RunSafe(s: State, events: seq<Event>)
    requires Safe(s) && DisciplinedRun(s, events)
    ensures Safe(Run(s, events))
    decreases |events|
  {
    hide Safe, Step, Enabled, Disciplined;
    if events != [] {
      StepSafe(s, events[0]);
      RunSafe(Step(s, events[0]), events[1..]);
    }
  }

  // --- Acquisitions and releases over a run ---------------------------------------------------

  datatype Mark = Acquired(task: Task) | Released(task: Task)

  /** What one step adds to the record of who had the lock. */
  function MarkOf(s: State, e: Event): seq<Mark> {
    if e.Unlock? then (if s.word == LOCKED then [Released(e.task)] else [])
    else if s.word == UNLOCKED then [Acquired(e.task)]
    else []
  }

  function Marks(s: State, events: seq<Event>): seq<Mark>
    decreases |events|
  {
    if events == [] then [] else MarkOf(s, events[0]) + Marks(Step(s, events[0]), events[1..])
  }

  /** Acquisitions and releases take turns, each release by the task that acquired last. */
  predicate Alternates(marks: seq<Mark>, holder: int)
    decreases |marks|
  {
    marks == []
    || match marks[0]
       case Acquired(t) => holder == -1 && Alternates(marks[1..], t)
       case Released(t) => holder == t && Alternates(marks[1..], -1)
  }

  ghost predicate HolderIs(s: State, holder: int) {
    if holder == -1 then s.word == UNLOCKED else holder >= 0 && s.word == LOCKED && s.Holds(holder)
  }

  /** Critical sections never overlap: in every run the record alternates. */
  lemma {:induction false} CriticalSectionsAlternate(s: State, events: seq<Event>, holder: int)
    requires Safe(s) && DisciplinedRun(s, events) && HolderIs(s, holder)
    ensures Alternates(Marks(s, events), holder)
    decreases |events|
  {
    if events != [] {
      var e := events[0];
      StepSafe(s, e);
      var next := HolderAfter(s, e, holder);
      hide Safe, Step, Enabled, Disciplined, HolderIs;
      CriticalSectionsAlternate(Step(s, e), events[1..], next);
      var rest := Marks(Step(s, e), events[1..]);
      assert ([Acquired(e.task)] + rest)[1..] == rest && ([Released(e.task)] + rest)[1..] == rest && [] + rest == rest;
    }
  }

  lemma HolderAfter(s: State, e: Event, holder: int) returns (next: int)
    requires Safe(s) && Enabled(s, e) && Disciplined(s, e) && HolderIs(s, holder)
    ensures HolderIs(Step(s, e), next)
    ensures MarkOf(s, e) == [] ==> next == holder
    ensures MarkOf(s, e) == [Acquired(e.task)] ==> holder == -1 && next == e.task
    ensures MarkOf(s, e) == [Released(e.task)] ==> holder == e.task && next == -1
  {
    next := if e.Unlock? then -1 else if s.word == UNLOCKED then e.task else holder;
    if !e.Unlock? && s.word == LOCKED {
      assert Step(s, e).Holds(holder);
    }
  }

  // --- Waiting tasks --------------------------------------------------------------------------

  /** The task called `lockAsync` at some point of the run, and has not acquired the lock since. */
  ghost predicate Asked(s: State, events: seq<Event>, t: Task) {
    exists k :: 0 <= k < |events| && events[k] == Lock(t) && Acquired(t) !in Marks(Run(s, events[..k]), events[k..])
  }

  lemma {:induction false} RunAppend(s: State, events: seq<Event>, e: Event)
    ensures Run(s, events + [e]) == Step(Run(s, events), e)
    ensures Marks(s, events + [e]) == Marks(s, events) + MarkOf(Run(s, events), e)
    ensures DisciplinedRun(s, events + [e]) <==>
      DisciplinedRun(s, events) && Enabled(Run(s, events), e) && Disciplined(Run(s, events), e)
    decreases |events|
  {
    hide Step, Enabled, Disciplined, MarkOf;
    var more := events + [e];
    if events == [] {
      assert more == [e] && more[1..] == [];
    } else {
      assert more[0] == events[0] && more[1..] == events[1..] + [e];
      RunAppend(Step(s, events[0]), events[1..], e);
    }
  }

  lemma OneMark(s: State, e: Event)
    ensures Marks(s, [e]) == MarkOf(s, e)
  {
    hide MarkOf, Step;
    assert [e][1..] == [];
  }

  /** One more event: the task asks now, or it asked before and does not acquire now. */
  lemma {:induction false} AskedOneMore(s: State, events: seq<Event>, e: Event, t: Task)
    ensures Asked(s, events + [e], t)
            <==> Acquired(t) !in MarkOf(Run(s, events), e) && (e == Lock(t) || Asked(s, events, t))
  {
    hide Run, Marks, MarkOf, Step;
    var more, n := events + [e], |events|;
    assert more[..n] == events && more[n..] == [e];
    OneMark(Run(s, events), e);
    forall k | 0 <= k < n
      ensures more[..k] == events[..k] && more[k] == events[k]
      ensures Marks(Run(s, events[..k]), more[k..]) == Marks(Run(s, events[..k]), events[k..]) + MarkOf(Run(s, events), e)
    {
      assert more[k..] == events[k..] + [e];
      RunAppend(Run(s, events[..k]), events[k..], e);
      RunSplit(s, events, k);
    }
    if Asked(s, more, t) {
      var k :| 0 <= k < |more| && more[k] == Lock(t) && Acquired(t) !in Marks(Run(s, more[..k]), more[k..]);
      assert k < n ==> Acquired(t) !in Marks(Run(s, events[..k]), events[k..]);
    }
    if Acquired(t) !in MarkOf(Run(s, events), e) {
      if e == Lock(t) {
        assert more[n] == Lock(t) && Acquired(t) !in Marks(Run(s, more[..n]), more[n..]);
      } else if Asked(s, events, t) {
        var k :| 0 <= k < n && events[k] == Lock(t) && Acquired(t) !in Marks(Run(s, events[..k]), events[k..]);
        assert more[k] == Lock(t) && Acquired(t) !in Marks(Run(s, more[..k]), more[k..]);
      }
    }
  }

  lemma {:induction false} RunSplit(s: State, events: seq<Event>, k: nat)
    requires k <= |events|
    ensures Run(Run(s, events[..k]), events[k..]) == Run(s, events)
    decreases k
  {
    hide Step;
    if k > 0 {
      assert events[..k][0] == events[0] && events[..k][1..] == events[1..][..k - 1] && events[1..][k - 1..] == events[k..];
      RunSplit(Step(s, events[0]), events[1..], k - 1);
    } else {
      assert events[..0] == [] && events[0..] == events;
    }
  }

  /** A task waits: it listens, or it was resolved and has not run its next turn yet. */
  predicate Waits(s: State, t: Task) {
    s.PhaseOf(t) == Parked || s.PhaseOf(t) == Woken
  }

  lemma {:induction false} WaitsOneMore(s: State, e: Event, t: Task)
    requires Safe(s) && Enabled(s, e) && Disciplined(s, e)
    ensures Waits(Step(s, e), t) <==> Acquired(t) !in MarkOf(s, e) && (e == Lock(t) || Waits(s, t))
  {
  }

  /** In every run, exactly the tasks that asked for the lock and did not get it are waiting for it. */
  lemma {:induction false} WaitsIffAsked(events: seq<Event>, t: Task)
    requires DisciplinedRun(FREE, events)
    ensures Waits(Run(FREE, events), t) <==> Asked(FREE, events, t)
    decreases |events|
  {
    hide Run, Marks, MarkOf, Step, DisciplinedRun, Waits, Asked, Safe, Enabled, Disciplined;
    if events == [] {
      NobodyAsked(t);
    } else {
      var n := |events| - 1;
      var front, e := events[..n], events[n];
      assert events == front + [e];
      RunAppend(FREE, front, e);
      WaitsIffAsked(front, t);
      FreeIsSafe();
      RunSafe(FREE, front);
      WaitsOneMore(Run(FREE, front), e, t);
      AskedOneMore(FREE, front, e, t);
    }
  }

  lemma NobodyAsked(t: Task)
    ensures !Asked(FREE, [], t) && !Waits(Run(FREE, []), t)
  {
  }

  lemma FreeIsSafe()
    ensures Safe(FREE)
  {
  }

  /**
   * No wake-up is lost. At any point of any run, for any task that asked for the lock and has not
   * acquired it since: if the lock is free, its next turn is due and acquires the lock; if it is held,
   * the task listens for the next unlock or its next turn is due. No other task has a turn due.
   */
  lemma {:induction false} NoLostWakeup(events: seq<Event>, t: Task)
    requires DisciplinedRun(FREE, events)
    ensures var s := Run(FREE, events);
      && (s.word == UNLOCKED ==>
            (Asked(FREE, events, t) <==> Enabled(s, Resume(t)))
            && (Asked(FREE, events, t) ==> Step(s, Resume(t)).Holds(t))
            && (forall u :: !s.Holds(u) && s.PhaseOf(u) != Parked)
            && (forall u :: Step(s, Lock(u)).Holds(u) && Step(s, Resume(u)).Holds(u)))
      && (s.word == LOCKED ==>
            (Asked(FREE, events, t) <==> t in s.listeners || Enabled(s, Resume(t)))
            && exists u :: s.Holds(u) && forall v :: s.Holds(v) ==> v == u)
      && (Enabled(s, Resume(t)) ==> Asked(FREE, events, t))
  {
    hide Run, DisciplinedRun, Asked;
    FreeIsSafe();
    RunSafe(FREE, events);
    WaitsIffAsked(events, t);
    var s := Run(FREE, events);
    if s.word == LOCKED {
      var u :| s.Holds(u);
      assert forall v :: s.Holds(v) ==> v == u;
    }
  }

  /** An unlock makes the next turn of every waiting task due. */
  lemma {:induction false} UnlockWakesAll(s: State, holder: Task, t: Task)
    requires Safe(s) && s.Holds(holder) && Waits(s, t)
    ensures Enabled(Step(s, Unlock(holder)), Resume(t))
  {
  }

  // --- The mutex ------------------------------------------------------------------------------

  class Mutex {
    var word: Word
    var listeners: set<Task>
    ghost var phases: map<Task, Phase>

    ghost function Abstract(): State
      reads this
    {
      State(word, listeners, phases)
    }

    constructor ()
      ensures Abstract() == FREE
    {
      word, listeners, phases := UNLOCKED, {}, map[];
    }

    method CompareExchange(expected: Word, replacement: Word) returns (oldVal: Word)
      modifies this`word
      ensures oldVal == old(word)
      ensures word == if oldVal == expected then replacement else oldVal
    {
      oldVal := word;
      if oldVal == expected {
        word := replacement;
      }
    }

    /** One pass through the loop of `lockAsync` by task `t`: acquired, or parked until the next unlock. */
    method LockTurn(t: Task) returns (acquired: bool)
      modifies this
      ensures Abstract() == Turn(old(Abstract()), t)
      ensures acquired <==> old(word) == UNLOCKED
      ensures old(Safe(Abstract()) && (Enabled(Abstract(), Lock(t)) || Enabled(Abstract(), Resume(t)))) ==>
        Safe(Abstract()) && (acquired <==> Abstract().Holds(t))
    {
      if Safe(Abstract()) && (Enabled(Abstract(), Lock(t)) || Enabled(Abstract(), Resume(t))) {
        TurnSafe(Abstract(), t);
      }
      var oldVal := CompareExchange(UNLOCKED, LOCKED);
      if oldVal == UNLOCKED {
        phases := phases[t := Holding];
        return true;
      }
      listeners := listeners + {t};
      phases := phases[t := Parked];
      return false;
    }

    method Unlock(ghost t: Task) returns (thrown: bool)
      modifies this
      ensures Abstract() == Release(old(Abstract()), t)
      ensures thrown <==> old(word) == UNLOCKED
      ensures old(Safe(Abstract()) && Disciplined(Abstract(), Event.Unlock(t))) ==> Safe(Abstract())
    {
      if Safe(Abstract()) && Disciplined(Abstract(), Event.Unlock(t)) {
        UnlockSafe(Abstract(), t);
      }
      var oldVal := CompareExchange(LOCKED, UNLOCKED);
      if oldVal == UNLOCKED {
        return true;
      }
      phases := Wake(if Abstract().Holds(t) then phases[t := Idle] else phases, listeners);
      listeners := {};
      return false;
    }
  }
}
