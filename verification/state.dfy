/** The inspector's session: the script's global variables gathered into one
    immutable record, together with the browser's pending timers (on a
    virtual clock) and the requests in flight. Also the invariant that ties
    the debounce table, the auto-refresh handle and the editing handle to
    the timers that are actually pending. */
module State {
  import opened Base
  import opened Scene
  import opened Protocol

  /** A `setTimeout`/`setInterval` handle. */
  type TimerId = nat

  /** What a pending timer will do when it fires. */
  datatype Task =
    | GraceClear                              // stopEditing's callback: isEditing = false
    | Debounced(key: string, action: Action)  // a debounce table callback
    | RefreshTick(period: nat)                // the auto-refresh interval, re-armed on each tick

  datatype Timer = Timer(due: int, task: Task)

  /** The delay `stopEditing` waits before clearing the editing flag. */
  const GraceMs: nat := 500

  /** The delay of both debounce helpers. */
  const DebounceMs: nat := 300

  /** `refreshIntervalMs` before any settings are saved. */
  const DefaultRefreshMs: nat := 2000

  datatype Session = Session(
    actors: seq<Actor>,               // actors
    selected: Option<int>,            // selectedActorId
    components: seq<Component>,       // componentsData
    isEditing: bool,                  // isEditing
    editTimeout: Option<TimerId>,     // editTimeout
    enginePaused: bool,               // enginePaused: the write gate
    debounce: map<string, TimerId>,   // updateDebounceTimers
    autoRefresh: bool,                // autoRefreshEnabled
    updateInterval: Option<TimerId>,  // updateInterval
    refreshMs: int,                   // refreshIntervalMs
    timers: map<TimerId, Timer>,      // the browser's pending timers
    nextTimer: TimerId,               // the next handle the browser hands out
    now: int,                         // the virtual clock, in ms
    inflight: multiset<Request>)      // requests sent and not yet answered

  /** The result of one event: the next session, the requests it sends,
      and its effects on the page. */
  datatype Outcome = Outcome(next: Session, sent: seq<Request>, effects: seq<Effect>)

  function Quiet(s: Session): Outcome {
    Outcome(s, [], [])
  }

  function Send(s: Session, r: Request): Outcome {
    Outcome(s, [r], [])
  }

  /** `setTimeout`/`setInterval`: a fresh handle, due `delay` ms from now. */
  function SetTimer(s: Session, delay: int, task: Task): (Session, TimerId) {
    var id := s.nextTimer;
    (s.(timers := s.timers[id := Timer(s.now + Clamp(delay), task)], nextTimer := id + 1), id)
  }

  /** `clearTimeout`/`clearInterval`: no effect on a handle that has fired. */
  function ClearTimer(s: Session, id: TimerId): Session {
    s.(timers := s.timers - {id})
  }

  /** `selectedActorId` as `if (selectedActorId)` reads it: null and 0 are falsy. */
  predicate SelectionTruthy(selected: Option<int>) {
    selected.Some? && selected.value != 0
  }

  // ---------------------------------------------------------------------------
  // The invariant
  // ---------------------------------------------------------------------------

  /** Handles are never reused. */
  ghost predicate Fresh(s: Session) {
    && (forall id | id in s.timers :: id < s.nextTimer)
    && (s.editTimeout.Some? ==> s.editTimeout.value < s.nextTimer)
  }

  /** The debounce table and the pending debounce timers match one to one,
      and each timer sits under the key of its own action: at most one timer
      per key is ever pending. */
  ghost predicate DebounceConsistent(s: Session) {
    && (forall k | k in s.debounce ::
          && s.debounce[k] in s.timers
          && s.timers[s.debounce[k]].task.Debounced?
          && s.timers[s.debounce[k]].task.key == k)
    && (forall id | id in s.timers && s.timers[id].task.Debounced? ::
          && s.timers[id].task.key in s.debounce
          && s.debounce[s.timers[id].task.key] == id
          && s.timers[id].task.key == KeyOf(s.timers[id].task.action))
  }

  /** Auto-refresh is on exactly when `updateInterval` holds a handle, and
      that handle is the only pending interval. */
  ghost predicate IntervalConsistent(s: Session) {
    && (s.autoRefresh <==> s.updateInterval.Some?)
    && (s.updateInterval.Some? ==>
          s.updateInterval.value in s.timers && s.timers[s.updateInterval.value].task.RefreshTick?)
    && (forall id | id in s.timers && s.timers[id].task.RefreshTick? :: s.updateInterval == Some(id))
  }

  /** `editTimeout`, while its timer is pending, names a grace timer. */
  ghost predicate GraceHandleConsistent(s: Session) {
    s.editTimeout.Some? && s.editTimeout.value in s.timers ==>
      s.timers[s.editTimeout.value].task.GraceClear?
  }

  ghost predicate Wf(s: Session) {
    && Fresh(s)
    && DebounceConsistent(s)
    && IntervalConsistent(s)
    && GraceHandleConsistent(s)
  }

  /** The fields the invariant reads are the same in both sessions. */
  predicate SameTimers(s: Session, t: Session) {
    && t.timers == s.timers
    && t.nextTimer == s.nextTimer
    && t.now == s.now
    && t.debounce == s.debounce
    && t.autoRefresh == s.autoRefresh
    && t.updateInterval == s.updateInterval
    && t.editTimeout == s.editTimeout
    && t.isEditing == s.isEditing
  }

  lemma SameTimersWf(s: Session, t: Session)
    requires Wf(s) && SameTimers(s, t)
    ensures Wf(t)
  {
  }

  /** The debounce table and the pending debounce timers are kept, and no
      debounce timer appears: what every event other than an input and a
      debounce callback leaves alone. */
  ghost predicate DebounceFrame(s: Session, t: Session) {
    && t.debounce == s.debounce
    && (forall id | id in s.timers && s.timers[id].task.Debounced? :: id in t.timers && t.timers[id] == s.timers[id])
    && (forall id | id in t.timers && t.timers[id].task.Debounced? :: id in s.timers)
  }

  /** No grace timer is created. */
  ghost predicate NoNewGrace(s: Session, t: Session) {
    forall id | id in t.timers && t.timers[id].task.GraceClear? :: id in s.timers && s.timers[id].task.GraceClear?
  }

  /** A live debounce timer for `k` that will run `a`. */
  ghost predicate LiveFor(s: Session, k: string, a: Action) {
    && k in s.debounce
    && s.debounce[k] in s.timers
    && s.timers[s.debounce[k]].task == Debounced(k, a)
  }

  /** The page right after `DOMContentLoaded`: the connection probe and the
      engine status request are out, and auto-refresh runs every `DefaultRefreshMs`.
      `stored` is the refresh interval saved in the browser, if any; it is
      read after the interval has started, so a truthy stored value becomes
      `refreshMs` without changing the running interval's period. */
  function Init(stored: Option<int>): (s: Session)
    ensures Wf(s)
    ensures s.autoRefresh && s.updateInterval == Some(1)
    ensures s.timers == map[1 := Timer(DefaultRefreshMs, RefreshTick(DefaultRefreshMs))]
    ensures s.refreshMs == (if stored.Some? && stored.value != 0 then stored.value else DefaultRefreshMs)
    ensures !s.isEditing && !s.enginePaused && s.selected.None? && s.debounce == map[]
    ensures s.inflight == multiset{ConnectionProbe, EngineStatusFetch}
  {
    Session(
      actors := [],
      selected := None,
      components := [],
      isEditing := false,
      editTimeout := None,
      enginePaused := false,
      debounce := map[],
      autoRefresh := true,
      updateInterval := Some(1),
      refreshMs := if stored.Some? && stored.value != 0 then stored.value else DefaultRefreshMs,
      timers := map[1 := Timer(DefaultRefreshMs, RefreshTick(DefaultRefreshMs))],
      nextTimer := 2,
      now := 0,
      inflight := multiset{ConnectionProbe, EngineStatusFetch})
  }
}
