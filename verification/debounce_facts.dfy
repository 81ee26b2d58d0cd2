/** What the debounce table guarantees over whole traces: the latest input
    for a field is the only write for that field that can still run, it
    stays pending until its own timer fires, and when that timer fires it
    runs exactly that write and its key leaves the table. */
module DebounceFacts {
  import opened Base
  import opened Protocol
  import opened State
  import Debounce
  import opened Engine
  import Invariant

  /** The action an input event schedules, if it is one. */
  function InputAction(e: Event): (r: Option<Action>)
    ensures r.Some? <==> e.TransformInput? || e.ComponentInput?
  {
    match e
    case TransformInput(actor, part, axis, coord) => Some(TransformEdit(actor, part, axis, coord))
    case ComponentInput(component, property, value) => Some(ComponentEdit(component, property, value))
    case _ => None
  }

  /** The input event that schedules `a`. */
  function InputEvent(a: Action): (e: Event)
    ensures InputAction(e) == Some(a)
  {
    match a
    case TransformEdit(actor, part, axis, coord) => TransformInput(actor, part, axis, coord)
    case ComponentEdit(component, property, value) => ComponentInput(component, property, value)
  }

  /** The event is an input on the field with key `k`. */
  predicate InputFor(e: Event, k: string) {
    InputAction(e).Some? && KeyOf(InputAction(e).value) == k
  }

  /** Every pending debounce timer for `k` runs `a`. */
  ghost predicate OnlyRuns(s: Session, k: string, a: Action) {
    forall id | id in s.timers && s.timers[id].task.Debounced? && s.timers[id].task.key == k ::
      s.timers[id].task.action == a
  }

  /** Neither an input nor the firing of a pending debounce timer. */
  predicate Neutral(s: Session, e: Event) {
    InputAction(e).None? && !(e.Fire? && e.timer in s.timers && s.timers[e.timer].task.Debounced?)
  }

  ghost predicate NoActionRan(effects: seq<Effect>) {
    forall k, b :: ActionRan(k, b) !in effects
  }

  lemma StepIsHandle(s: Session, e: Event)
    ensures Step(s, e).next == Handle(s, e).next.(inflight := Step(s, e).next.inflight)
    ensures Step(s, e).effects == Handle(s, e).effects
  {
  }

  lemma NeutralFire(s: Session, id: TimerId)
    requires Wf(s) && Neutral(s, Fire(id))
    ensures DebounceFrame(s, Handle(s, Fire(id)).next) && NoActionRan(Handle(s, Fire(id)).effects)
  {
  }

  lemma NeutralReply(s: Session, req: Request, r: Response)
    requires Wf(s)
    ensures DebounceFrame(s, Handle(s, Reply(req, r)).next) && NoActionRan(Handle(s, Reply(req, r)).effects)
  {
    if req in s.inflight {
      var o := Answer(s, req, r);
      assert SameTimers(s, o.next);
    }
  }

  /** Events other than inputs and debounce timers leave the debounce table
      and its timers alone, and run no write from it. */
  lemma StepNeutral(s: Session, e: Event)
    requires Wf(s) && Neutral(s, e)
    ensures DebounceFrame(s, Step(s, e).next) && NoActionRan(Step(s, e).effects)
  {
    StepIsHandle(s, e);
    match e
    case Fire(id) => NeutralFire(s, id);
    case Reply(req, r) => NeutralReply(s, req, r);
    case _ =>
  }

  /** A pending debounce timer fires (if due): it and its key are removed,
      and it runs exactly its own write. */
  lemma StepFireDebounced(s: Session, id: TimerId)
    requires id in s.timers && s.timers[id].task.Debounced?
    ensures var o := Step(s, Fire(id)); var t := s.timers[id];
      && (t.due <= s.now ==>
            && o.next.timers == s.timers - {id}
            && o.next.debounce == s.debounce - {t.task.key}
            && o.effects == [ActionRan(t.task.key, t.task.action)])
      && (t.due > s.now ==> o.next.timers == s.timers && o.next.debounce == s.debounce && o.effects == [])
  {
    StepIsHandle(s, Fire(id));
  }

  /** An input schedules its own action and touches no other timer. */
  lemma StepInput(s: Session, e: Event)
    requires InputAction(e).Some?
    ensures var o := Step(s, e); var a := InputAction(e).value;
      && o.next.timers == Debounce.Schedule(s, a).next.timers
      && o.next.debounce == Debounce.Schedule(s, a).next.debounce
      && o.effects == []
  {
    StepIsHandle(s, e);
  }

  /** Every debounce timer after the event was pending before, unchanged,
      or is the one the event's input scheduled; and a write runs only
      when the event fires that write's own timer. */
  ghost predicate DebounceStep(s: Session, e: Event, o: Outcome) {
    && (forall id | id in o.next.timers && o.next.timers[id].task.Debounced? ::
          || (id in s.timers && o.next.timers[id] == s.timers[id])
          || (InputAction(e).Some? &&
              o.next.timers[id].task == Debounced(KeyOf(InputAction(e).value), InputAction(e).value)))
    && (forall k, b | ActionRan(k, b) in o.effects ::
          e.Fire? && e.timer in s.timers && s.timers[e.timer].task == Debounced(k, b))
  }

  lemma DebounceStepInput(s: Session, e: Event)
    requires InputAction(e).Some?
    ensures DebounceStep(s, e, Step(s, e))
  {
    StepInput(s, e);
    Debounce.ScheduleTimers(s, InputAction(e).value);
  }

  lemma DebounceStepFire(s: Session, id: TimerId)
    requires id in s.timers && s.timers[id].task.Debounced?
    ensures DebounceStep(s, Fire(id), Step(s, Fire(id)))
  {
    StepFireDebounced(s, id);
  }

  lemma DebounceStepNeutral(s: Session, e: Event)
    requires Wf(s) && Neutral(s, e)
    ensures DebounceStep(s, e, Step(s, e))
  {
    StepNeutral(s, e);
  }

  /** One event creates at most one debounce timer, and only an input does:
      the new timer runs the input's action under its key; every other
      debounce timer afterwards was pending before, unchanged. A write runs
      only when its own timer fires. */
  lemma StepDebounceTimers(s: Session, e: Event)
    requires Wf(s)
    ensures DebounceStep(s, e, Step(s, e))
  {
    if InputAction(e).Some? {
      DebounceStepInput(s, e);
    } else if e.Fire? && e.timer in s.timers && s.timers[e.timer].task.Debounced? {
      DebounceStepFire(s, e.timer);
    } else {
      DebounceStepNeutral(s, e);
    }
  }

  /** An event that is not an input on `k` schedules nothing under `k`. */
  lemma StepKeepsOnlyRuns(s: Session, e: Event, k: string, a: Action)
    requires Wf(s) && OnlyRuns(s, k, a) && !InputFor(e, k)
    ensures OnlyRuns(Step(s, e).next, k, a)
    ensures forall b | ActionRan(k, b) in Step(s, e).effects :: b == a
  {
    StepDebounceTimers(s, e);
  }

  /** Along a trace with no input on `k`, every write that runs under `k`
      is `a`. */
  lemma {:induction false} RunKeepsOnlyRuns(s: Session, es: seq<Event>, k: string, a: Action)
    requires Wf(s) && OnlyRuns(s, k, a)
    requires forall i | 0 <= i < |es| :: !InputFor(es[i], k)
    ensures forall b | ActionRan(k, b) in Run(s, es).effects :: b == a
    decreases |es|
  {
    if es != [] {
      var o := Step(s, es[0]);
      StepKeepsOnlyRuns(s, es[0], k, a);
      Invariant.StepKeepsWf(s, es[0]);
      assert forall i | 0 <= i < |es[1..]| :: es[1..][i] == es[i + 1];
      RunKeepsOnlyRuns(o.next, es[1..], k, a);
    }
  }

  /** Last write wins: after an input on a field, and until the next input
      on that field, the only write that can run for it is the latest one. */
  lemma LastWriteWins(s: Session, a: Action, es: seq<Event>)
    requires Wf(s)
    requires forall i | 0 <= i < |es| :: !InputFor(es[i], KeyOf(a))
    ensures forall b | ActionRan(KeyOf(a), b) in Run(s, [InputEvent(a)] + es).effects :: b == a
  {
    var o := Step(s, InputEvent(a));
    Debounce.ScheduleKeepsWf(s, a);
    Invariant.StepKeepsWf(s, InputEvent(a));
    assert OnlyRuns(o.next, KeyOf(a), a);
    assert ([InputEvent(a)] + es)[1..] == es;
    RunHead(s, [InputEvent(a)] + es);
    RunKeepsOnlyRuns(o.next, es, KeyOf(a), a);
  }

  /** A superseded edit never runs: two inputs on the same field, then any
      events but inputs on that field, and the first value is never written
      unless the second equals it. */
  lemma SupersededEditNeverRuns(s: Session, a1: Action, a2: Action, es: seq<Event>)
    requires Wf(s) && KeyOf(a1) == KeyOf(a2) && a1 != a2
    requires forall i | 0 <= i < |es| :: !InputFor(es[i], KeyOf(a2))
    ensures ActionRan(KeyOf(a1), a1) !in Run(s, [InputEvent(a1), InputEvent(a2)] + es).effects
  {
    var e1 := InputEvent(a1);
    var rest := [InputEvent(a2)] + es;
    var all := [e1] + rest;
    assert [InputEvent(a1), InputEvent(a2)] + es == all;
    assert all[0] == e1 && all[1..] == rest;
    StepInput(s, e1);
    Invariant.StepKeepsWf(s, e1);
    LastWriteWins(Step(s, e1).next, a2, es);
    RunHead(s, all);
  }

  /** A pending edit is neither lost nor replaced by any event other than an
      input on its field or the firing of its own timer. */
  lemma StepKeepsPending(s: Session, e: Event, k: string, a: Action)
    requires Wf(s) && LiveFor(s, k, a)
    requires !InputFor(e, k) && e != Fire(s.debounce[k])
    ensures LiveFor(Step(s, e).next, k, a)
    ensures Step(s, e).next.debounce[k] == s.debounce[k]
  {
    if InputAction(e).Some? {
      StepInput(s, e);
      Debounce.ScheduleKeepsWf(s, InputAction(e).value);
    } else if e.Fire? && e.timer in s.timers && s.timers[e.timer].task.Debounced? {
      StepFireDebounced(s, e.timer);
    } else {
      StepNeutral(s, e);
    }
  }

  lemma {:induction false} RunKeepsPending(s: Session, es: seq<Event>, k: string, a: Action)
    requires Wf(s) && LiveFor(s, k, a)
    requires forall i | 0 <= i < |es| :: !InputFor(es[i], k) && es[i] != Fire(s.debounce[k])
    ensures LiveFor(Run(s, es).final, k, a)
    ensures Run(s, es).final.debounce[k] == s.debounce[k]
    decreases |es|
  {
    if es != [] {
      var o := Step(s, es[0]);
      StepKeepsPending(s, es[0], k, a);
      Invariant.StepKeepsWf(s, es[0]);
      assert forall i | 0 <= i < |es[1..]| :: es[1..][i] == es[i + 1];
      RunKeepsPending(o.next, es[1..], k, a);
    }
  }

  /** When the pending timer for a field fires, it runs that field's latest
      edit, and the key leaves the table. */
  lemma FiringRunsLatest(s: Session, k: string, a: Action)
    requires Wf(s) && LiveFor(s, k, a) && s.timers[s.debounce[k]].due <= s.now
    ensures Step(s, Fire(s.debounce[k])).effects == [ActionRan(k, a)]
    ensures k !in Step(s, Fire(s.debounce[k])).next.debounce
    ensures s.debounce[k] !in Step(s, Fire(s.debounce[k])).next.timers
  {
  }
}
