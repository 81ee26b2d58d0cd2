/** Every session the inspector can reach satisfies `Wf`: handles are never
    reused, the debounce table matches the pending debounce timers one to
    one, at most one auto-refresh interval runs, and `editTimeout` names a
    grace timer while that timer is pending. */
module Invariant {
  import opened Base
  import opened Protocol
  import opened State
  import Debounce
  import Refresh
  import opened Engine

  lemma HandleKeepsWf(s: Session, e: Event)
    requires Wf(s)
    ensures Wf(Handle(s, e).next)
  {
    match e
    case TransformInput(actor, part, axis, coord) =>
      Debounce.ScheduleKeepsWf(s, TransformEdit(actor, part, axis, coord));
    case ComponentInput(component, property, value) =>
      Debounce.ScheduleKeepsWf(s, ComponentEdit(component, property, value));
    case Reply(req, r) =>
      if req in s.inflight {
        SameTimersWf(s, Answer(s, req, r).next);
      }
    case _ =>
  }

  /** One event keeps the invariant. */
  lemma StepKeepsWf(s: Session, e: Event)
    requires Wf(s)
    ensures Wf(Step(s, e).next)
  {
    HandleKeepsWf(s, e);
    assert SameTimers(Handle(s, e).next, Step(s, e).next);
    SameTimersWf(Handle(s, e).next, Step(s, e).next);
  }

  /** Any trace of events keeps the invariant. */
  lemma {:induction false} RunKeepsWf(s: Session, es: seq<Event>)
    requires Wf(s)
    ensures Wf(Run(s, es).final)
    decreases |es|
  {
    if es != [] {
      StepKeepsWf(s, es[0]);
      RunKeepsWf(Step(s, es[0]).next, es[1..]);
    }
  }

  /** Every session reachable from page load satisfies the invariant; in
      particular at most one debounce timer per key and at most one
      auto-refresh interval are ever pending. */
  lemma ReachableWf(stored: Option<int>, es: seq<Event>)
    ensures var t := Run(Init(stored), es).final;
      && Wf(t)
      && (forall i, j | i in t.timers && j in t.timers && t.timers[i].task.Debounced? && t.timers[j].task.Debounced?
            && t.timers[i].task.key == t.timers[j].task.key :: i == j)
      && (forall i, j | i in t.timers && j in t.timers && t.timers[i].task.RefreshTick? && t.timers[j].task.RefreshTick? :: i == j)
  {
    RunKeepsWf(Init(stored), es);
  }
}
