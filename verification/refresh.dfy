/** Periodic reconciliation: `loadScene` and its answer, the connection
    probe that triggers the first load, and the auto-refresh interval
    (`startAutoRefresh`, `stopAutoRefresh`, `toggleAutoRefresh` and the
    interval part of `saveSettings`). */
module Refresh {
  import opened Base
  import opened Scene
  import opened Protocol
  import opened State
  import Selection

  /** `loadScene` up to its fetch: while the user is editing it returns
      before anything happens; otherwise the actor list is requested. The
      flag is consulted here only, not when the answer arrives. */
  function LoadScene(s: Session): (o: Outcome)
    ensures o.next == s && o.effects == []
    ensures s.isEditing <==> o.sent == []
    ensures !s.isEditing ==> o.sent == [SceneFetch]
  {
    if s.isEditing then Quiet(s) else Send(s, SceneFetch)
  }

  /** The selection is truthy but names no actor in the list. */
  predicate Dangling(selected: Option<int>, actors: seq<Actor>) {
    SelectionTruthy(selected) && !Present(actors, ActorId, selected.value)
  }

  /** The answer to `GET /actors`. A failed status or a thrown request
      changes nothing. An `ok` answer replaces the actor list wholesale
      (`data.actors || []`); a truthy selection that is no longer in it is
      cleared together with the component cache, and a selection that is
      still there is kept without reloading its details or components. The
      editing flag is not consulted. */
  function SceneReplied(s: Session, r: Response): (o: Outcome)
    ensures !(r.Http? && r.ok) ==> o.next == s
    ensures r.Http? && r.ok ==> o.next.actors == r.body.actors.GetOr([])
    ensures r.Http? && r.ok ==> !Dangling(o.next.selected, o.next.actors)
    ensures r.Http? && r.ok && Dangling(s.selected, o.next.actors) ==>
      o.next.selected.None? && o.next.components == []
    ensures !(r.Http? && r.ok && Dangling(s.selected, o.next.actors)) ==>
      o.next.selected == s.selected && o.next.components == s.components
    ensures o.next == s.(actors := o.next.actors, selected := o.next.selected, components := o.next.components)
    ensures o.sent == [] && o.effects == []
  {
    if !(r.Http? && r.ok) then Quiet(s)
    else
      var s1 := s.(actors := r.body.actors.GetOr([]));
      if Dangling(s1.selected, s1.actors) then Selection.ClearSelection(s1) else Quiet(s1)
  }

  /** `checkConnection`'s answer: an `ok` answer loads the scene (subject to
      the editing flag); anything else only updates the status display. */
  function ConnectionReplied(s: Session, r: Response): (o: Outcome)
    ensures o.next == s && o.effects == []
    ensures r.Http? && r.ok && !s.isEditing <==> o.sent == [SceneFetch]
    ensures !(r.Http? && r.ok && !s.isEditing) ==> o.sent == []
  {
    if r.Http? && r.ok then LoadScene(s) else Quiet(s)
  }

  // ---------------------------------------------------------------------------
  // The auto-refresh interval
  // ---------------------------------------------------------------------------

  /** No auto-refresh interval is pending. */
  ghost predicate NoInterval(s: Session) {
    forall id | id in s.timers :: !s.timers[id].task.RefreshTick?
  }

  /** The only pending auto-refresh interval is `id`, ticking every `period` ms. */
  ghost predicate OnlyInterval(s: Session, id: TimerId, period: nat) {
    && id in s.timers
    && s.timers[id].task == RefreshTick(period)
    && forall j | j in s.timers && s.timers[j].task.RefreshTick? :: j == id
  }

  /** `stopAutoRefresh`: the interval, if any, is cancelled and forgotten;
      every other pending timer is kept as it was. */
  function StopAutoRefresh(s: Session): (o: Outcome)
    ensures !o.next.autoRefresh && o.next.updateInterval.None?
    ensures o.next.nextTimer == s.nextTimer && o.next.now == s.now && o.next.refreshMs == s.refreshMs
    ensures forall id | id in o.next.timers :: id in s.timers && o.next.timers[id] == s.timers[id]
    ensures forall id | id in s.timers && Some(id) != s.updateInterval :: id in o.next.timers && o.next.timers[id] == s.timers[id]
    ensures o.next == s.(autoRefresh := false, updateInterval := None, timers := o.next.timers)
    ensures o.sent == [] && o.effects == []
    ensures Wf(s) ==> Wf(o.next) && NoInterval(o.next) && DebounceFrame(s, o.next) && NoNewGrace(s, o.next)
  {
    var s1 := if s.updateInterval.Some? then ClearTimer(s, s.updateInterval.value) else s;
    Quiet(s1.(autoRefresh := false, updateInterval := None))
  }

  /** `startAutoRefresh`: any running interval is cancelled and a new one
      ticking every `refreshMs` ms (a negative period acts as zero) takes
      its place; every other pending timer is kept as it was. */
  function StartAutoRefresh(s: Session): (o: Outcome)
    ensures o.next.autoRefresh && o.next.updateInterval == Some(s.nextTimer)
    ensures s.nextTimer in o.next.timers
    ensures o.next.timers[s.nextTimer] == Timer(s.now + Clamp(s.refreshMs), RefreshTick(Clamp(s.refreshMs)))
    ensures s.updateInterval.Some? && s.updateInterval.value != s.nextTimer ==> s.updateInterval.value !in o.next.timers
    ensures forall id | id in s.timers && Some(id) != s.updateInterval && id != s.nextTimer ::
      id in o.next.timers && o.next.timers[id] == s.timers[id]
    ensures o.next == s.(autoRefresh := true, updateInterval := o.next.updateInterval,
                         timers := o.next.timers, nextTimer := s.nextTimer + 1)
    ensures o.sent == [] && o.effects == []
  {
    var s1 := StopAutoRefresh(s).next;
    Quiet(s1.(timers := s1.timers[s.nextTimer := Timer(s.now + Clamp(s.refreshMs), RefreshTick(Clamp(s.refreshMs)))],
              nextTimer := s.nextTimer + 1,
              autoRefresh := true,
              updateInterval := Some(s.nextTimer)))
  }

  /** Starting auto-refresh keeps the invariant, and exactly one interval
      runs afterwards: the new one. */
  lemma StartAutoRefreshKeepsWf(s: Session)
    ensures Wf(s) ==>
      var t := StartAutoRefresh(s).next;
      Wf(t) && OnlyInterval(t, s.nextTimer, Clamp(s.refreshMs)) && DebounceFrame(s, t) && NoNewGrace(s, t)
  {
    if Wf(s) {
      var c := StopAutoRefresh(s).next;
      var t := StartAutoRefresh(s).next;
      assert Wf(c) && NoInterval(c);
      assert s.nextTimer !in c.timers;
      assert t.timers == c.timers[s.nextTimer := Timer(s.now + Clamp(s.refreshMs), RefreshTick(Clamp(s.refreshMs)))];
      assert Fresh(t);
      assert DebounceConsistent(t);
      assert IntervalConsistent(t);
    }
  }

  /** `toggleAutoRefresh`: stop when on, start when off. */
  function ToggleAutoRefresh(s: Session): (o: Outcome)
    ensures o.next.autoRefresh == !s.autoRefresh
    ensures o.next.refreshMs == s.refreshMs
    ensures o.next == s.(autoRefresh := o.next.autoRefresh, updateInterval := o.next.updateInterval,
                         timers := o.next.timers, nextTimer := o.next.nextTimer, refreshMs := o.next.refreshMs)
    ensures o.sent == [] && o.effects == []
    ensures Wf(s) && s.autoRefresh ==> NoInterval(o.next)
    ensures Wf(s) && !s.autoRefresh ==> OnlyInterval(o.next, s.nextTimer, Clamp(s.refreshMs))
    ensures Wf(s) ==> forall id | id in s.timers && !s.timers[id].task.RefreshTick? ::
      id in o.next.timers && o.next.timers[id] == s.timers[id]
    ensures Wf(s) ==> Wf(o.next) && DebounceFrame(s, o.next) && NoNewGrace(s, o.next)
  {
    StartAutoRefreshKeepsWf(s);
    if s.autoRefresh then StopAutoRefresh(s) else StartAutoRefresh(s)
  }

  /** The interval part of `saveSettings`: the new period is stored, and a
      running interval is restarted with it; a stopped one stays stopped. */
  function SaveSettings(s: Session, intervalMs: int): (o: Outcome)
    ensures o.next.refreshMs == intervalMs && o.next.autoRefresh == s.autoRefresh
    ensures o.next == s.(autoRefresh := o.next.autoRefresh, updateInterval := o.next.updateInterval,
                         timers := o.next.timers, nextTimer := o.next.nextTimer, refreshMs := o.next.refreshMs)
    ensures o.sent == [] && o.effects == []
    ensures !s.autoRefresh ==> o.next == s.(refreshMs := intervalMs)
    ensures Wf(s) && s.autoRefresh ==> OnlyInterval(o.next, s.nextTimer, Clamp(intervalMs))
    ensures Wf(s) ==> forall id | id in s.timers && !s.timers[id].task.RefreshTick? ::
      id in o.next.timers && o.next.timers[id] == s.timers[id]
    ensures Wf(s) ==> Wf(o.next) && DebounceFrame(s, o.next) && NoNewGrace(s, o.next)
  {
    var s1 := s.(refreshMs := intervalMs);
    StartAutoRefreshKeepsWf(StopAutoRefresh(s1).next);
    if s.autoRefresh then StartAutoRefresh(StopAutoRefresh(s1).next) else Quiet(s1)
  }

  /** An interval tick: the interval is re-armed one period later, and
      `loadScene` runs. */
  function IntervalTick(s: Session, id: TimerId): (o: Outcome)
    requires id in s.timers && s.timers[id].task.RefreshTick?
    ensures o.next.timers == s.timers[id := Timer(s.timers[id].due + s.timers[id].task.period, s.timers[id].task)]
    ensures o.next == s.(timers := o.next.timers)
    ensures o.sent == LoadScene(s).sent && o.effects == []
    ensures Wf(s) ==> Wf(o.next) && DebounceFrame(s, o.next) && NoNewGrace(s, o.next)
  {
    var t := s.timers[id];
    LoadScene(s.(timers := s.timers[id := Timer(t.due + t.task.period, t.task)]))
  }
}
