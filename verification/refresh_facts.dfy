/** What periodic reconciliation guarantees over the whole event set: no
    scene fetch starts while the user is editing, but one already under way
    lands whatever the flag is by then; a failed fetch changes nothing; and
    the auto-refresh interval is restarted, never duplicated. */
module RefreshFacts {
  import opened Base
  import opened Scene
  import opened Protocol
  import opened State
  import Refresh
  import opened Engine

  lemma SceneFetchFromFire(s: Session, id: TimerId)
    requires SceneFetch in Step(s, Fire(id)).sent
    ensures !s.isEditing && id in s.timers && s.timers[id].task.RefreshTick? && s.timers[id].due <= s.now
  {
  }

  lemma SceneFetchFromReply(s: Session, req: Request, r: Response)
    requires SceneFetch in Step(s, Reply(req, r)).sent
    ensures !s.isEditing && req == ConnectionProbe && req in s.inflight && r.Http? && r.ok
  {
  }

  /** No scene fetch starts while the user is editing: whatever the event,
      if it sends `GET /actors` the flag was clear, and the event was the
      refresh button, an auto-refresh tick or a successful connection probe. */
  lemma NoSceneFetchWhileEditing(s: Session, e: Event)
    requires SceneFetch in Step(s, e).sent
    ensures !s.isEditing
    ensures || e == RefreshClicked
            || (e.Fire? && e.timer in s.timers && s.timers[e.timer].task.RefreshTick?)
            || (e.Reply? && e.request == ConnectionProbe && e.response.Http? && e.response.ok)
  {
    match e
    case Fire(id) => SceneFetchFromFire(s, id);
    case Reply(req, r) => SceneFetchFromReply(s, req, r);
    case _ =>
  }

  /** The scene answer does not look at the editing flag: applied with the
      flag set or clear, it makes the same changes. */
  lemma SceneReplyIgnoresEditing(s: Session, r: Response, editing: bool)
    ensures Refresh.SceneReplied(s.(isEditing := editing), r).next
         == Refresh.SceneReplied(s, r).next.(isEditing := editing)
  {
  }

  /** So a fetch issued before an input gained focus still overwrites the
      actor list while the user is typing. */
  lemma RefreshLandsWhileEditing(s: Session, r: Response)
    requires s.isEditing && SceneFetch in s.inflight && r.Http? && r.ok
    ensures Step(s, Reply(SceneFetch, r)).next.actors == r.body.actors.GetOr([])
    ensures Step(s, Reply(SceneFetch, r)).next.isEditing
  {
  }

  /** A failed or thrown scene fetch only leaves the network. */
  lemma FailedRefreshChangesNothing(s: Session, r: Response)
    requires SceneFetch in s.inflight && !(r.Http? && r.ok)
    ensures Step(s, Reply(SceneFetch, r)).next == s.(inflight := s.inflight - multiset{SceneFetch})
    ensures Step(s, Reply(SceneFetch, r)).sent == []
  {
  }

  /** Turning auto-refresh off and on again leaves exactly one interval,
      ticking at the current `refreshMs`. */
  lemma ToggleTwiceRestarts(s: Session)
    requires Wf(s) && s.autoRefresh
    ensures var t := Refresh.ToggleAutoRefresh(Refresh.ToggleAutoRefresh(s).next).next;
      && t.autoRefresh && Wf(t)
      && Refresh.OnlyInterval(t, s.nextTimer, Clamp(s.refreshMs))
  {
  }

  /** A stored refresh interval does not take effect at page load: the
      first interval ticks every `DefaultRefreshMs` whatever is stored, and only a
      restart picks the stored value up. */
  lemma StoredIntervalDeferred(stored: Option<int>)
    requires stored.Some? && stored.value != 0
    ensures Refresh.OnlyInterval(Init(stored), 1, DefaultRefreshMs)
    ensures Refresh.OnlyInterval(Refresh.ToggleAutoRefresh(Refresh.ToggleAutoRefresh(Init(stored)).next).next,
                                 2, Clamp(stored.value))
  {
    ToggleTwiceRestarts(Init(stored));
  }

  /** A worked case: actor 2 is selected and the refreshed list holds only
      actor 1, so the selection and the component cache are cleared. */
  lemma DroppedActorClearsSelection(s: Session, body: Body)
    requires s.selected == Some(2) && body.actors == Some([Actor(1, "Camera", "")])
    ensures var t := Refresh.SceneReplied(s, Http(true, body)).next;
      && t.actors == [Actor(1, "Camera", "")]
      && t.selected.None? && t.components == []
  {
  }

  /** The same refresh with actor 2 still listed keeps the selection and
      the cached components, and reloads nothing. */
  lemma KeptActorKeepsSelection(s: Session, body: Body)
    requires s.selected == Some(2) && body.actors == Some([Actor(1, "Camera", ""), Actor(2, "Cube", "")])
    ensures var o := Refresh.SceneReplied(s, Http(true, body));
      && o.next.selected == Some(2) && o.next.components == s.components && o.sent == []
  {
    assert ActorId(body.actors.value[1]) == 2;
  }
}
