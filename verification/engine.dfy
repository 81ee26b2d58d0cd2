/** The inspector as one state machine: every event is dispatched to the
    handler the page wires it to, a due timer runs its callback, and an
    answer is routed by the request it answers. `Run` folds a trace of
    events. */
module Engine {
  import opened Base
  import opened Scene
  import opened Protocol
  import opened State
  import Editing
  import Writes
  import Debounce
  import Selection
  import Refresh
  import Gate

  /** A timer's callback runs: only a pending timer that is due may fire;
      firing anything else is not something the browser does and changes
      nothing. */
  function FireTimer(s: Session, id: TimerId): (o: Outcome)
    ensures !(id in s.timers && s.timers[id].due <= s.now) ==> o == Quiet(s)
    ensures id in s.timers && s.timers[id].due <= s.now && !s.timers[id].task.RefreshTick? ==> id !in o.next.timers
    ensures o.next.inflight == s.inflight && o.next.now == s.now
  {
    if !(id in s.timers && s.timers[id].due <= s.now) then Quiet(s)
    else
      match s.timers[id].task
      case GraceClear => Editing.GraceExpired(s, id)
      case Debounced(_, _) => Debounce.FireDebounced(s, id)
      case RefreshTick(_) => Refresh.IntervalTick(s, id)
  }

  /** Route an answer to the continuation of the request it answers. */
  function Answer(s: Session, req: Request, r: Response): (o: Outcome)
    ensures SameTimers(s, o.next)
    ensures o.next.inflight == s.inflight
    ensures o.next.enginePaused != s.enginePaused ==> req.PauseToggle? || req.EngineStatusFetch?
    ensures req.TransformPost? ==> o == Quiet(s)
    ensures o.effects == []
  {
    match req
    case ConnectionProbe => Refresh.ConnectionReplied(s, r)
    case EngineStatusFetch => Gate.StatusReplied(s, r)
    case PauseToggle(resume) => Gate.PauseReplied(s, resume, r)
    case SceneFetch => Refresh.SceneReplied(s, r)
    case DetailsFetch(actor) => Selection.DetailsReplied(s, actor, r)
    case EditorSelect(actor) => Selection.EditorSelectReplied(s, actor, r)
    case ComponentsFetch(actor) => Selection.ComponentsReplied(s, actor, r)
    case ActorPropertyPost(actor, field, text) => Writes.ActorPropertyReplied(s, actor, field, text, r)
    case TransformFetch(actor, part, axis, coord) => Writes.TransformFetched(s, actor, part, axis, coord, r)
    case TransformPost(_, _) => Quiet(s)   // the result is only logged
    case ComponentPropertyPost(component, property, value) =>
      Writes.ComponentPropertyReplied(s, component, property, value, r)
    case ComponentEnabledPost(component, enabled) => Writes.EnabledReplied(s, component, enabled, r)
  }

  /** Whether the event is an answer to a request that is in flight. */
  predicate Answers(s: Session, e: Event) {
    e.Reply? && e.request in s.inflight
  }

  /** The handler the page runs for an event, before the in-flight
      bookkeeping. An answer to nothing in flight is ignored. */
  function Handle(s: Session, e: Event): (o: Outcome)
    ensures o.next.inflight == s.inflight
    ensures e.Reply? && !Answers(s, e) ==> o == Quiet(s)
  {
    match e
    case Focus => Editing.StartEditing(s)
    case Blur => Editing.StopEditing(s)
    case Elapse(ms) => Quiet(s.(now := s.now + ms))
    case Fire(id) => FireTimer(s, id)
    case RefreshClicked => Refresh.LoadScene(s)
    case ActorClicked(actor) => Selection.SelectActor(s, actor)
    case ClearClicked => Selection.ClearSelection(s)
    case ActorFieldChanged(actor, field, text) => Writes.UpdateActorProperty(s, actor, field, text)
    case TransformInput(actor, part, axis, coord) => Debounce.Schedule(s, TransformEdit(actor, part, axis, coord))
    case ComponentInput(component, property, value) => Debounce.Schedule(s, ComponentEdit(component, property, value))
    case ComponentCheckboxChanged(component, property, checked) =>
      Writes.UpdateComponentProperty(s, component, property, Bool(checked))
    case EnabledToggled(component, enabled) => Writes.ToggleComponentEnabled(s, component, enabled)
    case PauseClicked => Gate.TogglePause(s)
    case AutoRefreshToggled => Refresh.ToggleAutoRefresh(s)
    case SettingsSaved(intervalMs) => Refresh.SaveSettings(s, intervalMs)
    case Reply(req, r) => if req in s.inflight then Answer(s, req, r) else Quiet(s)
  }

  /** One event: the answered request leaves the network, and the requests
      the handler sends join it. */
  function Step(s: Session, e: Event): (o: Outcome)
    ensures e.Reply? && !Answers(s, e) ==> o == Quiet(s)
    ensures Answers(s, e) ==> o.next.inflight + multiset{e.request} == s.inflight + multiset(o.sent)
    ensures !e.Reply? ==> o.next.inflight == s.inflight + multiset(o.sent)
    ensures forall r | r in o.sent :: r in o.next.inflight
  {
    var h := Handle(s, e);
    var answered := if Answers(s, e) then multiset{e.request} else multiset{};
    Outcome(h.next.(inflight := s.inflight - answered + multiset(h.sent)), h.sent, h.effects)
  }

  /** What a trace of events leaves behind: the final session, and every
      request sent and every effect, in order. */
  datatype Trace = Trace(final: Session, sent: seq<Request>, effects: seq<Effect>)

  function Run(s: Session, es: seq<Event>): (t: Trace)
    ensures es == [] ==> t == Trace(s, [], [])
    decreases |es|
  {
    if es == [] then Trace(s, [], [])
    else
      var o := Step(s, es[0]);
      var rest := Run(o.next, es[1..]);
      Trace(rest.final, o.sent + rest.sent, o.effects + rest.effects)
  }

  /** A trace unfolds one event at a time. */
  lemma RunHead(s: Session, es: seq<Event>)
    requires es != []
    ensures Run(s, es).final == Run(Step(s, es[0]).next, es[1..]).final
    ensures Run(s, es).sent == Step(s, es[0]).sent + Run(Step(s, es[0]).next, es[1..]).sent
    ensures Run(s, es).effects == Step(s, es[0]).effects + Run(Step(s, es[0]).next, es[1..]).effects
  {
  }

  /** Running two traces one after the other is running their concatenation. */
  lemma {:induction false} RunAppend(s: Session, a: seq<Event>, b: seq<Event>)
    ensures Run(s, a + b).final == Run(Run(s, a).final, b).final
    decreases |a|
  {
    if a == [] {
      assert a + b == b;
    } else {
      assert (a + b)[0] == a[0];
      assert (a + b)[1..] == a[1..] + b;
      RunAppend(Step(s, a[0]).next, a[1..], b);
    }
  }
}
