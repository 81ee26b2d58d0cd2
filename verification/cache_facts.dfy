/** Facts about the cached actors and components and the writes that patch
    them: a confirmed property write reads back, a transform written by two
    overlapping read-modify-writes loses one of the edits, and a late
    components answer refills the cache whatever is selected by then. */
module CacheFacts {
  import opened Base
  import opened Scene
  import opened Protocol
  import opened State
  import Writes
  import Selection
  import opened Engine

  /** Reading a property path back from a properties object, independently
      of how it was written: a two-part path reads inside the head object,
      any other path is a flat key. */
  function ReadPath(props: map<string, Value>, property: string): (r: Option<Value>)
    ensures SplitPath(property).None? ==> (r.Some? <==> property in props)
  {
    match SplitPath(property)
    case None => if property in props then Some(props[property]) else None
    case Some((a, b)) =>
      if a in props && props[a].Obj? && b in props[a].fields then Some(props[a].fields[b]) else None
  }

  /** A confirmed component property write reads back as the value written,
      unless the path's head is a truthy primitive, where the write has no
      effect. */
  lemma PatchThenRead(props: map<string, Value>, property: string, value: Value)
    requires SplitPath(property).Some? ==>
      var a := SplitPath(property).value.0;
      !(a in props && Truthy(props[a]) && !props[a].Obj?)
    ensures ReadPath(PatchProperty(props, property, value), property) == Some(value)
  {
  }

  /** Other paths are not disturbed: a flat write leaves every other flat
      key as it was. */
  lemma FlatPatchKeepsOthers(props: map<string, Value>, property: string, other: string, value: Value)
    requires SplitPath(property).None? && SplitPath(other).None? && other != property
    ensures ReadPath(PatchProperty(props, property, value), other) == ReadPath(props, other)
  {
  }

  /** Two transform edits on different coordinates of one actor whose reads
      both return the same transform `t`: each write-back carries its own
      coordinate and `t`'s value for the other, so whichever post lands
      second puts the other edit's coordinate back to what `t` had. */
  lemma TransformRaceLosesEdit(s: Session, actor: int, t: Transform, body: Body,
                               p1: Part, x1: Axis, c1: real, p2: Part, x2: Axis, c2: real)
    requires (p1, x1) != (p2, x2) && body.transform == Some(t)
    ensures var o1 := Writes.TransformFetched(s, actor, p1, x1, c1, Http(true, body));
            var o2 := Writes.TransformFetched(s, actor, p2, x2, c2, Http(true, body));
      && Get(o1.sent[0].payload, p1, x1) == c1
      && Get(o2.sent[0].payload, p2, x2) == c2
      && Get(o2.sent[0].payload, p1, x1) == Get(t, p1, x1)
      && Get(o1.sent[0].payload, p2, x2) == Get(t, p2, x2)
  {
  }

  /** A components answer replaces the cache even when the actor it was
      fetched for is no longer the selection; the selection itself is not
      touched. */
  lemma LateComponentsReplyApplies(s: Session, actor: int, r: Response)
    requires ComponentsFetch(actor) in s.inflight && r.Http? && r.ok
    ensures Step(s, Reply(ComponentsFetch(actor), r)).next.components == r.body.components.GetOr([])
    ensures Step(s, Reply(ComponentsFetch(actor), r)).next.selected == s.selected
  {
  }

  /** With the answer applied only for the selection, a late answer is
      dropped: select `first`, then `second`, and `first`'s components
      answer leaves the cache as it was, where the script as written would
      fill it with `first`'s components while `second` is selected. */
  lemma LateComponentsReplyDroppedIntended(s: Session, first: int, second: int, r: Response)
    requires first != second && r.Http? && r.ok
    ensures var s2 := Selection.SelectActor(Selection.SelectActor(s, first).next, second).next;
      && s2.selected == Some(second)
      && Selection.ComponentsRepliedIntended(s2, first, r).next.components == s.components
      && Selection.ComponentsReplied(s2, first, r).next.components == r.body.components.GetOr([])
  {
  }

  // ---------------------------------------------------------------------------
  // The enable toggle's answer
  // ---------------------------------------------------------------------------

  lemma ToggleStep(s: Session, component: int, enabled: bool)
    requires s.enginePaused
    ensures var o := Step(s, EnabledToggled(component, enabled));
      && o.sent == [ComponentEnabledPost(component, enabled)] && o.effects == []
      && o.next.components == s.components && ComponentEnabledPost(component, enabled) in o.next.inflight
  {
  }

  lemma RejectedStep(s: Session, component: int, enabled: bool, r: Response)
    requires ComponentEnabledPost(component, enabled) in s.inflight && !(r.Http? && r.body.success)
    ensures var o := Step(s, Reply(ComponentEnabledPost(component, enabled), r));
      && o.sent == [] && o.effects == [] && o.next.components == s.components
  {
  }

  /** A toggle the engine rejects, from click to answer: the post goes out,
      no effect restores the checkbox, and the cache keeps the old flag, so
      the checkbox shows `enabled` while the cached component does not. */
  lemma RejectedToggleKeepsUserValue(s: Session, component: int, enabled: bool, r: Response, es: seq<Event>)
    requires s.enginePaused && !(r.Http? && r.body.success)
    requires |es| == 2 && es[0] == EnabledToggled(component, enabled)
    requires es[1] == Reply(ComponentEnabledPost(component, enabled), r)
    ensures Run(s, es).sent == [ComponentEnabledPost(component, enabled)]
    ensures Run(s, es).effects == []
    ensures Run(s, es).final.components == s.components
  {
    var s1 := Step(s, es[0]).next;
    ToggleStep(s, component, enabled);
    RejectedStep(s1, component, enabled, r);
    RunHead(s, es);
    RunHead(s1, es[1..]);
    assert es[1..][1..] == [];
  }

  /** With the checkbox captured before the `await`, the same click and
      rejected answer end as the script means: the post goes out, the
      checkbox is put back to `!enabled` once, and the cache keeps the old
      flag, so checkbox and cache agree again. */
  lemma RejectedToggleRestoredIntended(s: Session, component: int, enabled: bool, r: Response)
    requires s.enginePaused && !(r.Http? && r.body.success)
    ensures var o1 := Writes.ToggleComponentEnabled(s, component, enabled);
            var o2 := Writes.EnabledRepliedIntended(o1.next, component, enabled, r);
      && o1.sent + o2.sent == [ComponentEnabledPost(component, enabled)]
      && o1.effects + o2.effects == [CheckboxRestored(component, !enabled)]
      && o2.next.components == s.components
  {
  }

  // ---------------------------------------------------------------------------
  // Selecting an actor, from click to components
  // ---------------------------------------------------------------------------

  lemma ClickStep(s: Session, actor: int)
    ensures var o := Step(s, ActorClicked(actor));
      && o.sent == [DetailsFetch(actor)] && o.effects == []
      && o.next.selected == Some(actor) && DetailsFetch(actor) in o.next.inflight
  {
  }

  lemma DetailsStep(s: Session, actor: int, r: Response)
    requires DetailsFetch(actor) in s.inflight && r.Http? && r.ok
    ensures var o := Step(s, Reply(DetailsFetch(actor), r));
      && o.sent == [EditorSelect(actor)] && o.effects == []
      && o.next.selected == s.selected && EditorSelect(actor) in o.next.inflight
  {
  }

  lemma EditorSelectStep(s: Session, actor: int, r: Response)
    requires EditorSelect(actor) in s.inflight && r.Http?
    ensures var o := Step(s, Reply(EditorSelect(actor), r));
      && o.sent == [ComponentsFetch(actor)] && o.effects == []
      && o.next.selected == s.selected && ComponentsFetch(actor) in o.next.inflight
  {
  }

  lemma ComponentsStep(s: Session, actor: int, r: Response)
    requires ComponentsFetch(actor) in s.inflight && r.Http? && r.ok
    ensures var o := Step(s, Reply(ComponentsFetch(actor), r));
      && o.sent == [] && o.effects == []
      && o.next.selected == s.selected && o.next.components == r.body.components.GetOr([])
  {
  }

  lemma ComponentsRun(s: Session, actor: int, r: Response, es: seq<Event>)
    requires ComponentsFetch(actor) in s.inflight && r.Http? && r.ok
    requires |es| == 1 && es[0] == Reply(ComponentsFetch(actor), r)
    ensures Run(s, es).sent == [] && Run(s, es).final.selected == s.selected
    ensures Run(s, es).final.components == r.body.components.GetOr([])
  {
    ComponentsStep(s, actor, r);
    RunHead(s, es);
    assert es[1..] == [];
  }

  lemma EditorSelectRun(s: Session, actor: int, r2: Response, r3: Response, es: seq<Event>)
    requires EditorSelect(actor) in s.inflight && r2.Http? && r3.Http? && r3.ok
    requires |es| == 2 && es[0] == Reply(EditorSelect(actor), r2) && es[1] == Reply(ComponentsFetch(actor), r3)
    ensures Run(s, es).sent == [ComponentsFetch(actor)] && Run(s, es).final.selected == s.selected
    ensures Run(s, es).final.components == r3.body.components.GetOr([])
  {
    EditorSelectStep(s, actor, r2);
    RunHead(s, es);
    ComponentsRun(Step(s, es[0]).next, actor, r3, es[1..]);
  }

  lemma DetailsRun(s: Session, actor: int, r1: Response, r2: Response, r3: Response, es: seq<Event>)
    requires DetailsFetch(actor) in s.inflight && r1.Http? && r1.ok && r2.Http? && r3.Http? && r3.ok
    requires |es| == 3 && es[0] == Reply(DetailsFetch(actor), r1) && es[1] == Reply(EditorSelect(actor), r2)
    requires es[2] == Reply(ComponentsFetch(actor), r3)
    ensures Run(s, es).sent == [EditorSelect(actor), ComponentsFetch(actor)] && Run(s, es).final.selected == s.selected
    ensures Run(s, es).final.components == r3.body.components.GetOr([])
  {
    DetailsStep(s, actor, r1);
    RunHead(s, es);
    EditorSelectRun(Step(s, es[0]).next, actor, r2, r3, es[1..]);
  }

  /** Clicking an actor and getting its three answers in turn: the details
      read, the editor selection and the components read go out in that
      order, the actor ends up selected, and the component cache holds the
      components of the last answer. */
  lemma SelectionLoadsComponents(s: Session, actor: int, r1: Response, r2: Response, r3: Response, es: seq<Event>)
    requires r1.Http? && r1.ok && r2.Http? && r3.Http? && r3.ok
    requires |es| == 4 && es[0] == ActorClicked(actor)
    requires es[1] == Reply(DetailsFetch(actor), r1) && es[2] == Reply(EditorSelect(actor), r2)
    requires es[3] == Reply(ComponentsFetch(actor), r3)
    ensures Run(s, es).sent == [DetailsFetch(actor), EditorSelect(actor), ComponentsFetch(actor)]
    ensures Run(s, es).final.selected == Some(actor)
    ensures Run(s, es).final.components == r3.body.components.GetOr([])
  {
    ClickStep(s, actor);
    RunHead(s, es);
    DetailsRun(Step(s, es[0]).next, actor, r1, r2, r3, es[1..]);
  }
}
