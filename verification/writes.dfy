/** The property write pipeline: `updateActorProperty`, `updateTransform`,
    `updateComponentProperty` and `toggleComponentEnabled`. Each one is
    gated on `enginePaused` before it sends anything; the answers patch the
    cached actors or components only when the engine reports success. */
module Writes {
  import opened Base
  import opened Scene
  import opened Protocol
  import opened State

  // ---------------------------------------------------------------------------
  // Actor name and tag
  // ---------------------------------------------------------------------------

  /** `updateActorProperty` (onchange of name or tag) up to its POST: with
      the gate closed nothing is sent; with it open, exactly `{property,
      value}` for that actor. Nothing is patched before the answer. */
  function UpdateActorProperty(s: Session, actor: int, field: ActorField, text: string): (o: Outcome)
    ensures o.next == s && o.effects == []
    ensures !s.enginePaused ==> o.sent == []
    ensures s.enginePaused ==> o.sent == [ActorPropertyPost(actor, field, text)]
  {
    if !s.enginePaused then Quiet(s)
    else Send(s, ActorPropertyPost(actor, field, text))
  }

  /** The answer to `POST /actors/{id}/property`. A body with `success`
      patches the first cached actor with that id; any other body, and a
      thrown request, leave the actor list as it was. The response status
      is not consulted. */
  function ActorPropertyReplied(s: Session, actor: int, field: ActorField, text: string, r: Response): (o: Outcome)
    ensures r.Http? && r.body.success ==> o.next.actors == PatchActor(s.actors, actor, field, text)
    ensures !(r.Http? && r.body.success) ==> o.next.actors == s.actors
    ensures o.next == s.(actors := o.next.actors)
    ensures o.sent == [] && o.effects == []
  {
    if r.Http? && r.body.success then Quiet(s.(actors := PatchActor(s.actors, actor, field, text)))
    else Quiet(s)
  }

  // ---------------------------------------------------------------------------
  // Transform (read-modify-write)
  // ---------------------------------------------------------------------------

  /** `updateTransform` up to its first request: with the gate open it
      re-reads the actor to obtain its current full transform. */
  function UpdateTransform(s: Session, actor: int, part: Part, axis: Axis, coord: real): (o: Outcome)
    ensures o.next == s && o.effects == []
    ensures !s.enginePaused ==> o.sent == []
    ensures s.enginePaused ==> o.sent == [TransformFetch(actor, part, axis, coord)]
  {
    if !s.enginePaused then Quiet(s)
    else Send(s, TransformFetch(actor, part, axis, coord))
  }

  /** The answer to that read. When it carries a transform, the full
      transform is posted back with exactly one coordinate replaced: the
      payload agrees with the freshly read transform on the other eight.
      The gate is not checked again, and no cache is touched. A body without
      a transform makes the script throw, and nothing is sent. */
  function TransformFetched(s: Session, actor: int, part: Part, axis: Axis, coord: real, r: Response): (o: Outcome)
    ensures o.next == s && o.effects == []
    ensures r.Http? && r.body.transform.Some? ==>
      && |o.sent| == 1
      && o.sent[0].TransformPost?
      && o.sent[0].actor == actor
      && Get(o.sent[0].payload, part, axis) == coord
      && forall p: Part, a: Axis :: (p != part || a != axis) ==>
           Get(o.sent[0].payload, p, a) == Get(r.body.transform.value, p, a)
    ensures !(r.Http? && r.body.transform.Some?) ==> o.sent == []
  {
    if r.Http? && r.body.transform.Some? then
      Send(s, TransformPost(actor, SetAxis(r.body.transform.value, part, axis, coord)))
    else Quiet(s)
  }

  /** The write-back as the gate means it (app.js:651-652): the gate is
      read again when the transform arrives, so a gate that closed after the
      read stops the write. With the gate still open it posts exactly what
      `TransformFetched` posts. */
  function TransformFetchedIntended(s: Session, actor: int, part: Part, axis: Axis, coord: real, r: Response): (o: Outcome)
    ensures o.next == s && o.effects == []
    ensures !s.enginePaused ==> o.sent == []
    ensures s.enginePaused ==> o.sent == TransformFetched(s, actor, part, axis, coord, r).sent
    ensures forall m | m in o.sent :: m.TransformPost? && m.actor == actor && s.enginePaused
  {
    if !s.enginePaused then Quiet(s)
    else TransformFetched(s, actor, part, axis, coord, r)
  }

  // ---------------------------------------------------------------------------
  // Component properties
  // ---------------------------------------------------------------------------

  /** `updateComponentProperty` up to its POST. */
  function UpdateComponentProperty(s: Session, component: int, property: string, value: Value): (o: Outcome)
    ensures o.next == s && o.effects == []
    ensures !s.enginePaused ==> o.sent == []
    ensures s.enginePaused ==> o.sent == [ComponentPropertyPost(component, property, value)]
  {
    if !s.enginePaused then Quiet(s)
    else Send(s, ComponentPropertyPost(component, property, value))
  }

  /** The engine accepted a component property write: the body has
      `success` or, leniently, `message`. */
  predicate Accepted(r: Response) {
    r.Http? && (r.body.success || r.body.message)
  }

  /** The answer to `POST /components/{id}/property`. An accepted answer
      patches the cached component at the property's path; an `error` body,
      an empty body and a thrown request leave the cache as it was. */
  function ComponentPropertyReplied(s: Session, component: int, property: string, value: Value, r: Response): (o: Outcome)
    ensures Accepted(r) ==> o.next.components == PatchComponent(s.components, component, property, value)
    ensures !Accepted(r) ==> o.next.components == s.components
    ensures o.next == s.(components := o.next.components)
    ensures o.sent == [] && o.effects == []
  {
    if Accepted(r) then Quiet(s.(components := PatchComponent(s.components, component, property, value)))
    else Quiet(s)
  }

  // ---------------------------------------------------------------------------
  // Component enable toggle
  // ---------------------------------------------------------------------------

  /** `toggleComponentEnabled` up to its POST. With the gate closed nothing
      is sent and the checkbox is put back to `!enabled`. */
  function ToggleComponentEnabled(s: Session, component: int, enabled: bool): (o: Outcome)
    ensures o.next == s
    ensures !s.enginePaused ==> o.sent == [] && o.effects == [CheckboxRestored(component, !enabled)]
    ensures s.enginePaused ==> o.sent == [ComponentEnabledPost(component, enabled)] && o.effects == []
  {
    if !s.enginePaused then Outcome(s, [], [CheckboxRestored(component, !enabled)])
    else Send(s, ComponentEnabledPost(component, enabled))
  }

  /** The answer to `POST /components/{id}/enabled`. `success` sets the
      cached component's flag. On any other body, or a thrown request, the
      script means to put the checkbox back through the global `event`; but
      this runs after an `await`, outside any event dispatch, where `event`
      is undefined, so reading `event.target` throws (first into the catch
      block, then out of it). The checkbox keeps the user's value and the
      cache keeps the old flag. */
  function EnabledReplied(s: Session, component: int, enabled: bool, r: Response): (o: Outcome)
    ensures r.Http? && r.body.success ==>
      o.next.components == SetEnabled(s.components, component, enabled)
    ensures !(r.Http? && r.body.success) ==> o.next.components == s.components
    ensures o.next == s.(components := o.next.components)
    ensures o.sent == [] && o.effects == []
  {
    if r.Http? && r.body.success then Quiet(s.(components := SetEnabled(s.components, component, enabled)))
    else Quiet(s)
  }

  /** The answer as `toggleComponentEnabled` means it (app.js:965-974), with
      the checkbox captured before the `await`: a rejected or failed write
      puts the checkbox back to `!enabled`. The session changes exactly as
      in `EnabledReplied`; only the revert differs. */
  function EnabledRepliedIntended(s: Session, component: int, enabled: bool, r: Response): (o: Outcome)
    ensures r.Http? && r.body.success ==>
      o.next.components == SetEnabled(s.components, component, enabled) && o.effects == []
    ensures !(r.Http? && r.body.success) ==>
      o.next == s && o.effects == [CheckboxRestored(component, !enabled)]
    ensures o.next == EnabledReplied(s, component, enabled, r).next
    ensures o.sent == []
  {
    if r.Http? && r.body.success then EnabledReplied(s, component, enabled, r)
    else Outcome(s, [], [CheckboxRestored(component, !enabled)])
  }

  /** What a debounce callback does when it fires: with the gate open, a
      transform edit starts its read and a component edit posts its value. */
  function RunAction(s: Session, a: Action): (o: Outcome)
    ensures o.next == s && o.effects == []
    ensures !s.enginePaused ==> o.sent == []
    ensures s.enginePaused && a.TransformEdit? ==> o.sent == [TransformFetch(a.actor, a.part, a.axis, a.coord)]
    ensures s.enginePaused && a.ComponentEdit? ==> o.sent == [ComponentPropertyPost(a.component, a.property, a.value)]
  {
    match a
    case TransformEdit(actor, part, axis, coord) => UpdateTransform(s, actor, part, axis, coord)
    case ComponentEdit(component, property, value) => UpdateComponentProperty(s, component, property, value)
  }
}
