/** Selection and the component cache: `selectActor`, the request chain of
    `loadActorDetails` and `loadComponents`, and `clearSelection`. */
module Selection {
  import opened Base
  import opened Scene
  import opened Protocol
  import opened State

  /** `selectActor`: the id becomes the selection at once and the details
      request goes out; the component cache is left as it is until the
      components answer arrives. */
  function SelectActor(s: Session, actor: int): (o: Outcome)
    ensures o.next.selected == Some(actor)
    ensures o.next.components == s.components && o.next.actors == s.actors
    ensures o.next == s.(selected := Some(actor))
    ensures o.sent == [DetailsFetch(actor)] && o.effects == []
  {
    Send(s.(selected := Some(actor)), DetailsFetch(actor))
  }

  /** `clearSelection`: with no selection (`null`) nothing changes; any other
      selection, including the falsy id 0, is dropped together with the
      component cache. */
  function ClearSelection(s: Session): (o: Outcome)
    ensures o.next.selected.None?
    ensures s.selected.None? ==> o.next == s
    ensures s.selected.Some? ==> o.next.components == []
    ensures o.next == s.(selected := None, components := o.next.components)
    ensures o.sent == [] && o.effects == []
  {
    if s.selected.None? then Quiet(s)
    else Quiet(s.(selected := None, components := []))
  }

  /** The details answer. Only an `ok` status continues to the editor
      selection request; nothing in the session changes either way. */
  function DetailsReplied(s: Session, actor: int, r: Response): (o: Outcome)
    ensures o.next == s && o.effects == []
    ensures r.Http? && r.ok ==> o.sent == [EditorSelect(actor)]
    ensures !(r.Http? && r.ok) ==> o.sent == []
  {
    if r.Http? && r.ok then Send(s, EditorSelect(actor)) else Quiet(s)
  }

  /** The editor selection answer. Its status is not checked: any HTTP
      answer goes on to the components request. A thrown request stops the
      chain; so does a details body that does not parse, which the script
      only discovers at this point. */
  function EditorSelectReplied(s: Session, actor: int, r: Response): (o: Outcome)
    ensures o.next == s && o.effects == []
    ensures r.Http? <==> o.sent == [ComponentsFetch(actor)]
    ensures r.Threw? ==> o.sent == []
  {
    if r.Http? then Send(s, ComponentsFetch(actor)) else Quiet(s)
  }

  /** `loadComponents`' answer. An `ok` answer replaces the cache wholesale
      with `data.components`, or the empty list when it is missing; the
      current selection is not consulted. Anything else keeps the cache. */
  function ComponentsReplied(s: Session, actor: int, r: Response): (o: Outcome)
    ensures r.Http? && r.ok ==> o.next.components == r.body.components.GetOr([])
    ensures !(r.Http? && r.ok) ==> o.next.components == s.components
    ensures o.next == s.(components := o.next.components)
    ensures o.sent == [] && o.effects == []
  {
    if r.Http? && r.ok then Quiet(s.(components := r.body.components.GetOr([])))
    else Quiet(s)
  }

  /** `loadComponents`' answer as `clearSelection` means the cache (app.js
      1038-1039): an answer is applied only while its actor is still the
      selection, and an answer for any other actor is dropped. The cache
      therefore only ever changes to the selected actor's components. */
  function ComponentsRepliedIntended(s: Session, actor: int, r: Response): (o: Outcome)
    ensures s.selected == Some(actor) ==> o == ComponentsReplied(s, actor, r)
    ensures s.selected != Some(actor) ==> o.next == s
    ensures o.next.components != s.components ==>
      s.selected == Some(actor) && r.Http? && r.ok && o.next.components == r.body.components.GetOr([])
    ensures o.sent == [] && o.effects == []
  {
    if s.selected == Some(actor) then ComponentsReplied(s, actor, r)
    else Quiet(s)
  }
}
