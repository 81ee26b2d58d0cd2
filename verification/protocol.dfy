/** What crosses the inspector's boundary: the debounced actions it keeps,
    the requests it sends to the engine's `/api`, the responses that come
    back, the events that drive it, and the effects it has on the page
    beyond its own state. */
module Protocol {
  import opened Base
  import opened Scene
  import Keys

  /** The callback a debounce timer holds: the write to perform when it
      fires, with the value the field held at its latest input event. */
  datatype Action =
    | TransformEdit(actor: int, part: Part, axis: Axis, coord: real)
    | ComponentEdit(component: int, property: string, value: Value)

  /** The debounce table key of an action's input element. */
  function KeyOf(a: Action): string {
    match a
    case TransformEdit(actor, part, axis, _) => Keys.TransformKey(actor, part, axis)
    case ComponentEdit(component, property, _) => Keys.ComponentKey(component, property)
  }

  /** Two actions write the same field: they differ at most in the value. */
  predicate SameField(a: Action, b: Action) {
    match a
    case TransformEdit(actor, part, axis, _) =>
      b.TransformEdit? && b.actor == actor && b.part == part && b.axis == axis
    case ComponentEdit(component, property, _) =>
      b.ComponentEdit? && b.component == component && b.property == property
  }

  /** The debounce key identifies the field: two actions share a key exactly
      when they write the same field, so a newer edit supersedes an older
      one only for that field. */
  lemma KeyOfIdentifiesField(a: Action, b: Action)
    ensures KeyOf(a) == KeyOf(b) <==> SameField(a, b)
  {
    if KeyOf(a) == KeyOf(b) {
      match a {
        case TransformEdit(actor, part, axis, _) =>
          match b {
            case TransformEdit(actor', part', axis', _) =>
              Keys.TransformKeyInjective(actor, part, axis, actor', part', axis');
            case ComponentEdit(component', property', _) =>
              Keys.KeyKindsDisjoint(actor, part, axis, component', property');
          }
        case ComponentEdit(component, property, _) =>
          match b {
            case TransformEdit(actor', part', axis', _) =>
              Keys.KeyKindsDisjoint(actor', part', axis', component, property);
            case ComponentEdit(component', property', _) =>
              Keys.ComponentKeyInjective(component, property, component', property');
          }
      }
    }
  }

  /** A request the inspector has sent and not yet seen answered. */
  datatype Request =
    | ConnectionProbe                       // GET /stats (checkConnection)
    | EngineStatusFetch                     // GET /engine/status
    | PauseToggle(resume: bool)             // POST /engine/resume, or /engine/pause
    | SceneFetch                            // GET /actors (loadScene)
    | DetailsFetch(actor: int)              // GET /actors/{id} (loadActorDetails)
    | EditorSelect(actor: int)              // GET /editor/select/{id}
    | ComponentsFetch(actor: int)           // GET /actors/{id}/components
    | ActorPropertyPost(actor: int, field: ActorField, text: string)
    | TransformFetch(actor: int, part: Part, axis: Axis, coord: real)  // GET /actors/{id} in updateTransform
    | TransformPost(actor: int, payload: Transform)
    | ComponentPropertyPost(component: int, property: string, value: Value)
    | ComponentEnabledPost(component: int, enabled: bool)

  /** The fields of a parsed response body that the inspector reads. A
      list is `None` when missing or null; a flag is its truthiness. */
  datatype Body = Body(
    actors: Option<seq<Actor>>,
    components: Option<seq<Component>>,
    transform: Option<Transform>,
    success: bool,
    message: bool,
    error: bool,
    paused: bool)

  /** How a request ends: the fetch rejects or its body does not parse
      where the code parses it (`Threw`), or an HTTP response arrives. */
  datatype Response = Threw | Http(ok: bool, body: Body)

  /** The events that drive the inspector: user input, the passage of
      time, timer callbacks and network completions. */
  datatype Event =
    | Focus                                  // onfocus of an editable input
    | Blur                                   // onblur of an editable input
    | Elapse(ms: nat)                        // the virtual clock advances
    | Fire(timer: nat)                       // a due timer's callback runs
    | RefreshClicked                         // the refresh button
    | ActorClicked(actor: int)               // a row of the actor list
    | ClearClicked                           // the clear-selection action
    | ActorFieldChanged(actor: int, field: ActorField, text: string)     // onchange of name or tag
    | TransformInput(actor: int, part: Part, axis: Axis, coord: real)     // oninput of a coordinate
    | ComponentInput(component: int, property: string, value: Value)     // oninput of a number or text property
    | ComponentCheckboxChanged(component: int, property: string, checked: bool)  // onchange of a boolean property
    | EnabledToggled(component: int, enabled: bool)  // onchange of a component's enable checkbox
    | PauseClicked                           // the pause/resume button
    | AutoRefreshToggled                     // the auto-refresh toggle
    | SettingsSaved(intervalMs: int)         // the settings form's refresh interval
    | Reply(request: Request, response: Response)

  /** Effects on the page beyond the inspector's own state. */
  datatype Effect =
    | CheckboxRestored(component: int, checked: bool)  // the enable checkbox is put back
    | ActionRan(key: string, action: Action)           // a debounce timer ran its callback
}
