/** The inspector's cached projection of the remote scene (the actor list,
    transforms and the selected actor's components) and the pure patches the
    write pipeline applies to those caches once the engine confirms a write. */
module Scene {
  import opened Base

  /** `data-transform`: which vector of a transform an input edits. */
  datatype Part = Position | Rotation | Scale

  /** `data-axis`: which coordinate of that vector. */
  datatype Axis = X | Y | Z

  datatype Vec3 = Vec3(x: real, y: real, z: real)

  /** The transform object of `GET /actors/{id}`, rotation in degrees. */
  datatype Transform = Transform(position: Vec3, rotation: Vec3, scale: Vec3)

  /** The two actor fields the inspector edits through `updateActorProperty`. */
  datatype ActorField = Name | Tag

  /** One entry of `GET /actors`. */
  datatype Actor = Actor(id: int, name: string, tag: string)

  /** One entry of `GET /actors/{id}/components`; `properties` is `None`
      when the field is missing or null. */
  datatype Component = Component(
    id: int,
    kind: string,
    enabled: bool,
    properties: Option<map<string, Value>>)

  // ---------------------------------------------------------------------------
  // Transforms
  // ---------------------------------------------------------------------------

  function Coord(v: Vec3, axis: Axis): real {
    match axis
    case X => v.x
    case Y => v.y
    case Z => v.z
  }

  function WithCoord(v: Vec3, axis: Axis, c: real): Vec3 {
    match axis
    case X => v.(x := c)
    case Y => v.(y := c)
    case Z => v.(z := c)
  }

  function PartOf(t: Transform, part: Part): Vec3 {
    match part
    case Position => t.position
    case Rotation => t.rotation
    case Scale => t.scale
  }

  function WithPart(t: Transform, part: Part, v: Vec3): Transform {
    match part
    case Position => t.(position := v)
    case Rotation => t.(rotation := v)
    case Scale => t.(scale := v)
  }

  /** `transform[part][axis]` */
  function Get(t: Transform, part: Part, axis: Axis): real {
    Coord(PartOf(t, part), axis)
  }

  /** `transform[part][axis] = c` applied to a copy: the one coordinate
      takes the new value and the other eight keep theirs. */
  function SetAxis(t: Transform, part: Part, axis: Axis, c: real): (r: Transform)
    ensures Get(r, part, axis) == c
    ensures forall p: Part, a: Axis :: (p != part || a != axis) ==> Get(r, p, a) == Get(t, p, a)
  {
    WithPart(t, part, WithCoord(PartOf(t, part), axis, c))
  }

  /** A transform is determined by its nine coordinates, so the two
      ensures of `SetAxis` pin its result down completely. */
  lemma TransformExtensional(t: Transform, u: Transform)
    requires forall p: Part, a: Axis :: Get(t, p, a) == Get(u, p, a)
    ensures t == u
  {
    assert Get(t, Position, X) == Get(u, Position, X);
    assert Get(t, Position, Y) == Get(u, Position, Y);
    assert Get(t, Position, Z) == Get(u, Position, Z);
    assert Get(t, Rotation, X) == Get(u, Rotation, X);
    assert Get(t, Rotation, Y) == Get(u, Rotation, Y);
    assert Get(t, Rotation, Z) == Get(u, Rotation, Z);
    assert Get(t, Scale, X) == Get(u, Scale, X);
    assert Get(t, Scale, Y) == Get(u, Scale, Y);
    assert Get(t, Scale, Z) == Get(u, Scale, Z);
  }

  /** Writing back the value just read changes nothing. */
  lemma SetAxisOfGet(t: Transform, part: Part, axis: Axis)
    ensures SetAxis(t, part, axis, Get(t, part, axis)) == t
  {
    TransformExtensional(SetAxis(t, part, axis, Get(t, part, axis)), t);
  }

  /** Two writes to the same coordinate: the later one wins. */
  lemma SetAxisLastWins(t: Transform, part: Part, axis: Axis, c: real, d: real)
    ensures SetAxis(SetAxis(t, part, axis, c), part, axis, d) == SetAxis(t, part, axis, d)
  {
    TransformExtensional(SetAxis(SetAxis(t, part, axis, c), part, axis, d), SetAxis(t, part, axis, d));
  }

  // ---------------------------------------------------------------------------
  // Finding an entry by id
  // ---------------------------------------------------------------------------

  function ActorId(a: Actor): int { a.id }

  function ComponentId(c: Component): int { c.id }

  /** `xs.some(x => x.id === id)` */
  predicate Present<T>(xs: seq<T>, idOf: T -> int, id: int) {
    exists i | 0 <= i < |xs| :: idOf(xs[i]) == id
  }

  /** The index `xs.find(x => x.id === id)` lands on: the first entry with
      that id, and none exactly when no entry has it. */
  function FindFirst<T>(xs: seq<T>, idOf: T -> int, id: int): (r: Option<nat>)
    ensures r.Some? ==> r.value < |xs| && idOf(xs[r.value]) == id
    ensures r.Some? ==> forall j | 0 <= j < r.value :: idOf(xs[j]) != id
    ensures r.None? <==> !Present(xs, idOf, id)
    decreases |xs|
  {
    if |xs| == 0 then None
    else if idOf(xs[0]) == id then Some(0)
    else
      match FindFirst(xs[1..], idOf, id)
      case None => None
      case Some(i) => Some(i + 1)
  }

  // ---------------------------------------------------------------------------
  // Actor cache patch (updateActorProperty)
  // ---------------------------------------------------------------------------

  function FieldOf(a: Actor, field: ActorField): string {
    match field
    case Name => a.name
    case Tag => a.tag
  }

  function SetField(a: Actor, field: ActorField, value: string): Actor {
    match field
    case Name => a.(name := value)
    case Tag => a.(tag := value)
  }

  function OtherField(field: ActorField): ActorField {
    match field
    case Name => Tag
    case Tag => Name
  }

  /** `actor[property] = value` on the first cached actor with the id:
      that actor's edited field takes the value, its id and other field are
      kept, every other actor is untouched, and an absent id changes nothing. */
  function PatchActor(actors: seq<Actor>, id: int, field: ActorField, value: string): (r: seq<Actor>)
    ensures |r| == |actors|
    ensures !Present(actors, ActorId, id) ==> r == actors
    ensures Present(actors, ActorId, id) ==>
      var i := FindFirst(actors, ActorId, id).value;
      && r[i].id == id
      && FieldOf(r[i], field) == value
      && FieldOf(r[i], OtherField(field)) == FieldOf(actors[i], OtherField(field))
      && forall j | 0 <= j < |r| && j != i :: r[j] == actors[j]
  {
    match FindFirst(actors, ActorId, id)
    case None => actors
    case Some(i) => actors[i := SetField(actors[i], field, value)]
  }

  // ---------------------------------------------------------------------------
  // Component property paths (updateComponentProperty)
  // ---------------------------------------------------------------------------

  /** Number of '.' characters in a property path. */
  function Dots(p: string): nat {
    if |p| == 0 then 0 else (if p[0] == '.' then 1 else 0) + Dots(p[1..])
  }

  /** Index of the first '.', or `|p|` when there is none. */
  function FirstDot(p: string): (i: nat)
    ensures i <= |p|
    ensures i < |p| ==> p[i] == '.'
    ensures forall j | 0 <= j < i :: p[j] != '.'
    ensures '.' !in p[..i]
  {
    if |p| == 0 then 0
    else if p[0] == '.' then 0
    else
      var j := FirstDot(p[1..]);
      assert p[..j + 1] == [p[0]] + p[1..][..j];
      j + 1
  }

  /** `property.split(".")` when it yields exactly two parts `[a, b]`;
      `None` for a flat key and for paths of three or more parts. */
  function SplitPath(p: string): (r: Option<(string, string)>)
    ensures r.Some? ==> p == r.value.0 + "." + r.value.1
    ensures r.Some? ==> '.' !in r.value.0 && '.' !in r.value.1
  {
    var i := FirstDot(p);
    if i == |p| then None
    else if '.' in p[i + 1..] then None
    else
      assert p == p[..i] + "." + p[i + 1..];
      Some((p[..i], p[i + 1..]))
  }

  lemma {:induction false} DotsAppend(a: string, b: string)
    ensures Dots(a + b) == Dots(a) + Dots(b)
    decreases |a|
  {
    if |a| == 0 {
      assert a + b == b;
    } else {
      assert (a + b)[1..] == a[1..] + b;
      DotsAppend(a[1..], b);
    }
  }

  lemma {:induction false} NoDotsIffZero(p: string)
    ensures '.' !in p <==> Dots(p) == 0
    decreases |p|
  {
    if |p| > 0 {
      NoDotsIffZero(p[1..]);
      assert p == [p[0]] + p[1..];
    }
  }

  /** The partner of `SplitPath`, against an independent count: a path
      splits into two parts exactly when it holds one '.'. */
  lemma SplitPathIffOneDot(p: string)
    ensures SplitPath(p).Some? <==> Dots(p) == 1
  {
    var i := FirstDot(p);
    if i == |p| {
      assert p[..i] == p;
      NoDotsIffZero(p);
    } else {
      assert p == p[..i] + ([p[i]] + p[i + 1..]);
      DotsAppend(p[..i], [p[i]] + p[i + 1..]);
      DotsAppend([p[i]], p[i + 1..]);
      NoDotsIffZero(p[..i]);
      NoDotsIffZero(p[i + 1..]);
      assert Dots([p[i]]) == 1;
    }
  }

  /** The round trip: joining two dot-free names with '.' and splitting
      the result gives the two names back. */
  lemma SplitPathJoin(a: string, b: string)
    requires '.' !in a && '.' !in b
    ensures SplitPath(a + "." + b) == Some((a, b))
  {
    var p := a + "." + b;
    var i := FirstDot(p);
    assert p[|a|] == '.';
    assert forall j | 0 <= j < |a| :: p[j] == a[j];
    assert i == |a|;
    assert p[..i] == a;
    assert p[i + 1..] == b;
  }

  /** The local patch after a confirmed component property write.
      A flat key is set directly. A two-part path `a.b` sets `props[a][b]`,
      first replacing a missing or falsy `props[a]` by `{}`; when `props[a]`
      is a truthy number, string or boolean the assignment lands on a
      primitive and, in a non-strict script, has no effect. */
  function PatchProperty(props: map<string, Value>, property: string, value: Value): (r: map<string, Value>)
    // a flat key or a path of three or more parts
    ensures SplitPath(property).None? ==>
      && r.Keys == props.Keys + {property}
      && r[property] == value
      && forall k | k in props && k != property :: r[k] == props[k]
    // a two-part path whose head is missing, falsy or an object
    ensures SplitPath(property).Some? ==>
      var (a, b) := SplitPath(property).value;
      (a !in props || !Truthy(props[a]) || props[a].Obj?) ==>
        && r.Keys == props.Keys + {a}
        && r[a].Obj? && b in r[a].fields && r[a].fields[b] == value
        && (forall k | k in props && k != a :: r[k] == props[k])
        && (a in props && props[a].Obj? ==>
              && r[a].fields.Keys == props[a].fields.Keys + {b}
              && forall c | c in props[a].fields && c != b :: r[a].fields[c] == props[a].fields[c])
        && (a !in props || !Truthy(props[a]) ==> r[a].fields.Keys == {b})
    // a two-part path whose head is a truthy primitive
    ensures SplitPath(property).Some? ==>
      var (a, b) := SplitPath(property).value;
      (a in props && Truthy(props[a]) && !props[a].Obj?) ==> r == props
  {
    match SplitPath(property)
    case None => props[property := value]
    case Some((a, b)) =>
      var slot := if a in props then props[a] else Null;
      if !Truthy(slot) then props[a := Obj(map[b := value])]
      else if slot.Obj? then props[a := Obj(slot.fields[b := value])]
      else props
  }

  /** The write of `PatchProperty` on the first cached component with the
      id, when that component has a properties object; every other
      component, and that component's id, type and enabled flag, are kept. */
  function PatchComponent(components: seq<Component>, id: int, property: string, value: Value): (r: seq<Component>)
    ensures |r| == |components|
    ensures !Present(components, ComponentId, id) ==> r == components
    ensures Present(components, ComponentId, id) ==>
      var i := FindFirst(components, ComponentId, id).value;
      && r[i].id == id
      && r[i].kind == components[i].kind
      && r[i].enabled == components[i].enabled
      && (components[i].properties.None? ==> r[i].properties.None?)
      && (components[i].properties.Some? ==>
            r[i].properties == Some(PatchProperty(components[i].properties.value, property, value)))
      && forall j | 0 <= j < |r| && j != i :: r[j] == components[j]
  {
    match FindFirst(components, ComponentId, id)
    case None => components
    case Some(i) =>
      var c := components[i];
      match c.properties
      case None => components
      case Some(props) => components[i := c.(properties := Some(PatchProperty(props, property, value)))]
  }

  /** `component.enabled = enabled` on the first cached component with the
      id: only that flag changes, and an absent id changes nothing. */
  function SetEnabled(components: seq<Component>, id: int, enabled: bool): (r: seq<Component>)
    ensures |r| == |components|
    ensures !Present(components, ComponentId, id) ==> r == components
    ensures Present(components, ComponentId, id) ==>
      var i := FindFirst(components, ComponentId, id).value;
      && r[i].enabled == enabled
      && r[i].id == id
      && r[i].kind == components[i].kind
      && r[i].properties == components[i].properties
      && forall j | 0 <= j < |r| && j != i :: r[j] == components[j]
  {
    match FindFirst(components, ComponentId, id)
    case None => components
    case Some(i) => components[i := components[i].(enabled := enabled)]
  }
}
