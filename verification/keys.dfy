/** The string keys of the debounce table. An input's key is built from its
    `data-*` attributes: `transform_{actor}_{part}_{axis}` for a transform
    coordinate and `component_{id}_{property}` for a component property.
    Ids are printed in decimal, so they never contain '_', and the key
    therefore names exactly one field: two inputs share a debounce timer
    only when they edit the same field. */
module Keys {
  import opened Scene

  function DigitChar(d: nat): char
    requires d < 10
  {
    ('0' as int + d) as char
  }

  /** Decimal digits of `n`, most significant first, without leading zeros. */
  function Digits(n: nat): (r: string)
    ensures n < 10 <==> |r| == 1
    ensures |r| >= 1
    ensures forall i | 0 <= i < |r| :: '0' <= r[i] <= '9'
  {
    if n < 10 then [DigitChar(n)] else Digits(n / 10) + [DigitChar(n % 10)]
  }

  /** How a template literal prints an integer id. */
  function Decimal(i: int): (r: string)
    ensures |r| >= 1
    ensures r[0] == '-' <==> i < 0
    ensures forall k | 0 <= k < |r| :: r[k] != '_'
  {
    if i < 0 then "-" + Digits(-i) else Digits(i)
  }

  lemma {:induction false} DigitsInjective(m: nat, n: nat)
    requires Digits(m) == Digits(n)
    ensures m == n
    decreases m
  {
    if m >= 10 {
      var dm, dn := Digits(m), Digits(n);
      assert dm == Digits(m / 10) + [DigitChar(m % 10)];
      assert dn == Digits(n / 10) + [DigitChar(n % 10)];
      assert dm[..|dm| - 1] == Digits(m / 10);
      assert dn[..|dn| - 1] == Digits(n / 10);
      DigitsInjective(m / 10, n / 10);
      assert DigitChar(m % 10) == dm[|dm| - 1] == dn[|dn| - 1] == DigitChar(n % 10);
    }
  }

  /** Printing ids in decimal loses nothing: distinct ids print differently. */
  lemma DecimalInjective(i: int, j: int)
    requires Decimal(i) == Decimal(j)
    ensures i == j
  {
    if i < 0 {
      assert Decimal(i)[1..] == Digits(-i);
      assert Decimal(j)[1..] == Digits(-j);
      DigitsInjective(-i, -j);
    } else {
      DigitsInjective(i, j);
    }
  }

  function PartName(p: Part): (r: string)
    ensures '_' !in r
  {
    match p
    case Position => "position"
    case Rotation => "rotation"
    case Scale => "scale"
  }

  function AxisName(a: Axis): string {
    match a
    case X => "x"
    case Y => "y"
    case Z => "z"
  }

  /** `${prefix}${id}_${rest}`: the shape both kinds of key share. */
  function Entry(prefix: string, id: int, rest: string): string {
    prefix + Decimal(id) + "_" + rest
  }

  /** `transform_${actorId}_${transform}_${axis}` of `debouncedUpdateTransform`. */
  function TransformKey(actor: int, part: Part, axis: Axis): string {
    Entry("transform_", actor, PartName(part) + "_" + AxisName(axis))
  }

  /** `component_${componentId}_${property}` of `debouncedUpdateComponentProperty`. */
  function ComponentKey(component: int, property: string): string {
    Entry("component_", component, property)
  }

  /** A separator that occurs in neither left-hand part splits a string
      uniquely at its first occurrence. */
  lemma SplitAtSeparator(c: char, u1: string, v1: string, u2: string, v2: string)
    requires c !in u1 && c !in u2
    requires u1 + [c] + v1 == u2 + [c] + v2
    ensures u1 == u2 && v1 == v2
  {
    var w := u1 + [c] + v1;
    assert forall j | 0 <= j < |u1| :: w[j] == u1[j];
    assert forall j | 0 <= j < |u2| :: w[j] == u2[j];
    assert w[|u1|] == c && w[|u2|] == c;
    assert |u1| == |u2|;
    assert u1 == w[..|u1|] == u2;
    assert v1 == w[|u1| + 1..] == v2;
  }

  /** Under one prefix, the id and the rest of a key are recovered from it. */
  lemma EntryInjective(prefix: string, i1: int, r1: string, i2: int, r2: string)
    requires Entry(prefix, i1, r1) == Entry(prefix, i2, r2)
    ensures i1 == i2 && r1 == r2
  {
    var d1, d2 := Decimal(i1), Decimal(i2);
    assert Entry(prefix, i1, r1) == prefix + (d1 + ['_'] + r1);
    assert Entry(prefix, i2, r2) == prefix + (d2 + ['_'] + r2);
    assert d1 + ['_'] + r1 == Entry(prefix, i1, r1)[|prefix|..];
    assert d2 + ['_'] + r2 == Entry(prefix, i2, r2)[|prefix|..];
    assert '_' !in d1 && '_' !in d2;
    SplitAtSeparator('_', d1, r1, d2, r2);
    DecimalInjective(i1, i2);
  }

  /** Each transform key names exactly one (actor, part, axis) coordinate. */
  lemma TransformKeyInjective(a1: int, p1: Part, x1: Axis, a2: int, p2: Part, x2: Axis)
    requires TransformKey(a1, p1, x1) == TransformKey(a2, p2, x2)
    ensures a1 == a2 && p1 == p2 && x1 == x2
  {
    EntryInjective("transform_", a1, PartName(p1) + "_" + AxisName(x1), a2, PartName(p2) + "_" + AxisName(x2));
    SplitAtSeparator('_', PartName(p1), AxisName(x1), PartName(p2), AxisName(x2));
    NamesInjective(p1, x1, p2, x2);
  }

  lemma NamesInjective(p1: Part, x1: Axis, p2: Part, x2: Axis)
    requires PartName(p1) == PartName(p2) && AxisName(x1) == AxisName(x2)
    ensures p1 == p2 && x1 == x2
  {
    assert PartName(p1)[0] == PartName(p2)[0];
    assert AxisName(x1)[0] == AxisName(x2)[0];
  }

  /** Each component key names exactly one (component, property path) pair,
      even when the property name itself contains '_'. */
  lemma ComponentKeyInjective(c1: int, q1: string, c2: int, q2: string)
    requires ComponentKey(c1, q1) == ComponentKey(c2, q2)
    ensures c1 == c2 && q1 == q2
  {
    EntryInjective("component_", c1, q1, c2, q2);
  }

  /** A transform input and a component input never share a key. */
  lemma KeyKindsDisjoint(a: int, p: Part, x: Axis, c: int, q: string)
    ensures TransformKey(a, p, x) != ComponentKey(c, q)
  {
    assert TransformKey(a, p, x)[0] == 't';
    assert ComponentKey(c, q)[0] == 'c';
  }
}
