/**
  Structured fields (utils.go): field values, field maps, the call a logger
  method receives, and mergeFields, which combines the fields a logger has
  accumulated with the per-call fields of one log call.
 */
module Fields {
  import opened Wrappers
  import opened Levels

  /** The comparable dynamic values a field can hold; Nil is Go's nil interface. */
  datatype Value = Nil | Str(s: string) | Int(i: int) | Bool(b: bool)

  /** map[string]interface{}; a nil map is the empty map. */
  type Fields = map<string, Value>

  /** An opaque context.Context. */
  datatype Context = Context(id: nat)

  /**
    One call of a leveled logger method: `Info(msg, fields...)` is
    Call(Info, msg, fields, None) and `InfoContext(ctx, msg, fields...)` is
    Call(Info, msg, fields, Some(ctx)). `fields` is the variadic slice.
   */
  datatype Call = Call(level: Level, msg: string, fields: seq<Fields>, ctx: Option<Context>)

  /** Reading a map the Go way: an absent key reads as nil. */
  function Lookup(m: Fields, key: string): Value {
    if key in m then m[key] else Nil
  }

  /** `for key, value := range src { dst[key] = value }`, on a copy of dst. */
  method CopyFields(dst: Fields, src: Fields) returns (r: Fields)
    ensures r.Keys == dst.Keys + src.Keys
    ensures forall k :: k in src ==> r[k] == src[k]
    ensures forall k :: k in dst && k !in src ==> r[k] == dst[k]
  {
    r := dst;
    var rest := src.Keys;
    while rest != {}
      invariant rest <= src.Keys
      invariant r.Keys == dst.Keys + (src.Keys - rest)
      invariant forall k :: k in src && k !in rest ==> r[k] == src[k]
      invariant forall k :: k in dst && k !in src ==> r[k] == dst[k]
      invariant forall k :: k in dst && k in rest ==> r[k] == dst[k]
      decreases rest
    {
      var k :| k in rest;
      r := r[k := src[k]];
      rest := rest - {k};
    }
  }

  /** What CopyFields promises is the map union in which `src` wins. */
  lemma CopyIsUnion(dst: Fields, src: Fields, r: Fields)
    requires r.Keys == dst.Keys + src.Keys
    requires forall k :: k in src ==> r[k] == src[k]
    requires forall k :: k in dst && k !in src ==> r[k] == dst[k]
    ensures r == dst + src
  {
  }

  /**
    The value mergeFields returns: the current fields when no per-call map is
    passed, the first per-call map when the current fields are empty, and
    otherwise their union in which the first per-call map wins.
   */
  function Merged(current: Fields, fields: seq<Fields>): (r: Fields)
    ensures |fields| == 0 ==> r == current
    ensures |fields| > 0 ==> r.Keys == current.Keys + fields[0].Keys
    ensures |fields| > 0 ==> forall k :: k in fields[0] ==> r[k] == fields[0][k]
    ensures |fields| > 0 ==> forall k :: k in current && k !in fields[0] ==> r[k] == current[k]
  {
    if |fields| == 0 then current
    else if |current| == 0 then fields[0]
    else current + fields[0]
  }

  /** mergeFields (utils.go): builds the union in a fresh map with two copy loops. */
  method MergeFields(current: Fields, fields: seq<Fields>) returns (r: Fields)
    ensures r == Merged(current, fields)
  {
    if |fields| == 0 {
      return current;
    }
    if |current| == 0 {
      return fields[0];
    }
    var copy := CopyFields(map[], current);
    CopyIsUnion(map[], current, copy);
    r := CopyFields(copy, fields[0]);
    CopyIsUnion(copy, fields[0], r);
    assert map[] + current == current;
  }

  /** Only the first per-call map is consulted. */
  lemma MergedIgnoresLaterMaps(current: Fields, fields: seq<Fields>, extra: seq<Fields>)
    requires |fields| > 0
    ensures Merged(current, fields + extra) == Merged(current, fields[..1])
  {
    assert (fields + extra)[0] == fields[..1][0];
  }

  /** Merging with the empty map changes nothing, whichever side it is on. */
  lemma MergedWithEmpty(current: Fields)
    ensures Merged(current, [map[]]) == current
    ensures Merged(map[], [current]) == current
  {
  }

  /** With one per-call map, mergeFields is plain map union in which that map wins. */
  lemma MergedOne(current: Fields, m: Fields)
    ensures Merged(current, [m]) == current + m
  {
    if |current| == 0 {
      assert current == map[];
      assert current + m == m;
    }
  }

  /** Merging twice is merging once with the union of the per-call maps, later maps winning. */
  lemma MergedTwice(current: Fields, a: Fields, b: Fields)
    ensures Merged(Merged(current, [a]), [b]) == Merged(current, [a + b])
  {
    MergedOne(current, a);
    MergedOne(current + a, b);
    MergedOne(current, a + b);
    UnionAssociative(current, a, b);
  }

  lemma UnionAssociative(x: Fields, y: Fields, z: Fields)
    ensures (x + y) + z == x + (y + z)
  {
    var l, r := (x + y) + z, x + (y + z);
    assert l.Keys == r.Keys;
    forall k | k in l
      ensures l[k] == r[k]
    {
    }
  }

  /** A map whose keys include the accumulated ones absorbs them: merging adds nothing. */
  lemma MergedAbsorbed(current: Fields, m: Fields)
    requires |current| > 0 && current.Keys <= m.Keys
    ensures Merged(current, [m]) == m
  {
    var r := Merged(current, [m]);
    assert r.Keys == m.Keys;
    forall k | k in r
      ensures r[k] == m[k]
    {
    }
  }

  /** The fields accumulated by enriching with each map of `ns` in turn, later maps winning. */
  function Accumulated(ns: seq<Fields>): Fields
    decreases |ns|
  {
    if ns == [] then map[] else Accumulated(ns[..|ns| - 1]) + ns[|ns| - 1]
  }
}
