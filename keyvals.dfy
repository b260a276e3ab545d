/**
  Flat key/value pair lists (`[]interface{}{k1, v1, k2, v2, ...}`) and their
  conversions to and from field maps: FromMap of internal/keyvals/from_map.go,
  and the pair-to-map conversion used by errorContextToMap in error_handler.go.
 */
module KeyVals {
  import opened Fields

  function DigitChar(d: nat): char
    requires d < 10
  {
    "0123456789"[d]
  }

  /** Decimal digits of a natural number, as fmt prints it. */
  function NatString(n: nat): (r: string)
    ensures |r| > 0
    decreases n
  {
    if n < 10 then [DigitChar(n)] else NatString(n / 10) + [DigitChar(n % 10)]
  }

  function IntString(i: int): string {
    if i < 0 then "-" + NatString(-i) else NatString(i)
  }

  /**
    The string a key becomes in a field map: a string key is used as it is, any
    other value is printed as fmt.Sprint prints it.
   */
  function KeyString(k: Value): (r: string)
    ensures k.Str? ==> r == k.s
  {
    match k
    case Str(s) => s
    case Nil => "<nil>"
    case Bool(b) => if b then "true" else "false"
    case Int(i) => IntString(i)
  }

  /** A pair list of odd length gets `pad` as the value of its dangling key. */
  function Padded(kvs: seq<Value>, pad: Value): (r: seq<Value>)
    ensures |r| % 2 == 0 && |kvs| <= |r| <= |kvs| + 1
    ensures r[..|kvs|] == kvs
    ensures |kvs| % 2 == 0 ==> r == kvs
    ensures |kvs| % 2 == 1 ==> r == kvs + [pad]
  {
    if |kvs| % 2 == 1 then kvs + [pad] else kvs
  }

  /** The keys at the even positions of a pair list. */
  ghost function KeysOf(kvs: seq<Value>): set<string> {
    set i | 0 <= i < |kvs| && i % 2 == 0 :: KeyString(kvs[i])
  }

  /**
    The map a pair list of even length denotes: each pair, from first to last, is
    written into an initially empty map, so a later pair overwrites an earlier one
    with the same key.
   */
  function PairsMap(kvs: seq<Value>): (r: Fields)
    requires |kvs| % 2 == 0
    decreases |kvs|
  {
    if kvs == [] then map[]
    else
      var prefix := PairsMap(kvs[..|kvs| - 2]);
      prefix[KeyString(kvs[|kvs| - 2]) := kvs[|kvs| - 1]]
  }

  /** The key of every pair is a key of the map. */
  lemma {:induction false} PairKeyInMap(kvs: seq<Value>, i: nat)
    requires |kvs| % 2 == 0 && i % 2 == 0 && i < |kvs|
    ensures KeyString(kvs[i]) in PairsMap(kvs)
    decreases |kvs|
  {
    if i + 2 < |kvs| {
      var prefix := kvs[..|kvs| - 2];
      assert prefix[i] == kvs[i];
      PairKeyInMap(prefix, i);
    } else {
      assert (|kvs| - 1) % 2 == 1;
      assert i == |kvs| - 2;
    }
  }

  /** Every key of the map is the key of some pair. */
  lemma {:induction false} MapKeyFromPair(kvs: seq<Value>, k: string) returns (i: nat)
    requires |kvs| % 2 == 0 && k in PairsMap(kvs)
    ensures i % 2 == 0 && i < |kvs| && KeyString(kvs[i]) == k
    decreases |kvs|
  {
    if k == KeyString(kvs[|kvs| - 2]) {
      i := |kvs| - 2;
    } else {
      var prefix := kvs[..|kvs| - 2];
      i := MapKeyFromPair(prefix, k);
      assert prefix[i] == kvs[i];
    }
  }

  /** The keys of the map are exactly the keys of the pairs. */
  lemma PairsMapKeys(kvs: seq<Value>)
    requires |kvs| % 2 == 0
    ensures PairsMap(kvs).Keys == KeysOf(kvs)
  {
    forall k | k in KeysOf(kvs)
      ensures k in PairsMap(kvs)
    {
      var i :| 0 <= i < |kvs| && i % 2 == 0 && KeyString(kvs[i]) == k;
      PairKeyInMap(kvs, i);
    }
    forall k | k in PairsMap(kvs)
      ensures k in KeysOf(kvs)
    {
      var i := MapKeyFromPair(kvs, k);
    }
  }

  /** Last write wins: a pair whose key does not occur again later gives that key its value. */
  lemma {:induction false} LastPairWins(kvs: seq<Value>, i: nat)
    requires |kvs| % 2 == 0 && i % 2 == 0 && i + 1 < |kvs|
    requires forall j :: i < j < |kvs| && j % 2 == 0 ==> KeyString(kvs[j]) != KeyString(kvs[i])
    ensures KeyString(kvs[i]) in PairsMap(kvs) && PairsMap(kvs)[KeyString(kvs[i])] == kvs[i + 1]
    decreases |kvs|
  {
    if i + 2 < |kvs| {
      var prefix := kvs[..|kvs| - 2];
      assert KeyString(kvs[|kvs| - 2]) != KeyString(kvs[i]);
      assert prefix[i] == kvs[i] && prefix[i + 1] == kvs[i + 1];
      LastPairWins(prefix, i);
    }
  }

  /**
    Writing two pair lists one after the other: the pairs of the second list
    override those of the first.
   */
  lemma {:induction false} PairsMapAppend(a: seq<Value>, b: seq<Value>)
    requires |a| % 2 == 0 && |b| % 2 == 0
    ensures PairsMap(a + b) == PairsMap(a) + PairsMap(b)
    decreases |b|
  {
    if b == [] {
      assert a + b == a;
    } else {
      var b', x, y := b[..|b| - 2], b[|b| - 2], b[|b| - 1];
      assert b == b' + [x, y];
      assert a + b == (a + b') + [x, y];
      PairsMapSnoc(a + b', x, y);
      PairsMapSnoc(b', x, y);
      PairsMapAppend(a, b');
      UnionUpdate(PairsMap(a), PairsMap(b'), KeyString(x), y);
    }
  }

  lemma UnionUpdate(x: Fields, y: Fields, k: string, v: Value)
    ensures (x + y)[k := v] == x + y[k := v]
  {
  }

  /** The part of `m` whose keys are not in `rest`. */
  ghost function Without(m: Fields, rest: set<string>): Fields {
    map k | k in m && k !in rest :: m[k]
  }

  /** The key of the `p`-th pair. */
  function KeyAt(kvs: seq<Value>, p: nat): Value
    requires 2 * p + 1 < |kvs|
  {
    kvs[2 * p]
  }

  /** The value of the `p`-th pair. */
  function ValueAt(kvs: seq<Value>, p: nat): Value
    requires 2 * p + 1 < |kvs|
  {
    kvs[2 * p + 1]
  }

  /**
    `kvs` lists pairs of `m`: the key of each pair is a string in `keys` and in
    `m`, its value is that key's value in `m`, and no key occurs twice.
   */
  ghost predicate ListsPairsOf(kvs: seq<Value>, m: Fields, keys: set<string>) {
    && |kvs| % 2 == 0
    && (forall p :: 0 <= p < |kvs| / 2 ==> KeyAt(kvs, p).Str? && KeyAt(kvs, p).s in keys && KeyAt(kvs, p).s in m && ValueAt(kvs, p) == m[KeyAt(kvs, p).s])
    && (forall p, q :: 0 <= p < q < |kvs| / 2 ==> KeyAt(kvs, p) != KeyAt(kvs, q))
  }

  lemma ListsPairsOfSnoc(kvs: seq<Value>, m: Fields, keys: set<string>, key: string)
    requires ListsPairsOf(kvs, m, keys) && key in m && key !in keys
    ensures ListsPairsOf(kvs + [Str(key), m[key]], m, keys + {key})
  {
    var r := kvs + [Str(key), m[key]];
    var n := |kvs| / 2;
    assert |r| / 2 == n + 1;
    assert KeyAt(r, n) == Str(key) && ValueAt(r, n) == m[key];
    forall p | 0 <= p < n
      ensures KeyAt(r, p) == KeyAt(kvs, p) && ValueAt(r, p) == ValueAt(kvs, p)
    {
    }
  }

  lemma PairsMapSnoc(kvs: seq<Value>, k: Value, v: Value)
    requires |kvs| % 2 == 0
    ensures PairsMap(kvs + [k, v]) == PairsMap(kvs)[KeyString(k) := v]
  {
    var r := kvs + [k, v];
    assert r[..|r| - 2] == kvs;
  }

  lemma WithoutStep(m: Fields, rest: set<string>, key: string)
    requires key in rest && key in m
    ensures Without(m, rest)[key := m[key]] == Without(m, rest - {key})
  {
  }

  /** One iteration of FromMap's loop keeps its invariant. */
  lemma FromMapStep(prev: seq<Value>, m: Fields, done: set<string>, rest: set<string>, key: string)
    requires done !! rest && done + rest == m.Keys && key in rest
    requires |prev| == 2 * |done|
    requires ListsPairsOf(prev, m, done) && PairsMap(prev) == Without(m, rest)
    ensures (done + {key}) !! (rest - {key}) && (done + {key}) + (rest - {key}) == m.Keys
    ensures |prev| + 2 == 2 * |done + {key}| <= 2 * |m|
    ensures ListsPairsOf(prev + [Str(key), m[key]], m, done + {key})
    ensures PairsMap(prev + [Str(key), m[key]]) == Without(m, rest - {key})
  {
    assert |done + {key}| == |done| + 1;
    assert |done + {key}| + |rest - {key}| == |m.Keys|;
    ListsPairsOfSnoc(prev, m, done, key);
    PairsMapSnoc(prev, Str(key), m[key]);
    WithoutStep(m, rest, key);
  }

  /**
    FromMap: a map becomes a pair list of twice its size; every even position
    holds a distinct key of the map and the next position its value, so the list
    denotes the map again. Pair order follows map iteration and is not specified.
   */
  method FromMap(m: Fields) returns (kvs: seq<Value>)
    ensures |kvs| == 2 * |m|
    ensures ListsPairsOf(kvs, m, m.Keys)
    ensures PairsMap(kvs) == m
  {
    if |m| == 0 {
      return [];
    }
    var keyvals := new Value[|m| * 2];
    var i := 0;
    var rest := m.Keys;
    ghost var done: set<string> := {};
    while rest != {}
      invariant done !! rest && done + rest == m.Keys
      invariant i == 2 * |done| && i <= keyvals.Length
      invariant ListsPairsOf(keyvals[..i], m, done)
      invariant PairsMap(keyvals[..i]) == Without(m, rest)
      decreases rest
    {
      var key :| key in rest;
      ghost var prev := keyvals[..i];
      keyvals[i] := Str(key);
      keyvals[i + 1] := m[key];
      assert keyvals[..i + 2] == prev + [Str(key), m[key]];
      FromMapStep(prev, m, done, rest, key);
      i := i + 2;
      rest := rest - {key};
      done := done + {key};
    }
    kvs := keyvals[..i];
    assert done == m.Keys;
    assert Without(m, rest) == m;
  }
}
