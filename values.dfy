/**
 * net/url's `Values` (a `map[string][]string`) and its `Encode`: keys in
 * sorted order, one `key=value` pair per value, pairs joined by `&`, each
 * side passed through url.QueryEscape (a `Library` field).
 */
module UrlValues {
  import opened Http

  type Values = map<string, seq<string>>

  /** Values.Add: appends `x` to the values of `k`. */
  function Add(v: Values, k: string, x: string): Values {
    v[k := (if k in v then v[k] else []) + [x]]
  }

  /** Values.Set: makes `[x]` the only value of `k`. */
  function Set(v: Values, k: string, x: string): Values {
    v[k := [x]]
  }

  /** The Values a helper builds from a string map: one value per key. */
  function OfMap(m: StrMap): Values {
    map k | k in m :: [m[k]]
  }

  /** Go's `<` on strings (byte order, which for UTF-8 is code point order), non-strict. */
  predicate Below(a: string, b: string) {
    |a| == 0 || (|b| > 0 && (a[0] < b[0] || (a[0] == b[0] && Below(a[1..], b[1..]))))
  }

  lemma {:induction false} BelowReflexive(a: string)
    ensures Below(a, a)
  {
    if |a| > 0 {
      BelowReflexive(a[1..]);
    }
  }

  lemma {:induction false} BelowTotal(a: string, b: string)
    ensures Below(a, b) || Below(b, a)
  {
    if |a| > 0 && |b| > 0 && a[0] == b[0] {
      BelowTotal(a[1..], b[1..]);
    }
  }

  lemma {:induction false} BelowAntisymmetric(a: string, b: string)
    requires Below(a, b) && Below(b, a)
    ensures a == b
  {
    if |a| > 0 {
      BelowAntisymmetric(a[1..], b[1..]);
    }
  }

  lemma {:induction false} BelowTransitive(a: string, b: string, c: string)
    requires Below(a, b) && Below(b, c)
    ensures Below(a, c)
  {
    if |a| > 0 && a[0] == b[0] && b[0] == c[0] {
      BelowTransitive(a[1..], b[1..], c[1..]);
    }
  }

  predicate IsLeast(k: string, s: set<string>) {
    k in s && forall j :: j in s ==> Below(k, j)
  }

  lemma {:induction false} LeastExists(s: set<string>)
    requires s != {}
    ensures exists k :: IsLeast(k, s)
    decreases |s|
  {
    var x :| x in s;
    var rest := s - {x};
    if rest == {} {
      assert s == {x};
      BelowReflexive(x);
      assert IsLeast(x, s);
    } else {
      LeastExists(rest);
      var m :| IsLeast(m, rest);
      BelowTotal(x, m);
      if Below(x, m) {
        forall j | j in s ensures Below(x, j) {
          if j != x { BelowTransitive(x, m, j); } else { BelowReflexive(x); }
        }
        assert IsLeast(x, s);
      } else {
        assert IsLeast(m, s);
      }
    }
  }

  lemma LeastUnique(s: set<string>)
    ensures forall a, b :: IsLeast(a, s) && IsLeast(b, s) ==> a == b
  {
    forall a, b | IsLeast(a, s) && IsLeast(b, s) ensures a == b {
      BelowAntisymmetric(a, b);
    }
  }

  /** The smallest key of a non-empty key set. */
  function Least(s: set<string>): (k: string)
    requires s != {}
    ensures k in s && forall j :: j in s ==> Below(k, j)
  {
    LeastExists(s);
    LeastUnique(s);
    var k :| IsLeast(k, s); k
  }

  /** sort.Strings applied to the keys of a map. */
  function SortedKeys(s: set<string>): (r: seq<string>)
    ensures |r| == |s|
    ensures forall k :: k in s <==> k in r
    ensures forall i, j :: 0 <= i < j < |r| ==> Below(r[i], r[j]) && r[i] != r[j]
    decreases |s|
  {
    if s == {} then []
    else
      var m := Least(s);
      [m] + SortedKeys(s - {m})
  }

  /** The `key=value` pairs of one key, in the order of its values. */
  function KeyPairs(lib: Library, k: string, vs: seq<string>): seq<string> {
    if vs == [] then []
    else [lib.queryEscape(k) + "=" + lib.queryEscape(vs[0])] + KeyPairs(lib, k, vs[1..])
  }

  /** The pairs of every key of `keys`, key by key. */
  function Pairs(lib: Library, v: Values, keys: seq<string>): seq<string>
    requires forall k :: k in keys ==> k in v
  {
    if keys == [] then []
    else KeyPairs(lib, keys[0], v[keys[0]]) + Pairs(lib, v, keys[1..])
  }

  /** strings.Join. */
  function Join(parts: seq<string>, sep: string): string {
    if |parts| == 0 then ""
    else if |parts| == 1 then parts[0]
    else parts[0] + sep + Join(parts[1..], sep)
  }

  /** Values.Encode. */
  function Encode(lib: Library, v: Values): string {
    Join(Pairs(lib, v, SortedKeys(v.Keys)), "&")
  }

  /** The pair text of one key and value. */
  function Pair(lib: Library, k: string, x: string): string {
    lib.queryEscape(k) + "=" + lib.queryEscape(x)
  }

  /**
   * For Values built from a string map, the pairs are those of the map's
   * keys in sorted order, exactly one per key.
   */
  lemma {:induction false} PairsOfMap(lib: Library, m: StrMap, keys: seq<string>)
    requires forall k :: k in keys ==> k in m
    ensures |Pairs(lib, OfMap(m), keys)| == |keys|
    ensures forall i :: 0 <= i < |keys| ==> Pairs(lib, OfMap(m), keys)[i] == Pair(lib, keys[i], m[keys[i]])
  {
    if keys != [] {
      PairsOfMap(lib, m, keys[1..]);
      assert KeyPairs(lib, keys[0], OfMap(m)[keys[0]]) == [Pair(lib, keys[0], m[keys[0]])];
    }
  }

  /** Every pair contains `=`, so a join of at least one pair is never empty. */
  lemma {:induction false} JoinEmptyIff(parts: seq<string>, sep: string)
    requires forall i :: 0 <= i < |parts| ==> parts[i] != ""
    ensures Join(parts, sep) == "" <==> parts == []
  {
    if |parts| > 1 {
      assert |Join(parts, sep)| >= |parts[0]| > 0;
    }
  }

  /** The encoding of a map's Values is empty exactly when the map is empty. */
  lemma EncodeOfMapEmpty(lib: Library, m: StrMap)
    ensures Encode(lib, OfMap(m)) == "" <==> m == map[]
  {
    var keys := SortedKeys(m.Keys);
    assert OfMap(m).Keys == m.Keys;
    PairsOfMap(lib, m, keys);
    var parts := Pairs(lib, OfMap(m), keys);
    forall i | 0 <= i < |parts| ensures parts[i] != "" {
      assert '=' in parts[i] by {
        assert parts[i] == Pair(lib, keys[i], m[keys[i]]);
        assert parts[i][|lib.queryEscape(keys[i])|] == '=';
      }
    }
    JoinEmptyIff(parts, "&");
    if m != map[] {
      var k :| k in m;
      assert k in keys;
    }
  }

  /** A one-key map encodes to its single pair. */
  lemma EncodeSingle(lib: Library, k: string, x: string)
    ensures Encode(lib, OfMap(map[k := x])) == Pair(lib, k, x)
  {
    var m := map[k := x];
    var keys := SortedKeys(m.Keys);
    assert OfMap(m).Keys == m.Keys;
    assert |keys| == 1 && keys[0] in m;
    PairsOfMap(lib, m, keys);
  }
}
