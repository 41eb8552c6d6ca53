/** Small shared vocabulary: optional values, JavaScript's `||` on strings,
    and URL query strings as ordered lists of name/value pairs. */
module Base {

  datatype Option<+T> = None | Some(value: T)

  /** `o || fallback` for a value of type `string | undefined`: an absent
      value and the empty string are both falsy and give `fallback`. */
  function OrElse(o: Option<string>, fallback: string): (r: string)
    ensures r == fallback || (o.Some? && r == o.value)
    ensures r == fallback <== o.None? || o.value == ""
    ensures o.Some? && o.value != "" ==> r == o.value
  {
    if o.Some? && o.value != "" then o.value else fallback
  }

  /** JavaScript truthiness of an optional string. */
  predicate Truthy(o: Option<string>)
  {
    o.Some? && o.value != ""
  }

  /** The decoded query of a URL, in order (a `URLSearchParams`). */
  type Query = seq<(string, string)>

  /** `URLSearchParams.get`: the value of the first pair named `key`. */
  function Lookup(q: Query, key: string): (r: Option<string>)
    ensures r.None? <==> forall i :: 0 <= i < |q| ==> q[i].0 != key
    ensures r.Some? ==> exists i :: 0 <= i < |q| && q[i] == (key, r.value)
                                    && forall j :: 0 <= j < i ==> q[j].0 != key
  {
    if q == [] then None
    else if q[0].0 == key then Some(q[0].1)
    else
      var r := Lookup(q[1..], key);
      assert r.Some? ==> exists i :: 0 <= i < |q[1..]| && q[1..][i] == (key, r.value)
                                     && forall j :: 0 <= j < i ==> q[1..][j].0 != key;
      r
  }

  /** The names that occur in a query. */
  function Names(q: Query): (r: set<string>)
    ensures forall k :: k in r <==> exists i :: 0 <= i < |q| && q[i].0 == k
  {
    set i | 0 <= i < |q| :: q[i].0
  }

  /** No name occurs twice, as for the entries of a JavaScript object. */
  predicate DistinctNames(q: Query)
  {
    forall i, j :: 0 <= i < j < |q| ==> q[i].0 != q[j].0
  }

  /** `a` can be obtained from `b` by deleting elements: `a` keeps `b`'s order. */
  predicate IsSubsequence<T(==)>(a: seq<T>, b: seq<T>)
    decreases |b|
  {
    a == [] || (b != [] && if a[0] == b[0] then IsSubsequence(a[1..], b[1..]) else IsSubsequence(a, b[1..]))
  }
}
