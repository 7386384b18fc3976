/** HelperService.excludeField: Object.fromEntries(Object.entries(object)
    .filter(([key]) => !keys.includes(key))). An object is modelled by its
    entry list, in property order; the result is a new value, so the input is
    never changed. */
module Helper {

  /** The entries of `obj` whose key is not in `keys`, in input order. */
  function ExcludeField<V(==)>(obj: seq<(string, V)>, keys: seq<string>): (r: seq<(string, V)>)
    ensures forall i :: 0 <= i < |r| ==> r[i].0 !in keys
    ensures forall i :: 0 <= i < |r| ==> r[i] in obj
    ensures forall i :: 0 <= i < |obj| && obj[i].0 !in keys ==> obj[i] in r
    ensures |r| <= |obj|
  {
    if |obj| == 0 then []
    else if obj[0].0 in keys then ExcludeField(obj[1..], keys)
    else [obj[0]] + ExcludeField(obj[1..], keys)
  }

  /** `sub` can be obtained from `s` by deleting elements: it keeps their
      relative order. */
  predicate IsSubsequence<T(==)>(sub: seq<T>, s: seq<T>)
    decreases |s|
  {
    |sub| == 0 ||
    (|s| > 0 && ((sub[0] == s[0] && IsSubsequence(sub[1..], s[1..])) || IsSubsequence(sub, s[1..])))
  }

  /** The survivors keep the order they had in the input (filter semantics). */
  lemma {:induction false} ExcludeFieldKeepsOrder<V>(obj: seq<(string, V)>, keys: seq<string>)
    ensures IsSubsequence(ExcludeField(obj, keys), obj)
  {
    if |obj| > 0 {
      ExcludeFieldKeepsOrder(obj[1..], keys);
      var rest := ExcludeField(obj[1..], keys);
      if obj[0].0 !in keys {
        assert ([obj[0]] + rest)[1..] == rest;
      }
    }
  }

  /** With nothing to exclude, the result equals the input. */
  lemma {:induction false} ExcludeNothing<V>(obj: seq<(string, V)>)
    ensures ExcludeField(obj, []) == obj
  {
    if |obj| > 0 {
      ExcludeNothing(obj[1..]);
      assert obj == [obj[0]] + obj[1..];
    }
  }

  /** Excluding the same keys twice is the same as excluding them once. */
  lemma {:induction false} ExcludeFieldIdempotent<V>(obj: seq<(string, V)>, keys: seq<string>)
    ensures ExcludeField(ExcludeField(obj, keys), keys) == ExcludeField(obj, keys)
  {
    if |obj| > 0 {
      ExcludeFieldIdempotent(obj[1..], keys);
      if obj[0].0 !in keys {
        var rest := ExcludeField(obj[1..], keys);
        assert ([obj[0]] + rest)[1..] == rest;
      }
    }
  }
}
