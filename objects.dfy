/**
 * `filterKeysGetFirst`: the entries of an object whose keys the second object
 * does not have. Objects are maps from their own keys to values; the values
 * of `exclude` play no part.
 */
module Objects {

  function FilterKeysGetFirst<V, W>(obj: map<string, V>, exclude: map<string, W>): (r: map<string, V>)
    ensures r.Keys == obj.Keys - exclude.Keys
    ensures forall k :: k in r ==> r[k] == obj[k]
  {
    map k | k in obj && k !in exclude :: obj[k]
  }

  /** Nothing to exclude: the result is a copy of `obj`. */
  lemma ExcludeNothing<V, W>(obj: map<string, V>, exclude: map<string, W>)
    requires exclude == map[]
    ensures FilterKeysGetFirst(obj, exclude) == obj
  {
  }

  /** Filtering again by the same keys changes nothing. */
  lemma FilterKeysIdempotent<V, W>(obj: map<string, V>, exclude: map<string, W>)
    ensures FilterKeysGetFirst(FilterKeysGetFirst(obj, exclude), exclude) == FilterKeysGetFirst(obj, exclude)
  {
  }

  lemma {:induction false} SubsetNoLarger<T>(a: set<T>, b: set<T>)
    requires a <= b
    ensures |a| <= |b|
    decreases |b|
  {
    if a != {} {
      var x :| x in a;
      SubsetNoLarger(a - {x}, b - {x});
    }
  }

  /** The result has no more keys than `obj`. */
  lemma FilterKeysNoLarger<V, W>(obj: map<string, V>, exclude: map<string, W>)
    ensures |FilterKeysGetFirst(obj, exclude)| <= |obj|
  {
    var r := FilterKeysGetFirst(obj, exclude);
    SubsetNoLarger(r.Keys, obj.Keys);
    assert |r| == |r.Keys| && |obj| == |obj.Keys|;
  }
}
