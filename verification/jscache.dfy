/** `jscompile`'s memo, shared by both translators: the text is stored on
    the compiled object as `__js__`, and a later call returns it without
    translating again. */
module JsCache {
  import opened Wrappers

  /** The `__js__` attribute of each object, by object identity. */
  type Cache = map<nat, string>

  /** A stored text counts only when it is non-empty: the test is
      `not getattr(obj, '__js__', None)`, for which `''` is missing. */
  predicate Hit(cache: Cache, obj: nat)
  {
    obj in cache && cache[obj] != ""
  }

  /** `jscompile(obj)`, given what translating the object's source gives:
      the outcome, the cache afterwards and whether the translator ran.
      A failed translation stores nothing. */
  function Memo<E>(cache: Cache, obj: nat, translated: Result<string, E>): (r: (Result<string, E>, Cache, bool))
    ensures Hit(cache, obj) ==> r == (Ok(cache[obj]), cache, false)
    ensures !Hit(cache, obj) ==> r.0 == translated && r.2
    ensures r.0.Ok? ==> obj in r.1 && r.1[obj] == r.0.value
    ensures r.0.Err? ==> r.1 == cache
    ensures r.1.Keys <= cache.Keys + {obj}
    ensures forall o :: o in cache && o != obj ==> o in r.1 && r.1[o] == cache[o]
  {
    if Hit(cache, obj) then (Ok(cache[obj]), cache, false)
    else if translated.Ok? then (translated, cache[obj := translated.value], true)
    else (translated, cache, true)
  }

  /** Calling again after a success returns the same text and leaves the
      cache as it was; the translator does not run again unless the text
      was empty. */
  lemma MemoIdempotent<E>(cache: Cache, obj: nat, translated: Result<string, E>)
    requires Memo(cache, obj, translated).0.Ok?
    ensures var (r1, c1, _) := Memo(cache, obj, translated);
      var (r2, c2, ran) := Memo(c1, obj, translated);
      && r2 == r1 && c2 == c1
      && (r1.value != "" <==> !ran)
  {
    var (r1, c1, _) := Memo(cache, obj, translated);
    if !Hit(cache, obj) && translated.value == "" {
      assert c1 == cache[obj := ""];
      assert c1[obj := ""] == c1;
    }
  }
}
