/** `createGrok` and `createPattern`: one string-keyed map of compiled
    patterns shared by both, consulted before compiling and filled after a
    successful compilation. */
module PatternCache {
  import opened Wrappers
  import opened Library

  /** The map is typed `Map<String, Object>`: an entry is either kind. */
  datatype Compiled = GrokC(grok: GrokMatcher) | RegexC(pattern: RegexMatcher)

  type Cache = map<string, Compiled>

  /** `TypeClash` is the `ClassCastException` of a hit on an entry of the
      other kind; `CompileFailed` is whatever the compiler throws. */
  datatype CacheError = TypeClash(key: string) | CompileFailed(message: string)

  /** The outcome of a lookup, the cache after it, and whether the compiler
      was called. */
  datatype Lookup<T> = Lookup(result: Result<T, CacheError>, cache: Cache, compiled: bool)

  /** Every entry of `before` is in `after`, unchanged. */
  ghost predicate Grows(before: Cache, after: Cache) {
    forall k :: k in before ==> k in after && after[k] == before[k]
  }

  /** The dictionaries handed to the Grok dictionary on a miss, in order:
      the base patterns, the Java log patterns, the given resources, and the
      inline definition when it is neither null nor empty. */
  function DictionaryList(constants: Constants, dictionaries: seq<string>, definition: Option<string>): (ds: seq<DictSource>)
    ensures |ds| == 2 + |dictionaries| + (if definition.Some? && definition.value != "" then 1 else 0)
    ensures ds[0] == Resource(constants.grokPatternsFile)
    ensures ds[1] == Resource(constants.javaLogPatternsFile)
    ensures forall i :: 0 <= i < |dictionaries| ==> ds[2 + i] == Resource(dictionaries[i])
    ensures definition.Some? && definition.value != "" ==> ds[|ds| - 1] == Inline(definition.value)
    ensures forall i :: 0 <= i < |ds| && ds[i].Inline? ==> i == |ds| - 1 && definition == Some(ds[i].text)
  {
    [Resource(constants.grokPatternsFile), Resource(constants.javaLogPatternsFile)]
    + seq(|dictionaries|, i requires 0 <= i < |dictionaries| => Resource(dictionaries[i]))
    + (if definition.Some? && definition.value != "" then [Inline(definition.value)] else [])
  }

  /** `createGrok`: the key is the expression alone, not the dictionaries. */
  function CreateGrok(lib: Collaborators, definition: Option<string>, cache: Cache,
                      pattern: string, dictionaries: seq<string>): (s: Lookup<GrokMatcher>)
    // hit: the stored entry, no compilation, no change
    ensures pattern in cache ==> !s.compiled && s.cache == cache
    ensures pattern in cache && cache[pattern].GrokC? ==> s.result == Success(cache[pattern].grok)
    ensures pattern in cache && cache[pattern].RegexC? ==> s.result == Failure(TypeClash(pattern))
    // miss: compiled with the ordered dictionary list
    ensures pattern !in cache ==> s.compiled
    ensures pattern !in cache ==>
      match lib.compileGrok(pattern, DictionaryList(lib.constants, dictionaries, definition))
      case Success(g) => s.result == Success(g) && s.cache == cache[pattern := GrokC(g)]
      case Failure(msg) => s.result == Failure(CompileFailed(msg)) && s.cache == cache
    // in every case
    ensures Grows(cache, s.cache)
    ensures s.cache.Keys <= cache.Keys + {pattern}
    ensures s.result.Success? ==> pattern in s.cache && s.cache[pattern] == GrokC(s.result.value)
  {
    if pattern in cache then
      match cache[pattern]
      case GrokC(g) => Lookup(Success(g), cache, false)
      case RegexC(_) => Lookup(Failure(TypeClash(pattern)), cache, false)
    else
      match lib.compileGrok(pattern, DictionaryList(lib.constants, dictionaries, definition))
      case Success(g) => Lookup(Success(g), cache[pattern := GrokC(g)], true)
      case Failure(msg) => Lookup(Failure(CompileFailed(msg)), cache, true)
  }

  /** `createPattern`. */
  function CreatePattern(lib: Collaborators, cache: Cache, regex: string): (s: Lookup<RegexMatcher>)
    ensures regex in cache ==> !s.compiled && s.cache == cache
    ensures regex in cache && cache[regex].RegexC? ==> s.result == Success(cache[regex].pattern)
    ensures regex in cache && cache[regex].GrokC? ==> s.result == Failure(TypeClash(regex))
    ensures regex !in cache ==> s.compiled
    ensures regex !in cache ==>
      match lib.compileRegex(regex)
      case Success(p) => s.result == Success(p) && s.cache == cache[regex := RegexC(p)]
      case Failure(msg) => s.result == Failure(CompileFailed(msg)) && s.cache == cache
    ensures Grows(cache, s.cache)
    ensures s.cache.Keys <= cache.Keys + {regex}
    ensures s.result.Success? ==> regex in s.cache && s.cache[regex] == RegexC(s.result.value)
  {
    if regex in cache then
      match cache[regex]
      case RegexC(p) => Lookup(Success(p), cache, false)
      case GrokC(_) => Lookup(Failure(TypeClash(regex)), cache, false)
    else
      match lib.compileRegex(regex)
      case Success(p) => Lookup(Success(p), cache[regex := RegexC(p)], true)
      case Failure(msg) => Lookup(Failure(CompileFailed(msg)), cache, true)
  }

  /** After a successful `createGrok`, asking again for the same expression,
      even with other dictionaries or another inline definition, returns the
      same matcher without compiling and without changing the cache. */
  lemma GrokSecondCallHits(lib: Collaborators, cache: Cache, pattern: string,
                           definition1: Option<string>, dictionaries1: seq<string>,
                           definition2: Option<string>, dictionaries2: seq<string>)
    requires CreateGrok(lib, definition1, cache, pattern, dictionaries1).result.Success?
    ensures var first := CreateGrok(lib, definition1, cache, pattern, dictionaries1);
            var second := CreateGrok(lib, definition2, first.cache, pattern, dictionaries2);
            !second.compiled && second.result == first.result && second.cache == first.cache
  {
  }

  /** After a successful `createPattern`, the same regex is a hit. */
  lemma PatternSecondCallHits(lib: Collaborators, cache: Cache, regex: string)
    requires CreatePattern(lib, cache, regex).result.Success?
    ensures var first := CreatePattern(lib, cache, regex);
            var second := CreatePattern(lib, first.cache, regex);
            !second.compiled && second.result == first.result && second.cache == first.cache
  {
  }

  /** Because the two kinds share one map, a regex spelled like a cached
      Grok expression, or the reverse, fails with a cast error. */
  lemma SharedKeyClash(lib: Collaborators, cache: Cache, key: string,
                       definition: Option<string>, dictionaries: seq<string>)
    ensures CreateGrok(lib, definition, cache, key, dictionaries).result.Success? ==>
              CreatePattern(lib, CreateGrok(lib, definition, cache, key, dictionaries).cache, key).result
                == Failure(TypeClash(key))
    ensures CreatePattern(lib, cache, key).result.Success? ==>
              CreateGrok(lib, definition, CreatePattern(lib, cache, key).cache, key, dictionaries).result
                == Failure(TypeClash(key))
  {
  }
}
