/**
 * Pattern matching the core delegates to Go's `regexp` and `path/filepath.Glob`.
 * Both engines are oracles: the model fixes only what the core relies on, namely
 * that a pattern free of metacharacters is an unanchored substring search (so the
 * empty pattern accepts everything), that a pattern which does not compile is
 * rejected, and that a glob returns the listed paths its pattern matches, in order.
 */
module Matching {
  import opened Wrappers
  import opened Strings
  import opened Errors

  /** The characters with a meaning in Go's RE2 syntax. */
  predicate IsRegexMeta(c: char) {
    c == '\\' || c == '.' || c == '+' || c == '*' || c == '?' || c == '(' || c == ')' ||
    c == '|' || c == '[' || c == ']' || c == '{' || c == '}' || c == '^' || c == '$'
  }

  predicate IsLiteral(pattern: String) {
    forall i :: 0 <= i < |pattern| ==> !IsRegexMeta(pattern[i])
  }

  /**
   * The regular-expression engine for patterns with metacharacters: whether a pattern
   * compiles, and whether a compiled pattern is found somewhere in a string.
   */
  datatype RegexEngine = RegexEngine(compiles: String -> bool, finds: (String, String) -> bool)

  /** `regexp.MatchString(pattern, s)` with its error discarded, as the filters call it. */
  function MatchString(re: RegexEngine, pattern: String, s: String): bool {
    if IsLiteral(pattern) then Contains(s, pattern)
    else re.compiles(pattern) && re.finds(pattern, s)
  }

  /** The empty pattern accepts every string, whatever the engine. */
  lemma EmptyPatternMatchesAll(re: RegexEngine, s: String)
    ensures MatchString(re, [], s)
  {
    ContainsEmpty(s);
  }

  /** A literal pattern is an unanchored search: it is found inside any string holding it. */
  lemma LiteralIsUnanchored(re: RegexEngine, before: String, pattern: String, after: String)
    requires IsLiteral(pattern)
    ensures MatchString(re, pattern, before + pattern + after)
  {
    ContainsOfAppend(before, pattern, after);
  }

  /** A pattern that does not compile accepts nothing. */
  lemma BrokenPatternMatchesNothing(re: RegexEngine, pattern: String, s: String)
    requires !IsLiteral(pattern) && !re.compiles(pattern)
    ensures !MatchString(re, pattern, s)
  {
  }

  /**
   * `filepath.Glob`'s pattern language: whether a pattern is well formed and whether a
   * path matches it.
   */
  datatype GlobEngine = GlobEngine(wellFormed: String -> bool, matches: (String, String) -> bool)

  /** The paths of `listing` that match `pattern`, in listing order. */
  function Selected(g: GlobEngine, pattern: String, listing: seq<String>): (r: seq<String>)
    ensures |r| <= |listing|
    ensures forall p :: p in r <==> p in listing && g.matches(pattern, p)
  {
    if listing == [] then []
    else
      var rest := Selected(g, pattern, listing[1..]);
      assert forall p :: p in listing <==> p == listing[0] || p in listing[1..];
      if g.matches(pattern, listing[0]) then [listing[0]] + rest else rest
  }

  /**
   * `filepath.Glob(pattern)` over a filesystem whose paths are `listing`: `ErrBadPattern`
   * for a malformed pattern, otherwise the matching paths.
   */
  function Glob(g: GlobEngine, pattern: String, listing: seq<String>): (r: Result<seq<String>, Error>)
    ensures r.Failure? <==> !g.wellFormed(pattern)
    ensures r.Failure? ==> r.error == BadPattern
    ensures r.Success? ==> forall p :: p in r.value <==> p in listing && g.matches(pattern, p)
  {
    if !g.wellFormed(pattern) then Failure(BadPattern) else Success(Selected(g, pattern, listing))
  }
}
