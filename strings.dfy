/**
 * The string and path helpers of Go's standard library that the core relies on:
 * `strings.HasPrefix/HasSuffix/Contains/TrimSuffix/ToLower/Split`,
 * `path/filepath.Base/Join`, `sort.Strings`/`slices.Sort` and decimal formatting.
 * Each is written out on `seq<char>` so that the rest of the model can reason about
 * the paths and names it builds.
 */
module Strings {

  type String = seq<char>

  predicate HasPrefix(s: String, prefix: String) {
    |prefix| <= |s| && s[..|prefix|] == prefix
  }

  predicate HasSuffix(s: String, suffix: String) {
    |suffix| <= |s| && s[|s| - |suffix|..] == suffix
  }

  /** `strings.Contains`: `sub` occurs somewhere in `s`. */
  predicate Contains(s: String, sub: String)
    decreases |s|
  {
    HasPrefix(s, sub) || (|s| > 0 && Contains(s[1..], sub))
  }

  /** `strings.TrimSuffix`: drops one trailing occurrence of `suffix`, if any. */
  function TrimSuffix(s: String, suffix: String): (r: String)
    ensures HasSuffix(s, suffix) ==> r + suffix == s
    ensures !HasSuffix(s, suffix) ==> r == s
  {
    if HasSuffix(s, suffix) then s[..|s| - |suffix|] else s
  }

  predicate NoChar(s: String, c: char) {
    forall i :: 0 <= i < |s| ==> s[i] != c
  }

  predicate NoSlash(s: String) {
    NoChar(s, '/')
  }

  // ---------------------------------------------------------------------------
  // Case folding (ASCII letters only)

  function LowerChar(c: char): char {
    if 'A' <= c <= 'Z' then (c as int + 32) as char else c
  }

  /** `strings.ToLower`, restricted to ASCII letters. */
  function ToLower(s: String): (r: String)
    ensures |r| == |s|
    ensures forall i :: 0 <= i < |s| ==> r[i] == LowerChar(s[i])
  {
    if s == [] then [] else [LowerChar(s[0])] + ToLower(s[1..])
  }

  // ---------------------------------------------------------------------------
  // Paths

  function TrimTrailingSlashes(p: String): (r: String)
    ensures |r| <= |p| && r == p[..|r|]
    ensures r == [] || r[|r| - 1] != '/'
  {
    if |p| > 0 && p[|p| - 1] == '/' then TrimTrailingSlashes(p[..|p| - 1]) else p
  }

  /** The text after the last '/', or the whole string if it has none. */
  function LastSegment(p: String): (r: String)
    ensures NoSlash(r)
  {
    if p == [] then []
    else if p[|p| - 1] == '/' then []
    else LastSegment(p[..|p| - 1]) + [p[|p| - 1]]
  }

  /** `filepath.Base` on a Unix path. */
  function Base(p: String): String {
    if p == [] then "."
    else
      var q := TrimTrailingSlashes(p);
      if q == [] then "/" else LastSegment(q)
  }

  /**
   * `filepath.Join` for elements that are already clean: the non-empty elements joined
   * with '/'. Go also runs `filepath.Clean` over the result; on clean elements that only
   * drops the empty ones, which is what this does.
   */
  function JoinPath(elems: seq<String>): String {
    if elems == [] then []
    else
      var init := JoinPath(elems[..|elems| - 1]);
      var last := elems[|elems| - 1];
      if last == [] then init
      else if init == [] then last
      else init + "/" + last
  }

  /** `strings.Split(s, "/")`. */
  function Split(s: String): (parts: seq<String>)
    ensures |parts| >= 1
  {
    if s == [] then [[]]
    else if s[|s| - 1] == '/' then Split(s[..|s| - 1]) + [[]]
    else
      var parts := Split(s[..|s| - 1]);
      parts[..|parts| - 1] + [parts[|parts| - 1] + [s[|s| - 1]]]
  }

  lemma {:induction false} LastSegmentOfName(name: String)
    requires NoSlash(name)
    ensures LastSegment(name) == name
  {
    if name != [] {
      LastSegmentOfName(name[..|name| - 1]);
      assert name == name[..|name| - 1] + [name[|name| - 1]];
    }
  }

  lemma {:induction false} LastSegmentAfterSlash(dir: String, name: String)
    requires NoSlash(name)
    ensures LastSegment(dir + "/" + name) == name
  {
    if name == [] {
    } else {
      var p := dir + "/" + name;
      assert p[..|p| - 1] == dir + "/" + name[..|name| - 1];
      LastSegmentAfterSlash(dir, name[..|name| - 1]);
      assert name == name[..|name| - 1] + [name[|name| - 1]];
    }
  }

  /** The base name of `dir/name` is `name`, whatever `dir` is. */
  lemma BaseOfChild(dir: String, name: String)
    requires name != [] && NoSlash(name)
    ensures Base(dir + "/" + name) == name
  {
    var p := dir + "/" + name;
    assert p[|p| - 1] == name[|name| - 1];
    assert TrimTrailingSlashes(p) == p;
    LastSegmentAfterSlash(dir, name);
  }

  /** A name without '/' is its own base name. */
  lemma BaseOfName(name: String)
    requires name != [] && NoSlash(name)
    ensures Base(name) == name
  {
    assert TrimTrailingSlashes(name) == name;
    LastSegmentOfName(name);
  }

  /** `filepath.Base(filepath.Join(..., name)) == name` for a clean last element. */
  lemma BaseOfJoin(elems: seq<String>)
    requires elems != [] && elems[|elems| - 1] != [] && NoSlash(elems[|elems| - 1])
    ensures Base(JoinPath(elems)) == elems[|elems| - 1]
  {
    var init := JoinPath(elems[..|elems| - 1]);
    if init == [] {
      BaseOfName(elems[|elems| - 1]);
    } else {
      BaseOfChild(init, elems[|elems| - 1]);
    }
  }

  lemma {:induction false} SplitOfName(name: String)
    requires NoSlash(name)
    ensures Split(name) == [name]
  {
    if name != [] {
      SplitOfName(name[..|name| - 1]);
      assert name == name[..|name| - 1] + [name[|name| - 1]];
    }
  }

  /** Appending a character other than '/' extends the last part. */
  lemma SplitSnoc(t: String, c: char)
    requires c != '/'
    ensures var p := Split(t); Split(t + [c]) == p[..|p| - 1] + [p[|p| - 1] + [c]]
  {
    var u := t + [c];
    assert u[..|u| - 1] == t && u[|u| - 1] == c;
  }

  /** Appending '/' starts a new, empty part. */
  lemma SplitSlash(t: String)
    ensures Split(t + "/") == Split(t) + [[]]
  {
    var u := t + "/";
    assert u[..|u| - 1] == t && u[|u| - 1] == '/';
  }

  /** A '/' followed by a name without '/' adds that name as the last part. */
  lemma {:induction false} SplitAppendName(dir: String, name: String)
    requires NoSlash(name)
    ensures Split(dir + "/" + name) == Split(dir) + [name]
    decreases |name|
  {
    if name == [] {
      assert dir + "/" + name == dir + "/";
      SplitSlash(dir);
    } else {
      var n' := name[..|name| - 1];
      var c := name[|name| - 1];
      assert name == n' + [c];
      assert dir + "/" + name == (dir + "/" + n') + [c];
      SplitAppendName(dir, n');
      SplitSnoc(dir + "/" + n', c);
      var p := Split(dir) + [n'];
      assert p[..|p| - 1] == Split(dir);
    }
  }

  /** The number of '/' in `s`. */
  function SlashCount(s: String): nat {
    if s == [] then 0 else SlashCount(s[..|s| - 1]) + (if s[|s| - 1] == '/' then 1 else 0)
  }

  lemma {:induction false} SlashCountAppend(a: String, b: String)
    ensures SlashCount(a + b) == SlashCount(a) + SlashCount(b)
    decreases |b|
  {
    if b == [] {
      assert a + b == a;
    } else {
      assert (a + b)[..|a + b| - 1] == a + b[..|b| - 1];
      assert (a + b)[|a + b| - 1] == b[|b| - 1];
      SlashCountAppend(a, b[..|b| - 1]);
    }
  }

  lemma {:induction false} SlashCountOfName(name: String)
    requires NoSlash(name)
    ensures SlashCount(name) == 0
  {
    if name != [] {
      SlashCountOfName(name[..|name| - 1]);
    }
  }

  /** Splitting at '/' gives one part more than there are slashes. */
  lemma {:induction false} SplitLength(s: String)
    ensures |Split(s)| == SlashCount(s) + 1
  {
    if s != [] {
      SplitLength(s[..|s| - 1]);
    }
  }

  lemma JoinPathOfThree(a: String, b: String, c: String)
    requires a != [] && b != [] && c != []
    ensures JoinPath([a, b, c]) == a + "/" + b + "/" + c
  {
    assert [a][..0] == [];
    assert JoinPath([a]) == a;
    assert [a, b][..1] == [a];
    assert JoinPath([a, b]) == a + "/" + b;
    assert [a, b, c][..2] == [a, b];
  }

  lemma JoinPathOfFour(a: String, b: String, c: String, d: String)
    requires a != [] && b != [] && c != [] && d != []
    ensures JoinPath([a, b, c, d]) == a + "/" + b + "/" + c + "/" + d
  {
    JoinPathOfThree(a, b, c);
    assert [a, b, c, d][..3] == [a, b, c];
  }

  /** Joining a non-empty path and a non-empty name puts one '/' between them. */
  lemma JoinPathOfTwo(a: String, b: String)
    requires a != [] && b != []
    ensures JoinPath([a, b]) == a + "/" + b
  {
    assert [a][..0] == [];
    assert JoinPath([a]) == a;
    assert [a, b][..1] == [a];
  }

  lemma NoCharAppend(a: String, b: String, c: char)
    requires NoChar(a, c) && NoChar(b, c)
    ensures NoChar(a + b, c)
  {
    forall i | 0 <= i < |a + b| ensures (a + b)[i] != c {
      if i >= |a| {
        assert (a + b)[i] == b[i - |a|];
      }
    }
  }

  lemma NoSlashAppend(a: String, b: String)
    requires NoSlash(a) && NoSlash(b)
    ensures NoSlash(a + b)
  {
    forall i | 0 <= i < |a + b| ensures (a + b)[i] != '/' {
      if i >= |a| {
        assert (a + b)[i] == b[i - |a|];
      }
    }
  }

  lemma HasPrefixOfAppend(a: String, b: String)
    ensures HasPrefix(a + b, a)
  {
    assert (a + b)[..|a|] == a;
  }

  lemma HasSuffixOfAppend(a: String, b: String)
    ensures HasSuffix(a + b, b)
  {
    assert (a + b)[|a + b| - |b|..] == b;
  }

  lemma {:induction false} ContainsOfAppend(a: String, b: String, c: String)
    ensures Contains(a + b + c, b)
  {
    if a == [] {
      assert (b + c)[..|b|] == b;
    } else {
      assert (a + b + c)[1..] == a[1..] + b + c;
      ContainsOfAppend(a[1..], b, c);
    }
  }

  lemma ContainsEmpty(s: String)
    ensures Contains(s, [])
  {
    assert HasPrefix(s, []);
  }

  // ---------------------------------------------------------------------------
  // Lexicographic order and sorting (`sort.Strings`, `slices.Sort`)

  /** Byte-wise order of Go strings; code-point order agrees with UTF-8 byte order. */
  predicate Le(a: String, b: String) {
    a == [] || (b != [] && (a[0] < b[0] || (a[0] == b[0] && Le(a[1..], b[1..]))))
  }

  lemma {:induction false} LeTotal(a: String, b: String)
    ensures Le(a, b) || Le(b, a)
  {
    if a != [] && b != [] && a[0] == b[0] {
      LeTotal(a[1..], b[1..]);
    }
  }

  lemma {:induction false} LeTrans(a: String, b: String, c: String)
    requires Le(a, b) && Le(b, c)
    ensures Le(a, c)
  {
    if a != [] && b != [] && c != [] && a[0] == b[0] == c[0] {
      LeTrans(a[1..], b[1..], c[1..]);
    }
  }

  lemma {:induction false} LeAntisymmetric(a: String, b: String)
    requires Le(a, b) && Le(b, a)
    ensures a == b
  {
    if a != [] && b != [] {
      LeAntisymmetric(a[1..], b[1..]);
      assert a == [a[0]] + a[1..] && b == [b[0]] + b[1..];
    }
  }

  predicate Sorted(s: seq<String>) {
    forall i, j :: 0 <= i < j < |s| ==> Le(s[i], s[j])
  }

  predicate LowerBound(b: String, s: seq<String>) {
    forall i :: 0 <= i < |s| ==> Le(b, s[i])
  }

  function Insert(x: String, s: seq<String>): seq<String> {
    if s == [] then [x]
    else if Le(x, s[0]) then [x] + s
    else [s[0]] + Insert(x, s[1..])
  }

  lemma {:induction false} InsertCount(x: String, s: seq<String>)
    ensures multiset(Insert(x, s)) == multiset(s) + multiset{x}
  {
    if s != [] && !Le(x, s[0]) {
      InsertCount(x, s[1..]);
      assert s == [s[0]] + s[1..];
    }
  }

  lemma {:induction false} InsertLowerBound(b: String, x: String, s: seq<String>)
    requires LowerBound(b, s) && Le(b, x)
    ensures LowerBound(b, Insert(x, s))
  {
    if s != [] && !Le(x, s[0]) {
      InsertLowerBound(b, x, s[1..]);
    }
  }

  lemma SortedCons(h: String, s: seq<String>)
    requires LowerBound(h, s) && Sorted(s)
    ensures Sorted([h] + s)
  {
    var r := [h] + s;
    forall i, j | 0 <= i < j < |r| ensures Le(r[i], r[j]) {
      if i == 0 {
        assert r[j] == s[j - 1];
      } else {
        assert r[i] == s[i - 1] && r[j] == s[j - 1];
      }
    }
  }

  lemma {:induction false} InsertSorted(x: String, s: seq<String>)
    requires Sorted(s)
    ensures Sorted(Insert(x, s))
  {
    if s == [] {
    } else if Le(x, s[0]) {
      forall j | 0 <= j < |s| ensures Le(x, s[j]) {
        if j > 0 { LeTrans(x, s[0], s[j]); }
      }
      SortedCons(x, s);
    } else {
      LeTotal(x, s[0]);
      InsertSorted(x, s[1..]);
      InsertLowerBound(s[0], x, s[1..]);
      SortedCons(s[0], Insert(x, s[1..]));
    }
  }

  /** `sort.Strings`: the result is ordered and is a permutation of the input. */
  function Sort(s: seq<String>): (r: seq<String>)
    ensures Sorted(r)
    ensures multiset(r) == multiset(s)
    ensures |r| == |s|
  {
    if s == [] then []
    else
      assert s == [s[0]] + s[1..];
      var r := Sort(s[1..]);
      InsertSorted(s[0], r);
      InsertCount(s[0], r);
      Insert(s[0], r)
  }

  // ---------------------------------------------------------------------------
  // Decimal formatting (`%d`, `strconv.FormatInt`)

  function DigitChar(d: nat): char
    requires d < 10
  {
    ('0' as int + d) as char
  }

  function NatToString(n: nat): (r: String)
    ensures |r| > 0
    decreases n
  {
    if n < 10 then [DigitChar(n)] else NatToString(n / 10) + [DigitChar(n % 10)]
  }

  function IntToString(n: int): String {
    if n < 0 then "-" + NatToString(-n) else NatToString(n)
  }

  /** `%v` of a `[]string`: the elements separated by blanks, in brackets. */
  function FormatList(items: seq<String>): String {
    "[" + JoinWith(items, " ") + "]"
  }

  function JoinWith(items: seq<String>, sep: String): String {
    if items == [] then []
    else if |items| == 1 then items[0]
    else items[0] + sep + JoinWith(items[1..], sep)
  }
}
