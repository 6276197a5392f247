/**
 * Small utilities: the architecture table translating between the `x86_64`/`aarch64`
 * and the Debian `amd64`/`arm64` conventions, and the slice difference the tests use.
 */
module Utils {
  import opened Strings

  // ---------------------------------------------------------------------------
  // Architectures (pkg/utils/arch.go)

  /** Supported architecture to its Debian name. */
  const SupportedArchs: map<String, String> := map["x86_64" := "amd64", "aarch64" := "arm64"]

  /** The keys of the table, the order the reverse search tries them in. */
  const ArchKeys: seq<String> := ["x86_64", "aarch64"]

  function IsArchSupported(arch: String): (ok: bool)
    ensures ok <==> arch == "x86_64" || arch == "aarch64"
  {
    arch in SupportedArchs
  }

  /** The table lookup; a missing key gives Go's zero value "". */
  function ToDebArch(arch: String): (deb: String)
    ensures arch == "x86_64" ==> deb == "amd64"
    ensures arch == "aarch64" ==> deb == "arm64"
    ensures !IsArchSupported(arch) ==> deb == ""
  {
    if arch in SupportedArchs then SupportedArchs[arch] else ""
  }

  /** The first of `keys` whose Debian name is `debArch`, or "". */
  function FindArch(keys: seq<String>, debArch: String): (arch: String)
    requires forall k :: k in keys ==> k in SupportedArchs
    ensures arch == "" <==> forall k :: k in keys ==> SupportedArchs[k] != debArch
    ensures arch != "" ==> arch in keys && SupportedArchs[arch] == debArch
  {
    if keys == [] then ""
    else if SupportedArchs[keys[0]] == debArch then keys[0]
    else FindArch(keys[1..], debArch)
  }

  /**
   * `FromDebArch`: the architecture whose Debian name is `debArch`, or "". Go searches
   * the map in iteration order; the two Debian names differ, so the order is irrelevant.
   */
  function FromDebArch(debArch: String): (arch: String)
    ensures debArch == "amd64" ==> arch == "x86_64"
    ensures debArch == "arm64" ==> arch == "aarch64"
    ensures debArch != "amd64" && debArch != "arm64" ==> arch == ""
  {
    FindArch(ArchKeys, debArch)
  }

  /** Translating to Debian naming and back is the identity on supported architectures. */
  lemma ArchRoundTrip(arch: String)
    requires IsArchSupported(arch)
    ensures FromDebArch(ToDebArch(arch)) == arch
    ensures ToDebArch(arch) != ""
  {
  }

  /** Translating from Debian naming and back is the identity on the two Debian names. */
  lemma DebArchRoundTrip(deb: String)
    requires deb == "amd64" || deb == "arm64"
    ensures ToDebArch(FromDebArch(deb)) == deb
    ensures IsArchSupported(FromDebArch(deb))
  {
  }

  /** The translations map unsupported names to "" and "" back to "". */
  lemma UnsupportedArchIsEmpty(arch: String)
    requires !IsArchSupported(arch)
    ensures ToDebArch(arch) == "" && FromDebArch(ToDebArch(arch)) == ""
  {
  }

  /**
   * `SupportedArchList`: a slice of the table's size filled with its keys through a
   * running index, in map-iteration order (here: any order).
   */
  method SupportedArchList() returns (list: seq<String>)
    ensures |list| == 2
    ensures multiset(list) == multiset{"x86_64", "aarch64"}
    ensures forall a :: a in list <==> IsArchSupported(a)
  {
    SupportedArchKeys();
    list := KeysSlice(SupportedArchs.Keys);
    KeysMultiset(list);
  }

  /**
   * The loop of `SupportedArchList`: a slice of `|keys|` strings filled through a
   * running index with the keys in some order, each exactly once.
   */
  method KeysSlice(keys: set<String>) returns (list: seq<String>)
    ensures |list| == |keys| && CountsOnce(list, keys)
  {
    var slice := new String[|keys|];
    var remaining := keys;
    ghost var written: seq<String> := [];
    var i := 0;
    while remaining != {}
      invariant remaining <= keys
      invariant i + |remaining| == |keys| == slice.Length
      invariant slice[..i] == written
      invariant CountsOnce(written, keys - remaining)
      decreases remaining
    {
      var k :| k in remaining;
      CountStep(written, k, keys - remaining);
      TakeOne(keys, remaining, k);
      slice[i] := k;
      written := written + [k];
      remaining := remaining - {k};
      i := i + 1;
    }
    list := slice[..];
    assert list == written && keys - remaining == keys;
  }

  /** Moving one key from `remaining` to the written ones. */
  lemma TakeOne(keys: set<String>, remaining: set<String>, k: String)
    requires k in remaining && remaining <= keys
    ensures remaining - {k} <= keys && |remaining - {k}| == |remaining| - 1
    ensures keys - (remaining - {k}) == (keys - remaining) + {k}
  {
  }

  /** Each element of `done` occurs once in `written` and nothing else occurs. */
  ghost predicate CountsOnce(written: seq<String>, done: set<String>) {
    forall x :: multiset(written)[x] == if x in done then 1 else 0
  }

  /** Writing a key not yet written counts it once. */
  lemma CountStep(written: seq<String>, k: String, done: set<String>)
    requires CountsOnce(written, done) && k !in done
    ensures CountsOnce(written + [k], done + {k})
  {
  }

  lemma SupportedArchKeys()
    ensures SupportedArchs.Keys == {"x86_64", "aarch64"} && |SupportedArchs.Keys| == 2
  {
    assert SupportedArchs.Keys == {"x86_64"} + {"aarch64"};
  }

  lemma KeysMultiset(list: seq<String>)
    requires CountsOnce(list, SupportedArchs.Keys)
    ensures multiset(list) == multiset{"x86_64", "aarch64"}
    ensures forall a :: a in list <==> IsArchSupported(a)
  {
    assert forall k :: multiset(list)[k] == multiset{"x86_64", "aarch64"}[k];
  }

  // ---------------------------------------------------------------------------
  // Slice difference (pkg/utils/test.go)

  /** The elements of `a` that do not occur in `b`, in the order of `a`, duplicates kept. */
  function Difference(a: seq<String>, b: seq<String>): seq<String>
  {
    if a == [] then []
    else (if a[0] in b then [] else [a[0]]) + Difference(a[1..], b)
  }

  /** `SliceDifference`: collect `b` into a set, then keep each element of `a` not in it. */
  method SliceDifference(a: seq<String>, b: seq<String>) returns (diff: seq<String>)
    ensures diff == Difference(a, b)
  {
    var mb: set<String> := {};
    var j := 0;
    while j < |b|
      invariant 0 <= j <= |b|
      invariant mb == set x | x in b[..j]
    {
      assert b[..j + 1] == b[..j] + [b[j]];
      mb := mb + {b[j]};
      j := j + 1;
    }
    assert b[..|b|] == b;
    diff := [];
    var i := 0;
    while i < |a|
      invariant 0 <= i <= |a|
      invariant Difference(a, b) == diff + Difference(a[i..], b)
    {
      assert a[i..][1..] == a[i + 1..];
      if a[i] !in mb {
        diff := diff + [a[i]];
      }
      i := i + 1;
    }
  }

  /** Exactly the elements of `a` that are not in `b` remain, each as often as in `a`. */
  lemma {:induction false} DifferenceCounts(a: seq<String>, b: seq<String>)
    ensures forall x :: multiset(Difference(a, b))[x] == if x in b then 0 else multiset(a)[x]
  {
    if a != [] {
      DifferenceCounts(a[1..], b);
      assert a == [a[0]] + a[1..];
    }
  }

  /** Membership: an element is in the difference iff it is in `a` and not in `b`. */
  lemma DifferenceMembers(a: seq<String>, b: seq<String>)
    ensures forall x :: x in Difference(a, b) <==> x in a && x !in b
  {
    DifferenceCounts(a, b);
    forall x ensures x in Difference(a, b) <==> x in a && x !in b {
      assert x in Difference(a, b) <==> multiset(Difference(a, b))[x] > 0;
      assert x in a <==> multiset(a)[x] > 0;
    }
  }

  /** The difference keeps the order of `a`: it distributes over concatenation. */
  lemma {:induction false} DifferenceAppend(a1: seq<String>, a2: seq<String>, b: seq<String>)
    ensures Difference(a1 + a2, b) == Difference(a1, b) + Difference(a2, b)
  {
    if a1 == [] {
      assert a1 + a2 == a2;
    } else {
      assert (a1 + a2)[0] == a1[0];
      assert (a1 + a2)[1..] == a1[1..] + a2;
      DifferenceAppend(a1[1..], a2, b);
    }
  }

  /** Only the elements of `b` matter, not their order or repetition. */
  lemma {:induction false} DifferenceOnlyMembersOfB(a: seq<String>, b1: seq<String>, b2: seq<String>)
    requires forall x :: x in b1 <==> x in b2
    ensures Difference(a, b1) == Difference(a, b2)
  {
    if a != [] {
      DifferenceOnlyMembersOfB(a[1..], b1, b2);
    }
  }

  /** An empty `a` gives an empty result; an empty `b` removes nothing. */
  lemma {:induction false} DifferenceEdges(a: seq<String>)
    ensures Difference([], a) == []
    ensures Difference(a, []) == a
  {
    if a != [] {
      DifferenceEdges(a[1..]);
    }
  }
}
