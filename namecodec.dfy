/**
 * Driver names. A target is named `{distro}_{kernelrelease}_{kernelversion}`; configs
 * add `.yaml`, built drivers add a `{driver}_` prefix and `.ko` (kernel module) or `.o`
 * (eBPF probe). Object-store keys are decoded back with the pattern
 *   ^{driver}_(?P<Distro>[a-zA-Z-0-9.0-9]*)_(?P<KernelRelease>.*)_(?P<KernelVersion>.*)(\.o|\.ko)
 * whose leftmost-first, greedy semantics are written out here by segment positions.
 * The driver name is placed in the pattern unescaped; it is matched literally here,
 * which is what the pattern does for a name without regex metacharacters
 * (`LiteralPattern`). The `.` of the release and version captures stops at a newline.
 */
module NameCodec {
  import opened Wrappers
  import opened Strings

  /** The three captures of a driver name. */
  datatype Identity = Identity(distro: String, kernelRelease: String, kernelVersion: String)

  /** `{distro}_{kernelrelease}_{kernelversion}`. */
  function Encode(id: Identity): String {
    id.distro + "_" + id.kernelRelease + "_" + id.kernelVersion
  }

  /** The characters of the Distro capture's class `[a-zA-Z-0-9.0-9]`. */
  predicate IsDistroChar(c: char) {
    ('a' <= c <= 'z') || ('A' <= c <= 'Z') || ('0' <= c <= '9') || c == '-' || c == '.'
  }

  predicate IsDistroName(s: String) {
    forall i :: 0 <= i < |s| ==> IsDistroChar(s[i])
  }

  /** The longest prefix of `s` made of distro characters (the greedy `[...]*`). */
  function DistroRun(s: String): (n: nat)
    ensures n <= |s| && IsDistroName(s[..n])
    ensures n == |s| || !IsDistroChar(s[n])
  {
    if s == [] || !IsDistroChar(s[0]) then 0
    else
      var n := 1 + DistroRun(s[1..]);
      assert forall i :: 1 <= i < n ==> s[..n][i] == s[1..][..n - 1][i - 1];
      n
  }

  /** The characters that have a meaning of their own in an RE2 pattern. */
  const Metachars: String := "\\.+*?()|[]{}^$"

  /** A driver name that, placed in a pattern unescaped, matches only itself. */
  predicate LiteralPattern(s: String) {
    forall i :: 0 <= i < |s| ==> s[i] !in Metachars
  }

  /** The text before the first newline: what `.*` can range over. */
  function FirstLine(s: String): (line: String)
    ensures HasPrefix(s, line) && NoChar(line, '\n')
    ensures |line| == |s| || s[|line|] == '\n'
  {
    if s == [] || s[0] == '\n' then []
    else
      var rest := FirstLine(s[1..]);
      assert ([s[0]] + rest)[1..] == rest;
      [s[0]] + rest
  }

  /** `.o` or `.ko` starts at position `j` of `s`. */
  predicate ExtensionAt(s: String, j: nat) {
    j < |s| && (HasPrefix(s[j..], ".o") || HasPrefix(s[j..], ".ko"))
  }

  /** The largest position below `n` satisfying `p`, if any. */
  function LastWhere(n: nat, p: nat -> bool): (r: Option<nat>)
    ensures r.Some? ==> r.value < n && p(r.value) && forall k :: r.value < k < n ==> !p(k)
    ensures r.None? ==> forall k :: 0 <= k < n ==> !p(k)
  {
    if n == 0 then None else if p(n - 1) then Some(n - 1) else LastWhere(n - 1, p)
  }

  /**
   * The release and version captures in what follows the distro's '_': the kernel
   * version ends at the last `.o`/`.ko` and starts after the last '_' before it; the
   * kernel release is everything before that '_'. Text after the extension is ignored,
   * since the pattern's end is not anchored.
   */
  function DecodeTail(tail: String): Option<(String, String)> {
    match LastWhere(|tail|, (j: nat) => ExtensionAt(tail, j))
    case None => None
    case Some(j) =>
      match LastWhere(j, (i: nat) => i < |tail| && tail[i] == '_')
      case None => None
      case Some(i) => Some((tail[..i], tail[i + 1..j]))
  }

  /**
   * The captures `FindStringSubmatch` returns for a key basename, or None when the
   * pattern does not match, for a driver name that is a `LiteralPattern`. After
   * `{driver}_`, the distro is the longest run of distro characters and must be
   * followed by '_'; the first line of the rest is split by `DecodeTail`.
   */
  function Decode(driver: String, key: String): Option<Identity> {
    var prefix := driver + "_";
    if !HasPrefix(key, prefix) then None else DecodeRest(key[|prefix|..])
  }

  /** The match after `{driver}_`: the distro run, its '_', and the split of the first line. */
  function DecodeRest(rest: String): Option<Identity> {
    var d := DistroRun(rest);
    if d == |rest| || rest[d] != '_' then None
    else
      match DecodeTail(FirstLine(rest[d + 1..]))
      case None => None
      case Some((kr, kv)) => Some(Identity(rest[..d], kr, kv))
  }

  predicate IsExtension(ext: String) {
    ext == ".o" || ext == ".ko"
  }

  /** No `.o`/`.ko` starts inside `ext` after its first character. */
  lemma NoExtensionInsideExtension(tail: String, j: nat, ext: String)
    requires IsExtension(ext) && j + |ext| == |tail| && tail[j..] == ext
    ensures forall k: nat :: j < k < |tail| ==> !ExtensionAt(tail, k)
  {
    forall k: nat | j < k < |tail| ensures !ExtensionAt(tail, k) {
      assert tail[k] == ext[k - j];
      assert tail[k..][0] == tail[k];
    }
  }

  /** The greedy run stops exactly at the first character outside the class. */
  lemma {:induction false} DistroRunAt(s: String, m: nat)
    requires m < |s| && IsDistroName(s[..m]) && !IsDistroChar(s[m])
    ensures DistroRun(s) == m
  {
    if m > 0 {
      assert s[0] == s[..m][0];
      assert s[1..][..m - 1] == s[..m][1..];
      DistroRunAt(s[1..], m - 1);
    }
  }

  /** `DecodeTail` recovers the release and a '_'-free version. */
  lemma DecodeTailOf(kr: String, kv: String, ext: String)
    requires IsExtension(ext) && NoChar(kv, '_')
    ensures DecodeTail(kr + "_" + kv + ext) == Some((kr, kv))
  {
    var tail := kr + "_" + kv + ext;
    var j := |kr| + 1 + |kv|;
    assert tail[j..] == ext;
    assert ExtensionAt(tail, j);
    NoExtensionInsideExtension(tail, j, ext);
    var pj := (k: nat) => ExtensionAt(tail, k);
    assert pj(j);
    assert LastWhere(|tail|, pj) == Some(j);
    var pi := (k: nat) => k < |tail| && tail[k] == '_';
    forall k: nat | |kr| < k < j ensures !pi(k) {
      assert tail[k] == kv[k - |kr| - 1];
    }
    assert pi(|kr|);
    assert LastWhere(j, pi) == Some(|kr|);
    assert tail[..|kr|] == kr;
    assert tail[|kr| + 1..j] == kv;
  }

  /** A text without newline is its own first line. */
  lemma FirstLineWhole(s: String)
    requires NoChar(s, '\n')
    ensures FirstLine(s) == s
  {
    assert s[..|s|] == s;
  }

  /**
   * Decoding inverts encoding: for a driver name without regex metacharacters, the
   * basename `{driver}_{Encode(id)}{ext}` decodes to `id` when the distro is a distro
   * name, the kernel version holds no '_', and neither release nor version holds a
   * newline. The kernel release may hold '_'.
   */
  lemma DecodeEncode(driver: String, id: Identity, ext: String)
    requires LiteralPattern(driver)
    requires IsExtension(ext) && IsDistroName(id.distro) && NoChar(id.kernelVersion, '_')
    requires NoChar(id.kernelRelease, '\n') && NoChar(id.kernelVersion, '\n')
    ensures Decode(driver, driver + "_" + Encode(id) + ext) == Some(id)
  {
    var key := driver + "_" + Encode(id) + ext;
    var prefix := driver + "_";
    var rest := Encode(id) + ext;
    assert key == prefix + rest;
    HasPrefixOfAppend(prefix, rest);
    assert key[|prefix|..] == rest;
    DecodeRestEncode(id, ext);
  }

  /** `DecodeRest` inverts encoding, under the conditions of `DecodeEncode`. */
  lemma DecodeRestEncode(id: Identity, ext: String)
    requires IsExtension(ext) && IsDistroName(id.distro) && NoChar(id.kernelVersion, '_')
    requires NoChar(id.kernelRelease, '\n') && NoChar(id.kernelVersion, '\n')
    ensures DecodeRest(Encode(id) + ext) == Some(id)
  {
    var d, kr, kv := id.distro, id.kernelRelease, id.kernelVersion;
    var tail := kr + "_" + kv + ext;
    var rest := d + "_" + tail;
    assert Encode(id) + ext == rest;
    assert rest[..|d|] == d;
    DistroRunAt(rest, |d|);
    assert rest[|d| + 1..] == tail;
    TailOfEncode(kr, kv, ext);
  }

  /** The first line of an encoded tail is all of it, and splits back into its parts. */
  lemma TailOfEncode(kr: String, kv: String, ext: String)
    requires IsExtension(ext) && NoChar(kv, '_')
    requires NoChar(kr, '\n') && NoChar(kv, '\n')
    ensures DecodeTail(FirstLine(kr + "_" + kv + ext)) == Some((kr, kv))
  {
    assert NoChar("_", '\n') && NoChar(ext, '\n');
    NoCharAppend(kr, "_", '\n');
    NoCharAppend(kr + "_", kv, '\n');
    NoCharAppend(kr + "_" + kv, ext, '\n');
    FirstLineWhole(kr + "_" + kv + ext);
    DecodeTailOf(kr, kv, ext);
  }

  /** What `DecodeTail` accepts is `{kr}_{kv}` with a '_'-free `kv`, then `.o`/`.ko`. */
  lemma DecodeTailShape(tail: String)
    requires DecodeTail(tail).Some?
    ensures var kr, kv := DecodeTail(tail).value.0, DecodeTail(tail).value.1;
      NoChar(kv, '_') && |kr| + 1 + |kv| <= |tail| && tail[..|kr| + 1 + |kv|] == kr + "_" + kv &&
      ExtensionAt(tail, |kr| + 1 + |kv|)
  {
    var pj := (k: nat) => ExtensionAt(tail, k);
    var j := LastWhere(|tail|, pj).value;
    var pi := (k: nat) => k < |tail| && tail[k] == '_';
    var i := LastWhere(j, pi).value;
    var kr, kv := tail[..i], tail[i + 1..j];
    assert DecodeTail(tail).value == (kr, kv);
    assert tail[..j] == kr + "_" + kv;
    forall k | 0 <= k < |kv| ensures kv[k] != '_' {
      assert !pi(i + 1 + k);
      assert kv[k] == tail[i + 1 + k];
    }
  }

  /**
   * Splitting the first line of `tail`: the captures hold no newline, and the shape
   * `DecodeTail` finds in the line is found at the same place in `tail`.
   */
  lemma LineShape(tail: String) returns (kr: String, kv: String)
    requires DecodeTail(FirstLine(tail)).Some?
    ensures DecodeTail(FirstLine(tail)) == Some((kr, kv))
    ensures NoChar(kv, '_') && NoChar(kr, '\n') && NoChar(kv, '\n')
    ensures |kr| + 1 + |kv| <= |tail| && tail[..|kr| + 1 + |kv|] == kr + "_" + kv
    ensures ExtensionAt(tail, |kr| + 1 + |kv|)
  {
    var line := FirstLine(tail);
    DecodeTailShape(line);
    kr, kv := DecodeTail(line).value.0, DecodeTail(line).value.1;
    var m := |kr| + 1 + |kv|;
    assert tail[..|line|] == line;
    assert tail[..m] == line[..m];
    PartsOfLine(line, kr, kv);
    ExtensionInPrefix(tail, line, m);
  }

  /** The two parts of a newline-free `{kr}_{kv}` prefix are newline-free. */
  lemma PartsOfLine(line: String, kr: String, kv: String)
    requires NoChar(line, '\n') && |kr| + 1 + |kv| <= |line| && line[..|kr| + 1 + |kv|] == kr + "_" + kv
    ensures NoChar(kr, '\n') && NoChar(kv, '\n')
  {
    var parts := kr + "_" + kv;
    forall k | 0 <= k < |kr| ensures kr[k] != '\n' {
      assert kr[k] == parts[k] == line[k];
    }
    forall k | 0 <= k < |kv| ensures kv[k] != '\n' {
      assert kv[k] == parts[|kr| + 1 + k] == line[|kr| + 1 + k];
    }
  }

  /** An extension found in a prefix of `s` is found in `s`. */
  lemma ExtensionInPrefix(s: String, line: String, m: nat)
    requires HasPrefix(s, line) && ExtensionAt(line, m)
    ensures ExtensionAt(s, m)
  {
    assert s[m..|line|] == line[m..];
    assert forall e: String :: HasPrefix(line[m..], e) ==> s[m..][..|e|] == line[m..][..|e|];
  }

  /**
   * What `DecodeRest` accepts starts with the encoded identity, followed by `.o` or
   * `.ko`; the distro is a distro name, the kernel version holds no '_', and neither
   * release nor version holds a newline.
   */
  lemma RestShape(rest: String)
    requires DecodeRest(rest).Some?
    ensures var id := DecodeRest(rest).value;
      IsDistroName(id.distro) && NoChar(id.kernelVersion, '_') &&
      NoChar(id.kernelRelease, '\n') && NoChar(id.kernelVersion, '\n') &&
      HasPrefix(rest, Encode(id)) && ExtensionAt(rest, |Encode(id)|)
  {
    var d := DistroRun(rest);
    assert d < |rest| && rest[d] == '_';
    var tail := rest[d + 1..];
    var kr, kv := LineShape(tail);
    ShapeAfterDistro(rest, d, tail, kr, kv);
    assert DecodeRest(rest).value == Identity(rest[..d], kr, kv);
  }

  /** The shape found after the distro's '_' is found in `rest` after the distro. */
  lemma ShapeAfterDistro(rest: String, d: nat, tail: String, kr: String, kv: String)
    requires d < |rest| && rest[d] == '_' && tail == rest[d + 1..]
    requires var m := |kr| + 1 + |kv|;
      m <= |tail| && tail[..m] == kr + "_" + kv && ExtensionAt(tail, m)
    ensures var n := rest[..d] + "_" + kr + "_" + kv;
      HasPrefix(rest, n) && ExtensionAt(rest, |n|)
  {
    var m := |kr| + 1 + |kv|;
    var n := rest[..d] + "_" + kr + "_" + kv;
    assert n == rest[..d] + "_" + (kr + "_" + kv);
    assert rest[..d + 1 + m] == rest[..d] + [rest[d]] + tail[..m];
    assert rest[d + 1 + m..] == tail[m..];
  }

  /** A shape found after a prefix of `key` is found in `key` after that prefix. */
  lemma ShapeAfterPrefix(key: String, prefix: String, n: String)
    requires HasPrefix(key, prefix)
    requires HasPrefix(key[|prefix|..], n) && ExtensionAt(key[|prefix|..], |n|)
    ensures HasPrefix(key, prefix + n) && ExtensionAt(key, |prefix + n|)
  {
    assert key[..|prefix + n|] == key[..|prefix|] + key[|prefix|..][..|n|];
    assert key[|prefix + n|..] == key[|prefix|..][|n|..];
  }

  /**
   * The captures `Decode` returns, for a driver name without regex metacharacters:
   * the distro is a distro name, the kernel version holds no '_', and neither release
   * nor version holds a newline.
   */
  lemma DecodeCaptures(driver: String, key: String)
    requires LiteralPattern(driver)
    requires Decode(driver, key).Some?
    ensures var id := Decode(driver, key).value;
      IsDistroName(id.distro) && NoChar(id.kernelVersion, '_') &&
      NoChar(id.kernelRelease, '\n') && NoChar(id.kernelVersion, '\n')
  {
    RestShape(key[|driver + "_"|..]);
  }

  /**
   * Everything `Decode` accepts, for a driver name without regex metacharacters, has
   * the encoded shape: the key starts with `{driver}_{Encode(id)}` followed by `.o` or
   * `.ko`.
   */
  lemma DecodeShape(driver: String, key: String)
    requires LiteralPattern(driver)
    requires Decode(driver, key).Some?
    ensures var n := driver + "_" + Encode(Decode(driver, key).value);
      HasPrefix(key, n) && ExtensionAt(key, |n|)
  {
    var prefix := driver + "_";
    var id := Decode(driver, key).value;
    RestShape(key[|prefix|..]);
    ShapeAfterPrefix(key, prefix, Encode(id));
    assert prefix + Encode(id) == driver + "_" + Encode(id);
  }

  /**
   * The encoding is not injective: a kernel release or version holding '_' makes two
   * different identities encode to the same name, which decodes to only one of them.
   */
  lemma EncodeNotInjective()
    ensures Encode(Identity("ubuntu", "5.4_1", "2")) == Encode(Identity("ubuntu", "5.4", "1_2"))
    ensures Decode("falco", "falco_" + Encode(Identity("ubuntu", "5.4", "1_2")) + ".o")
            == Some(Identity("ubuntu", "5.4_1", "2"))
  {
    assert "5.4" + "_" + "1" == "5.4_1" && "1" + "_" + "2" == "1_2";
    UnderscoreMoves("ubuntu", "5.4", "1", "2");
    var n := Encode(Identity("ubuntu", "5.4_1", "2"));
    DecodeEncode("falco", Identity("ubuntu", "5.4_1", "2"), ".o");
    assert "falco_" == "falco" + "_";
  }

  /** A '_' may sit at the end of the release or the start of the version: the name is the same. */
  lemma UnderscoreMoves(distro: String, a: String, b: String, v: String)
    ensures Encode(Identity(distro, a + "_" + b, v)) == Encode(Identity(distro, a, b + "_" + v))
  {
    assert distro + "_" + (a + "_" + b) + "_" + v == distro + "_" + a + "_" + b + "_" + v;
  }

  /** The captures of the bottlerocket key of the object-store tests. */
  lemma BottlerocketChars()
    ensures IsDistroName("bottlerocket") && NoChar("1.13.1-aws", '_')
  {
  }

  /**
   * The bottlerocket key of the object-store tests,
   * `falco_bottlerocket_5.10.165_1_1.13.1-aws.o`, keeps its '_' in the kernel release.
   */
  lemma BottlerocketKey(key: String)
    requires key == "falco" + "_" + Encode(Identity("bottlerocket", "5.10.165_1", "1.13.1-aws")) + ".o"
    ensures Decode("falco", key) == Some(Identity("bottlerocket", "5.10.165_1", "1.13.1-aws"))
  {
    BottlerocketChars();
    DecodeEncode("falco", Identity("bottlerocket", "5.10.165_1", "1.13.1-aws"), ".o");
  }
}
