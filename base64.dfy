/**
 * The standard, padded base64 encoding of RFC 4648 section 4, as accepted by Go's
 * `base64.StdEncoding.DecodeString`: carriage returns and line feeds are skipped
 * anywhere; what remains is a sequence of four-character quanta over the alphabet
 * `A-Z a-z 0-9 + /`, the last of which may end in `=` or `==`.
 * The encoder is the partner the validity check is proved against.
 */
module Base64 {
  import opened Strings

  newtype byte = x: int | 0 <= x < 256

  predicate IsAlphabet(c: char) {
    ('A' <= c <= 'Z') || ('a' <= c <= 'z') || ('0' <= c <= '9') || c == '+' || c == '/'
  }

  predicate IsNewline(c: char) {
    c == '\r' || c == '\n'
  }

  /** The input with every '\r' and '\n' removed. */
  function StripNewlines(s: String): (r: String)
    ensures |r| <= |s|
    ensures forall i :: 0 <= i < |r| ==> !IsNewline(r[i])
  {
    if s == [] then []
    else if IsNewline(s[0]) then StripNewlines(s[1..])
    else [s[0]] + StripNewlines(s[1..])
  }

  /** A final quantum: two alphabet characters, then `==`, `x=` or `xx`. */
  predicate FinalQuantum(q: String)
    requires |q| == 4
  {
    IsAlphabet(q[0]) && IsAlphabet(q[1]) &&
    ((q[2] == '=' && q[3] == '=') ||
     (IsAlphabet(q[2]) && (q[3] == '=' || IsAlphabet(q[3]))))
  }

  /** Whole quanta with padding only in the last one, and nothing after it. */
  predicate Quanta(s: String)
    decreases |s|
  {
    if |s| == 0 then true
    else if |s| < 4 then false
    else if |s| == 4 then FinalQuantum(s)
    else IsAlphabet(s[0]) && IsAlphabet(s[1]) && IsAlphabet(s[2]) && IsAlphabet(s[3]) && Quanta(s[4..])
  }

  /** `DecodeString(s)` returns no error. */
  predicate IsBase64(s: String) {
    Quanta(StripNewlines(s))
  }

  // ---------------------------------------------------------------------------
  // The encoder

  function EncodeChar(v: nat): (c: char)
    requires v < 64
    ensures IsAlphabet(c)
  {
    if v < 26 then ('A' as int + v) as char
    else if v < 52 then ('a' as int + (v - 26)) as char
    else if v < 62 then ('0' as int + (v - 52)) as char
    else if v == 62 then '+'
    else '/'
  }

  /**
   * One quantum: the 24 bits of up to three bytes, six at a time, as four characters;
   * a quantum of one or two bytes is padded with '='.
   */
  function Quantum(b: seq<byte>): (q: String)
    requires 1 <= |b| <= 3
    ensures |q| == 4 && IsAlphabet(q[0]) && IsAlphabet(q[1])
    ensures |b| == 1 ==> q[2] == '=' && q[3] == '='
    ensures |b| == 2 ==> IsAlphabet(q[2]) && q[3] == '='
    ensures |b| == 3 ==> IsAlphabet(q[2]) && IsAlphabet(q[3])
  {
    if |b| == 1 then
      var n := b[0] as nat * 65536;
      [EncodeChar(n / 262144), EncodeChar(n / 4096 % 64), '=', '=']
    else if |b| == 2 then
      var n := b[0] as nat * 65536 + b[1] as nat * 256;
      [EncodeChar(n / 262144), EncodeChar(n / 4096 % 64), EncodeChar(n / 64 % 64), '=']
    else
      var n := b[0] as nat * 65536 + b[1] as nat * 256 + b[2] as nat;
      [EncodeChar(n / 262144), EncodeChar(n / 4096 % 64), EncodeChar(n / 64 % 64), EncodeChar(n % 64)]
  }

  /** `StdEncoding.EncodeToString`: three bytes become four characters; a short tail is padded. */
  function Encode(b: seq<byte>): String
    decreases |b|
  {
    if |b| == 0 then []
    else if |b| <= 3 then Quantum(b)
    else Quantum(b[..3]) + Encode(b[3..])
  }

  lemma {:induction false} EncodeLength(b: seq<byte>)
    ensures |Encode(b)| == 4 * ((|b| + 2) / 3)
    decreases |b|
  {
    if |b| > 3 {
      EncodeLength(b[3..]);
      assert (|b| + 2) / 3 == (|b[3..]| + 2) / 3 + 1;
      assert |Encode(b)| == 4 + |Encode(b[3..])|;
    } else if |b| > 0 {
      assert (|b| + 2) / 3 == 1;
    }
  }

  predicate NoNewline(s: String) {
    forall i :: 0 <= i < |s| ==> !IsNewline(s[i])
  }

  lemma QuantumHasNoNewline(b: seq<byte>)
    requires 1 <= |b| <= 3
    ensures NoNewline(Quantum(b))
  {
    var q := Quantum(b);
    assert !IsNewline(q[0]) && !IsNewline(q[1]) && !IsNewline(q[2]) && !IsNewline(q[3]);
  }

  lemma NoNewlineAppend(a: String, b: String)
    requires NoNewline(a) && NoNewline(b)
    ensures NoNewline(a + b)
  {
    forall i | 0 <= i < |a + b| ensures !IsNewline((a + b)[i]) {
      if i >= |a| {
        assert (a + b)[i] == b[i - |a|];
      }
    }
  }

  lemma {:induction false} EncodeHasNoNewline(b: seq<byte>)
    ensures NoNewline(Encode(b))
    decreases |b|
  {
    if |b| > 3 {
      EncodeHasNoNewline(b[3..]);
      QuantumHasNoNewline(b[..3]);
      NoNewlineAppend(Quantum(b[..3]), Encode(b[3..]));
    } else if |b| > 0 {
      QuantumHasNoNewline(b);
    }
  }

  lemma {:induction false} StripNewlinesIdentity(s: String)
    requires NoNewline(s)
    ensures StripNewlines(s) == s
  {
    if s != [] {
      StripNewlinesIdentity(s[1..]);
    }
  }

  lemma {:induction false} EncodeQuanta(b: seq<byte>)
    ensures Quanta(Encode(b))
    decreases |b|
  {
    if |b| > 3 {
      EncodeQuanta(b[3..]);
      EncodeLength(b[3..]);
      assert Encode(b)[4..] == Encode(b[3..]);
    }
  }

  /** Everything the encoder produces is accepted by the decoder. */
  lemma EncodeIsBase64(b: seq<byte>)
    ensures IsBase64(Encode(b))
  {
    EncodeHasNoNewline(b);
    StripNewlinesIdentity(Encode(b));
    EncodeQuanta(b);
  }

  lemma {:induction false} StripNewlinesAppend(a: String, b: String)
    ensures StripNewlines(a + b) == StripNewlines(a) + StripNewlines(b)
  {
    if a == [] {
      assert a + b == b;
    } else {
      assert (a + b)[0] == a[0];
      assert (a + b)[1..] == a[1..] + b;
      StripNewlinesAppend(a[1..], b);
      if !IsNewline(a[0]) {
        assert [a[0]] + StripNewlines(a[1..]) + StripNewlines(b)
            == [a[0]] + (StripNewlines(a[1..]) + StripNewlines(b));
      }
    }
  }

  /** Line breaks inserted anywhere do not change whether the data is base64. */
  lemma NewlinesIgnored(a: String, b: String, c: char)
    requires IsNewline(c)
    ensures IsBase64(a + [c] + b) <==> IsBase64(a + b)
  {
    assert StripNewlines([c]) == [];
    StripNewlinesAppend(a, [c]);
    assert StripNewlines(a + [c]) == StripNewlines(a);
    StripNewlinesAppend(a + [c], b);
    StripNewlinesAppend(a, b);
    assert StripNewlines(a + [c] + b) == StripNewlines(a + b);
  }

  /** Data whose length, without line breaks, is not a multiple of four is rejected. */
  lemma {:induction false} QuantaLength(s: String)
    requires Quanta(s)
    ensures |s| % 4 == 0
    decreases |s|
  {
    if |s| > 4 {
      QuantaLength(s[4..]);
    }
  }

  /** Padding may only close the data: a '=' followed by alphabet characters is rejected. */
  lemma {:induction false} PaddingOnlyAtEnd(s: String, i: nat)
    requires Quanta(s) && i < |s| && s[i] == '='
    ensures i >= |s| - 2
    decreases |s|
  {
    if |s| > 4 {
      if i >= 4 {
        PaddingOnlyAtEnd(s[4..], i - 4);
      }
    }
  }
}
