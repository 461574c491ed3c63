/** Truncation of diagnostics to whole UTF-8 characters (section 4 of RFC 3629). */
module Utf8 {
  import opened Session

  const MAX_DIAGNOSTIC: nat := 512
  const MAX_INPUT: nat := 4096

  /** A space and the ellipsis U+2026. */
  const SUFFIX: Bytes := [0x20, 0xE2, 0x80, 0xA6]

  predicate Continuation(b: byte) { 0x80 <= b < 0xC0 }

  predicate RuneStart(b: byte) { !Continuation(b) }

  /** The length of the well-formed character at the front, or 0 when there is none. */
  function RuneLen(s: Bytes): (n: nat)
    ensures n <= |s| && n <= 4
    ensures n > 0 ==> RuneStart(s[0]) && forall k :: 1 <= k < n ==> Continuation(s[k])
  {
    if s == [] then 0
    else if s[0] < 0x80 then 1
    else if 0xC2 <= s[0] < 0xE0 then
      if |s| >= 2 && Continuation(s[1]) then 2 else 0
    else if 0xE0 <= s[0] < 0xF0 then
      if |s| >= 3 && Continuation(s[1]) && Continuation(s[2])
         && (s[0] == 0xE0 ==> s[1] >= 0xA0) && (s[0] == 0xED ==> s[1] < 0xA0) then 3 else 0
    else if 0xF0 <= s[0] < 0xF5 then
      if |s| >= 4 && Continuation(s[1]) && Continuation(s[2]) && Continuation(s[3])
         && (s[0] == 0xF0 ==> s[1] >= 0x90) && (s[0] == 0xF4 ==> s[1] < 0x90) then 4 else 0
    else 0
  }

  predicate Valid(s: Bytes)
    decreases |s|
  {
    s == [] || (RuneLen(s) > 0 && Valid(s[RuneLen(s)..]))
  }

  lemma RuneLenOfPrefix(s: Bytes, t: Bytes)
    requires RuneLen(s) > 0 && |t| >= RuneLen(s) && t[..RuneLen(s)] == s[..RuneLen(s)]
    ensures RuneLen(t) == RuneLen(s)
  {
    var n := RuneLen(s);
    assert forall k :: 0 <= k < n ==> t[k] == t[..n][k] == s[..n][k] == s[k];
  }

  /** A valid string may be cut before any byte that starts a character. */
  lemma {:induction false} CutAtRuneStart(s: Bytes, k: nat)
    requires Valid(s) && k <= |s| && (k < |s| ==> RuneStart(s[k]))
    ensures Valid(s[..k]) && Valid(s[k..])
    decreases |s|
  {
    var n := RuneLen(s);
    if k == 0 {
      assert s[0..] == s;
    } else if s != [] {
      assert k >= n;
      CutAtRuneStart(s[n..], k - n);
      assert s[..k][n..] == s[n..][..k - n];
      assert s[n..][k - n..] == s[k..];
      assert s[..k][..n] == s[..n];
      RuneLenOfPrefix(s, s[..k]);
    }
  }

  lemma {:induction false} ConcatIsValid(a: Bytes, b: Bytes)
    requires Valid(a) && Valid(b)
    ensures Valid(a + b)
    decreases |a|
  {
    if a == [] {
      assert a + b == b;
    } else {
      var n := RuneLen(a);
      assert (a + b)[..n] == a[..n];
      RuneLenOfPrefix(a, a + b);
      assert (a + b)[n..] == a[n..] + b;
      ConcatIsValid(a[n..], b);
    }
  }

  /** A character spans at most four bytes, so a start is at most three bytes back. */
  lemma {:induction false} StartIsNear(s: Bytes, k: nat)
    requires Valid(s) && k < |s|
    ensures exists i :: k - 3 <= i <= k && 0 <= i && RuneStart(s[i])
    decreases |s|
  {
    var n := RuneLen(s);
    if k < n {
      assert RuneStart(s[0]);
    } else {
      StartIsNear(s[n..], k - n);
      var i :| k - n - 3 <= i <= k - n && 0 <= i && RuneStart(s[n..][i]);
      assert RuneStart(s[i + n]);
    }
  }

  // ---------------------------------------------------------------- what validity means

  /** A Unicode scalar value. */
  type scalar = n: int | 0 <= n < 0xD800 || 0xE000 <= n <= 0x10FFFF

  /** The encoding of section 3 of RFC 3629: a leading byte and six bits in each byte that follows. */
  function Encode(c: scalar): Bytes {
    var n: int := c;
    if n < 0x80 then [n]
    else if n < 0x800 then [0xC0 + n / 64, 0x80 + n % 64]
    else if n < 0x1_0000 then [0xE0 + n / 64 / 64, 0x80 + n / 64 % 64, 0x80 + n % 64]
    else [0xF0 + n / 64 / 64 / 64, 0x80 + n / 64 / 64 % 64, 0x80 + n / 64 % 64, 0x80 + n % 64]
  }

  function EncodeAll(cs: seq<scalar>): Bytes {
    if cs == [] then [] else Encode(cs[0]) + EncodeAll(cs[1..])
  }

  lemma EncodedIsARune(c: scalar, rest: Bytes)
    ensures RuneLen(Encode(c) + rest) == |Encode(c)|
  {
    var n: int := c;
    if 0x800 <= n < 0x1_0000 {
      assert n / 64 / 64 == 0 ==> n / 64 % 64 >= 0x20;
      assert n / 64 / 64 == 13 ==> n / 64 % 64 < 0x20;
    } else if 0x1_0000 <= n {
      assert n / 64 / 64 / 64 == 0 ==> n / 64 / 64 % 64 >= 0x10;
      assert n / 64 / 64 / 64 == 4 ==> n / 64 / 64 % 64 < 0x10;
    }
  }

  /** The leading byte's share of the scalar value, and what a following byte adds to it. */
  function Lead(b: byte, marker: int): int { var n: int := b; n - marker }

  function Joined(high: int, b: byte): int { var n: int := b; 64 * high + (n - 0x80) }

  /** The character that a well-formed sequence encodes. */
  function Decode(s: Bytes): (c: scalar)
    requires RuneLen(s) > 0
  {
    var n := RuneLen(s);
    if n == 1 then s[0]
    else if n == 2 then Joined(Lead(s[0], 0xC0), s[1])
    else if n == 3 then Joined(Joined(Lead(s[0], 0xE0), s[1]), s[2])
    else Joined(Joined(Joined(Lead(s[0], 0xF0), s[1]), s[2]), s[3])
  }

  lemma SixBits(high: int, b: byte)
    requires Continuation(b)
    ensures Joined(high, b) / 64 == high && 0x80 + Joined(high, b) % 64 == b
  {
  }

  lemma RuneIsEncoded(s: Bytes)
    requires RuneLen(s) > 0
    ensures Encode(Decode(s)) == s[..RuneLen(s)]
  {
    var n := RuneLen(s);
    if n == 2 {
      SixBits(Lead(s[0], 0xC0), s[1]);
    } else if n == 3 {
      var high := Joined(Lead(s[0], 0xE0), s[1]);
      SixBits(Lead(s[0], 0xE0), s[1]);
      SixBits(high, s[2]);
    } else if n == 4 {
      var higher := Joined(Lead(s[0], 0xF0), s[1]);
      var high := Joined(higher, s[2]);
      SixBits(Lead(s[0], 0xF0), s[1]);
      SixBits(higher, s[2]);
      SixBits(high, s[3]);
    }
  }

  lemma {:induction false} EncodedIsValid(cs: seq<scalar>)
    ensures Valid(EncodeAll(cs))
  {
    if cs != [] {
      var head, tail := Encode(cs[0]), EncodeAll(cs[1..]);
      EncodedIsARune(cs[0], tail);
      assert (head + tail)[|head|..] == tail;
      EncodedIsValid(cs[1..]);
    }
  }

  lemma {:induction false} ValidIsEncoded(s: Bytes) returns (cs: seq<scalar>)
    requires Valid(s)
    ensures EncodeAll(cs) == s
    decreases |s|
  {
    cs := [];
    if s != [] {
      var n := RuneLen(s);
      var rest := ValidIsEncoded(s[n..]);
      cs := [Decode(s)] + rest;
      OneRuneMore(s, rest);
    }
  }

  lemma OneRuneMore(s: Bytes, rest: seq<scalar>)
    requires RuneLen(s) > 0 && EncodeAll(rest) == s[RuneLen(s)..]
    ensures EncodeAll([Decode(s)] + rest) == s
  {
    RuneIsEncoded(s);
    EncodeOneMore(Decode(s), rest);
    assert s == s[..RuneLen(s)] + s[RuneLen(s)..];
  }

  lemma EncodeOneMore(c: scalar, rest: seq<scalar>)
    ensures EncodeAll([c] + rest) == Encode(c) + EncodeAll(rest)
  {
    assert ([c] + rest)[1..] == rest;
  }

  /** A string is valid exactly if it is the encoding of some scalar values. */
  lemma ValidExactlyIfEncoded(s: Bytes)
    ensures Valid(s) <==> exists cs: seq<scalar> :: EncodeAll(cs) == s
  {
    if Valid(s) {
      var cs := ValidIsEncoded(s);
    }
    if cs: seq<scalar> :| EncodeAll(cs) == s { EncodedIsValid(cs); }
  }

  lemma SuffixIsValid()
    ensures Valid(SUFFIX) && SUFFIX == Encode(0x20) + Encode(0x2026)
  {
    assert SUFFIX[1..] == [0xE2, 0x80, 0xA6];
    assert RuneLen(SUFFIX) == 1 && RuneLen(SUFFIX[1..]) == 3;
    assert SUFFIX[1..][3..] == [];
  }

  /** Cutting where the loop stops and appending the suffix loses at most three bytes more than needed. */
  lemma CutIsValid(value: Bytes, end: nat)
    requires Valid(value) && |value| > MAX_DIAGNOSTIC && end <= MAX_DIAGNOSTIC - 4
    requires forall k :: end < k <= MAX_DIAGNOSTIC - 4 ==> Continuation(value[k])
    requires end > 0 ==> RuneStart(value[end])
    ensures Valid(value[..end] + SUFFIX) && end >= MAX_DIAGNOSTIC - 7
  {
    StartIsNear(value, MAX_DIAGNOSTIC - 4);
    CutAtRuneStart(value, end);
    SuffixIsValid();
    ConcatIsValid(value[..end], SUFFIX);
  }

  /** Backs up from the cut point to the start of a character and appends the ellipsis. */
  method TruncateDiagnostic(value: Bytes) returns (r: Bytes)
    ensures |r| <= 512
    ensures |value| <= 512 ==> r == value
    ensures |value| > 512 ==>
              |r| >= 4 && r == value[..|r| - 4] + (Encode(0x20) + Encode(0x2026))
              && forall k :: |r| - 4 < k <= 508 ==> 0x80 <= value[k] < 0xC0
    ensures Valid(value) ==> Valid(r) && (|value| > 512 ==> |r| >= 509)
  {
    if |value| <= MAX_DIAGNOSTIC { return value; }
    var end := MAX_DIAGNOSTIC - |SUFFIX|;
    while end > 0 && !RuneStart(value[end])
      invariant 0 <= end <= MAX_DIAGNOSTIC - 4
      invariant forall k :: end < k <= MAX_DIAGNOSTIC - 4 ==> Continuation(value[k])
    {
      end := end - 1;
    }
    r := value[..end] + SUFFIX;
    SuffixIsValid();
    if Valid(value) { CutIsValid(value, end); }
  }

  /** The length of the longest valid prefix of the first n bytes. */
  function LongestValid(value: Bytes, n: nat): (m: nat)
    requires n <= |value|
    ensures m <= n
  {
    if n == 0 || Valid(value[..n]) then n else LongestValid(value, n - 1)
  }

  lemma {:induction false} NothingLongerIsValid(value: Bytes, n: nat, k: nat)
    requires n <= |value| && LongestValid(value, n) < k <= n
    ensures !Valid(value[..k])
  {
    if k < n { NothingLongerIsValid(value, n - 1, k); }
  }

  lemma {:induction false} LongestIsValid(value: Bytes, n: nat)
    requires n <= |value|
    ensures Valid(value[..LongestValid(value, n)])
  {
    if n > 0 && !Valid(value[..n]) { LongestIsValid(value, n - 1); }
  }

  /** A valid string loses at most three bytes of a cut. */
  lemma LongestIsNear(value: Bytes, n: nat)
    requires Valid(value) && n < |value|
    ensures LongestValid(value, n) >= n - 3
  {
    StartIsNear(value, n);
    var i :| n - 3 <= i <= n && 0 <= i && RuneStart(value[i]);
    CutAtRuneStart(value, i);
    if LongestValid(value, n) < i { NothingLongerIsValid(value, n, i); }
  }

  /** Long input is cut to 4096 bytes and then, byte by byte, to the longest valid prefix. */
  method TruncateInput(value: Bytes) returns (r: Bytes, truncated: bool)
    ensures truncated <==> |value| > 4096
    ensures !truncated ==> r == value
    ensures truncated ==> |r| <= 4096 && r == value[..|r|] && Valid(r)
    ensures truncated ==> forall n :: |r| < n <= 4096 ==> !Valid(value[..n])
    ensures truncated && Valid(value) ==> |r| >= 4093
  {
    if |value| <= MAX_INPUT { return value, false; }
    r := value[..MAX_INPUT];
    while !Valid(r) && |r| > 0
      invariant |r| <= MAX_INPUT && r == value[..|r|]
      invariant LongestValid(value, MAX_INPUT) == LongestValid(value, |r|)
    {
      r := r[..|r| - 1];
    }
    truncated := true;
    LongestIsValid(value, MAX_INPUT);
    forall n | |r| < n <= MAX_INPUT ensures !Valid(value[..n]) {
      NothingLongerIsValid(value, MAX_INPUT, n);
    }
    if Valid(value) { LongestIsNear(value, MAX_INPUT); }
  }
}
