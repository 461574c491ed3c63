/** The laws asked of the JSON library can be met: a library that writes everything in a
    self-delimiting form and reads back by inverting that. */
module CodecWitness {
  import opened Session
  import opened FileStore

  ghost function Unary(n: nat): Bytes { seq(n, _ => 1) + [0] }

  ghost function Str(s: string): Bytes {
    if s == [] then [2] else Unary(s[0] as int) + Str(s[1..])
  }

  ghost function Int(n: int): Bytes { Unary(if n >= 0 then 2 * n else -2 * n - 1) }

  /** A number written in unary ends where its zero is. */
  lemma UnaryEnds(a: nat, x: Bytes, b: nat, y: Bytes)
    requires Unary(a) + x == Unary(b) + y
    ensures a <= b
  {
    assert (Unary(b) + y)[b] == 0;
    assert forall i :: 0 <= i < a ==> (Unary(a) + x)[i] == 1;
  }

  lemma UnaryReads(a: nat, x: Bytes, b: nat, y: Bytes)
    requires Unary(a) + x == Unary(b) + y
    ensures a == b && x == y
  {
    UnaryEnds(a, x, b, y);
    UnaryEnds(b, y, a, x);
    assert x == (Unary(a) + x)[a + 1..] && y == (Unary(b) + y)[b + 1..];
  }

  lemma IntReads(a: int, x: Bytes, b: int, y: Bytes)
    requires Int(a) + x == Int(b) + y
    ensures a == b && x == y
  {
    UnaryReads(if a >= 0 then 2 * a else -2 * a - 1, x, if b >= 0 then 2 * b else -2 * b - 1, y);
  }

  lemma {:induction false} StrReads(s: string, x: Bytes, t: string, y: Bytes)
    requires Str(s) + x == Str(t) + y
    ensures s == t && x == y
    decreases |s|
  {
    var u, v := Str(s) + x, Str(t) + y;
    assert u[0] == v[0];
    if s != [] && t != [] {
      assert u == Unary(s[0] as int) + (Str(s[1..]) + x);
      assert v == Unary(t[0] as int) + (Str(t[1..]) + y);
      UnaryReads(s[0] as int, Str(s[1..]) + x, t[0] as int, Str(t[1..]) + y);
      StrReads(s[1..], x, t[1..], y);
      assert s == [s[0]] + s[1..] && t == [t[0]] + t[1..];
    } else if s == [] && t == [] {
      assert x == u[1..] && y == v[1..];
    }
  }

  ghost function KeyBytes(k: Key): Bytes {
    match k
    case AUTH => [0]
    case PENDING => [1]
    case GENERATION => [2]
    case Other(name) => [3] + Str(name)
  }

  lemma KeyReads(k: Key, x: Bytes, l: Key, y: Bytes)
    requires KeyBytes(k) + x == KeyBytes(l) + y
    ensures k == l && x == y
  {
    assert (KeyBytes(k) + x)[0] == (KeyBytes(l) + y)[0];
    if k.Other? {
      OtherReads(k.name, x, l.name, y);
    } else {
      assert k == l;
      assert x == (KeyBytes(k) + x)[1..] && y == (KeyBytes(l) + y)[1..];
    }
  }

  lemma OtherReads(k: string, x: Bytes, l: string, y: Bytes)
    requires [3] + Str(k) + x == [3] + Str(l) + y
    ensures k == l && x == y
  {
    assert Str(k) + x == ([3] + Str(k) + x)[1..] && Str(l) + y == ([3] + Str(l) + y)[1..];
    StrReads(k, x, l, y);
  }

  ghost function Object(m: Raw): Bytes
    decreases |m|
  {
    if m == map[] then [4] else
    var k :| k in m;
    KeyBytes(k) + (Str(m[k]) + Object(m - {k}))
  }

  lemma {:induction false} ObjectReads(m: Raw, n: Raw)
    requires Object(m) == Object(n)
    ensures m == n
    decreases |m|
  {
    if m == map[] || n == map[] {
      if m != map[] { FirstByte(m); }
      if n != map[] { FirstByte(n); }
    } else {
      var k :| k in m && Object(m) == KeyBytes(k) + (Str(m[k]) + Object(m - {k}));
      var l :| l in n && Object(n) == KeyBytes(l) + (Str(n[l]) + Object(n - {l}));
      KeyReads(k, Str(m[k]) + Object(m - {k}), l, Str(n[l]) + Object(n - {l}));
      StrReads(m[k], Object(m - {k}), n[l], Object(n - {l}));
      ObjectReads(m - {k}, n - {k});
      assert m == (m - {k})[k := m[k]] && n == (n - {k})[k := n[k]];
    }
  }

  lemma FirstByte(m: Raw)
    requires m != map[]
    ensures Object(m)[0] < 4
  {
    var k :| k in m && Object(m) == KeyBytes(k) + (Str(m[k]) + Object(m - {k}));
  }

  ghost function Text(b: Bytes): string { "x" + seq(|b|, i requires 0 <= i < |b| => b[i] as char) }

  lemma TextReads(a: Bytes, b: Bytes)
    requires Text(a) == Text(b)
    ensures a == b
  {
    assert |a| == |b|;
    forall i | 0 <= i < |a| ensures a[i] == b[i] {
      assert Text(a)[i + 1] == a[i] as char && Text(b)[i + 1] == b[i] as char;
    }
  }

  ghost function PrintAuth(a: AuthTokens): string {
    Text(Str(a.access) + (Str(a.refresh) + (Int(a.expiresIn) + (Str(a.tokenType) + Int(a.expiresAt)))))
  }

  ghost function PrintPending(p: Pending): string {
    Text(Str(p.deviceCode) + (Int(p.interval) + (Int(p.expiresAt) + (Str(p.verificationUrl) + Str(p.phrase)))))
  }

  ghost function PrintGeneration(g: uint64): string { if g == 0 then "0" else Text(Unary(g)) }

  lemma AuthReads(a: AuthTokens, b: AuthTokens)
    requires PrintAuth(a) == PrintAuth(b)
    ensures a == b
  {
    var a4, b4 := Int(a.expiresAt), Int(b.expiresAt);
    var a3, b3 := Str(a.tokenType) + a4, Str(b.tokenType) + b4;
    var a2, b2 := Int(a.expiresIn) + a3, Int(b.expiresIn) + b3;
    var a1, b1 := Str(a.refresh) + a2, Str(b.refresh) + b2;
    TextReads(Str(a.access) + a1, Str(b.access) + b1);
    StrReads(a.access, a1, b.access, b1);
    StrReads(a.refresh, a2, b.refresh, b2);
    IntReads(a.expiresIn, a3, b.expiresIn, b3);
    StrReads(a.tokenType, a4, b.tokenType, b4);
    assert a4 + [] == a4 && b4 + [] == b4;
    IntReads(a.expiresAt, [], b.expiresAt, []);
  }

  lemma PendingReads(p: Pending, q: Pending)
    requires PrintPending(p) == PrintPending(q)
    ensures p == q
  {
    var p4, q4 := Str(p.phrase), Str(q.phrase);
    var p3, q3 := Str(p.verificationUrl) + p4, Str(q.verificationUrl) + q4;
    var p2, q2 := Int(p.expiresAt) + p3, Int(q.expiresAt) + q3;
    var p1, q1 := Int(p.interval) + p2, Int(q.interval) + q2;
    TextReads(Str(p.deviceCode) + p1, Str(q.deviceCode) + q1);
    StrReads(p.deviceCode, p1, q.deviceCode, q1);
    IntReads(p.interval, p2, q.interval, q2);
    IntReads(p.expiresAt, p3, q.expiresAt, q3);
    StrReads(p.verificationUrl, p4, q.verificationUrl, q4);
    assert p4 + [] == p4 && q4 + [] == q4;
    StrReads(p.phrase, [], q.phrase, []);
  }

  lemma GenerationReads(g: uint64, h: uint64)
    requires PrintGeneration(g) == PrintGeneration(h)
    ensures g == h
  {
    if g == 0 || h == 0 {
      assert PrintGeneration(g)[0] == PrintGeneration(h)[0];
    } else {
      TextReads(Unary(g), Unary(h));
      assert Unary(g) + [] == Unary(h) + [];
      UnaryReads(g, [], h, []);
    }
  }

  /** The inverse of an injective printing. */
  ghost function Inverse<T(!new), S(!new)>(printed: T -> S, s: S): Option<T> {
    if t: T :| printed(t) == s then Some(t) else None
  }

  ghost predicate Named(m: Raw) {
    forall k <- m :: k.Other? ==> k.name !in RESERVED_NAMES
  }

  ghost function Parsed(b: Bytes): Option<Raw> {
    if m: Raw :| Named(m) && Object(m) == b then Some(m) else None
  }

  ghost function Witness(): Codec {
    Codec(
      b => Parsed(b), m => Some(Object(m)), v => v, _ => true, s => s, v => v == NULL,
      v => Inverse((a: AuthTokens) => PrintAuth(a), v), a => PrintAuth(a),
      v => Inverse((p: Pending) => PrintPending(p), v), p => PrintPending(p),
      v => Inverse((g: uint64) => PrintGeneration(g), v), (g: uint64) => PrintGeneration(g))
  }

  lemma WitnessDecodes(b: Bytes)
    ensures Witness().DecodeLaw(b)
  {
    assert Parsed(b).Some? ==> Named(Parsed(b).value);
  }

  lemma WitnessEncodes(m: Raw)
    ensures Witness().EncodeLaw(m)
  {
    if Witness().Clean(m) {
      assert Named(m);
      ObjectReads(m, Parsed(Object(m)).value);
      assert m == map k | k in m :: Witness().compact(m[k]);
    }
  }

  /** Objects whose keys are known and whose values take at most 513 bytes each. */
  lemma {:induction false} ObjectLength(m: Raw)
    requires forall k <- m :: !k.Other? && |Str(m[k])| <= 513
    ensures |Object(m)| <= 1 + 514 * |m|
    decreases |m|
  {
    if m != map[] {
      var k :| k in m && Object(m) == KeyBytes(k) + (Str(m[k]) + Object(m - {k}));
      assert |m - {k}| == |m| - 1 by { assert (m - {k}).Keys == m.Keys - {k} && |m| == |m.Keys|; }
      ObjectLength(m - {k});
      assert |KeyBytes(k)| == 1;
    }
  }

  lemma {:induction false} StrLength(s: string)
    requires forall i :: 0 <= i < |s| ==> s[i] as int < 128
    ensures |Str(s)| <= 1 + 128 * |s|
  {
    if s != [] {
      StrLength(s[1..]);
      assert |Unary(s[0] as int)| <= 128;
    }
  }

  lemma WitnessIsSmall()
    ensures Witness().SizeLaw()
  {
    var one := PrintGeneration(1);
    assert |one| == 3 by { assert Unary(1) == [1, 0]; }
    StrLength(one);
    StrLength(NULL);
    var m: Raw := map[AUTH := NULL, PENDING := NULL, GENERATION := one];
    assert m.Keys == {AUTH, PENDING, GENERATION} && |m| == |m.Keys|;
    ObjectLength(m);
  }

  lemma WitnessReadsAuth(a: AuthTokens)
    ensures Witness().AuthLaw(a)
  {
    var f := (a: AuthTokens) => PrintAuth(a);
    assert f(a) == PrintAuth(a);
    assert PrintAuth(a)[0] != NULL[0];
    AuthReads(a, Inverse(f, PrintAuth(a)).value);
  }

  lemma WitnessReadsPending(p: Pending)
    ensures Witness().PendingLaw(p)
  {
    var f := (p: Pending) => PrintPending(p);
    assert f(p) == PrintPending(p);
    assert PrintPending(p)[0] != NULL[0];
    PendingReads(p, Inverse(f, PrintPending(p)).value);
  }

  lemma WitnessReadsGeneration(g: uint64)
    ensures Witness().GenerationLaw(g)
  {
    var f := (g: uint64) => PrintGeneration(g);
    assert f(g) == PrintGeneration(g);
    assert PrintGeneration(g)[0] != NULL[0];
    GenerationReads(g, Inverse(f, PrintGeneration(g)).value);
  }

  lemma LawsCanBeMet()
    ensures Witness().Lawful()
  {
    forall b: Bytes ensures Witness().DecodeLaw(b) { WitnessDecodes(b); }
    WitnessIsSmall();
    forall m: Raw ensures Witness().EncodeLaw(m) { WitnessEncodes(m); }
    forall a: AuthTokens ensures Witness().AuthLaw(a) { WitnessReadsAuth(a); }
    forall p: Pending ensures Witness().PendingLaw(p) { WitnessReadsPending(p); }
    forall g: uint64 ensures Witness().GenerationLaw(g) { WitnessReadsGeneration(g); }
    assert Witness().GenerationLaw(0) && PrintGeneration(0) == "0";
  }

  // ---------------------------------------------------------------- a file that cannot be read back

  lemma {:induction false} ObjectHolds(m: Raw, l: Key)
    requires l in m
    ensures |Object(m)| >= |Str(m[l])|
    decreases |m|
  {
    var k :| k in m && Object(m) == KeyBytes(k) + (Str(m[k]) + Object(m - {k}));
    if k != l { ObjectHolds(m - {k}, l); }
  }

  lemma {:induction false} StrHolds(s: string)
    ensures |Str(s)| >= |s|
  {
    if s != [] { StrHolds(s[1..]); }
  }

  /** Nothing stops a write that reading then refuses: here any session with a refresh token of more
      than 1 MiB, over any file that can be read. */
  lemma LongSessionsCannotBeReadBack(file: Option<Bytes>, s: State)
    requires Prepared(s) && s.auth.Some? && |s.auth.value.refresh| > MAX_FILE
    requires ReadState(Witness(), file).Ok?
    ensures var written := Witness().encode(Replaced(Witness(), ReadState(Witness(), file).value, s));
            written.Some? && Stored(Witness(), written) == Err(TooLarge)
  {
    var a := s.auth.value;
    var m := Replaced(Witness(), ReadState(Witness(), file).value, s);
    assert m[AUTH] == PrintAuth(a);
    StrHolds(a.refresh);
    StrHolds(PrintAuth(a));
    ObjectHolds(m, AUTH);
  }
}
