/** Decimal text, the PostgreSQL gid, and the recovery rows of the other engines. */
module XidText {
  import opened Xids

  // ---------------------------------------------------------------------
  // Decimal integers, as Rust prints and parses them
  // ---------------------------------------------------------------------

  predicate IsDigit(c: char) { '0' <= c <= '9' }

  predicate AllDigits(s: string) { forall i :: 0 <= i < |s| ==> IsDigit(s[i]) }

  function DigitsOf(n: nat): (s: string)
    ensures |s| >= 1 && AllDigits(s)
    ensures s[0] == '0' ==> s == "0"
    ensures s == "0" <==> n == 0
  {
    if n < 10 then [('0' as int + n) as char]
    else DigitsOf(n / 10) + [('0' as int + n % 10) as char]
  }

  function DigitsValue(s: string): (n: nat)
    requires AllDigits(s)
  {
    if s == "" then 0
    else DigitsValue(s[..|s| - 1]) * 10 + (s[|s| - 1] as int - '0' as int)
  }

  lemma {:induction false} DigitsRoundTrip(n: nat)
    ensures DigitsValue(DigitsOf(n)) == n
  {
    var s := DigitsOf(n);
    if n >= 10 {
      DigitsRoundTrip(n / 10);
      assert s[..|s| - 1] == DigitsOf(n / 10);
    } else {
      assert s[..|s| - 1] == "";
    }
  }

  /** A digit string is what its value prints as, exactly when it has no idle leading zero. */
  lemma {:induction false} DigitsCanonical(s: string)
    requires AllDigits(s) && |s| >= 1
    ensures s[0] != '0' || |s| == 1 ==> DigitsOf(DigitsValue(s)) == s
    ensures s[0] != '0' ==> DigitsValue(s) > 0
  {
    var k := |s| - 1;
    var init := s[..k];
    if k > 0 {
      DigitsCanonical(init);
      if s[0] != '0' {
        var v, d := DigitsValue(init), s[k] as int - '0' as int;
        assert DigitsValue(s) == v * 10 + d;
        assert (v * 10 + d) / 10 == v && (v * 10 + d) % 10 == d;
        assert s == init + [s[k]];
      }
    } else {
      assert init == "" && s == [s[0]];
    }
  }

  function IntText(n: int): (s: string)
    ensures |s| >= 1
  {
    if n < 0 then "-" + DigitsOf(0 - n) else DigitsOf(n)
  }

  /** Signed parse: one optional sign, then at least one digit, and the value must fit. */
  function ParseInt32(s: string): (r: Option<Int32>) {
    var body := if s != "" && (s[0] == '-' || s[0] == '+') then s[1..] else s;
    if body == "" || !AllDigits(body) then None
    else
      var v := if s[0] == '-' then 0 - DigitsValue(body) else DigitsValue(body);
      if -0x8000_0000 <= v <= 0x7FFF_FFFF then Some(v) else None
  }

  /** Unsigned parse: a plus sign is accepted, a minus sign is not. */
  function ParseUsize(s: string): (r: Option<nat>) {
    var body := if s != "" && s[0] == '+' then s[1..] else s;
    if body == "" || !AllDigits(body) then None
    else if DigitsValue(body) < USIZE_LIMIT then Some(DigitsValue(body)) else None
  }

  predicate CanonicalInt(s: string) {
    || (|s| >= 1 && AllDigits(s) && (s[0] != '0' || |s| == 1))
    || (|s| >= 2 && s[0] == '-' && AllDigits(s[1..]) && s[1] != '0')
  }

  lemma {:induction false} IntRoundTrip(n: Int32)
    ensures ParseInt32(IntText(n)) == Some(n)
  {
    var d := DigitsOf(if n < 0 then 0 - n else n);
    DigitsRoundTrip(if n < 0 then 0 - n else n);
    assert IsDigit(d[0]);
    if n < 0 {
      assert ("-" + d)[1..] == d;
    }
  }

  lemma UsizeRoundTrip(n: nat)
    requires n < USIZE_LIMIT
    ensures ParseUsize(IntText(n)) == Some(n)
  {
    DigitsRoundTrip(n);
  }

  lemma Parsed(t: string)
    requires t != "" && AllDigits(t)
    ensures ParseUsize(t) == (if DigitsValue(t) < USIZE_LIMIT then Some(DigitsValue(t)) else None)
    ensures ParseInt32(t) == (if DigitsValue(t) <= 0x7FFF_FFFF then Some(DigitsValue(t)) else None)
  {
    assert IsDigit(t[0]);
  }

  lemma ParsedPlus(t: string)
    requires t != "" && AllDigits(t)
    ensures ParseUsize("+" + t) == ParseUsize(t) && ParseInt32("+" + t) == ParseInt32(t)
  {
    assert IsDigit(t[0]);
    assert ("+" + t)[1..] == t;
  }

  /** Numbers are taken with or without a plus sign, exactly up to the width they are read into. */
  lemma ParsedIff(n: nat)
    ensures ParseUsize(IntText(n)) == (if n < USIZE_LIMIT then Some(n) else None)
    ensures ParseInt32(IntText(n)) == (if n <= 0x7FFF_FFFF then Some(n) else None)
    ensures ParseUsize("+" + IntText(n)) == ParseUsize(IntText(n))
    ensures ParseInt32("+" + IntText(n)) == ParseInt32(IntText(n))
  {
    DigitsRoundTrip(n);
    Parsed(DigitsOf(n));
    ParsedPlus(DigitsOf(n));
  }

  lemma IntCanonical(s: string)
    requires ParseInt32(s).Some?
    ensures IntText(ParseInt32(s).value) == s <==> CanonicalInt(s)
  {
    var n := ParseInt32(s).value;
    if s[0] == '-' {
      DigitsCanonical(s[1..]);
      if CanonicalInt(s) {
        assert s == "-" + s[1..];
      }
    } else if s[0] == '+' {
      assert !CanonicalInt(s);
    } else {
      DigitsCanonical(s);
    }
  }

  // ---------------------------------------------------------------------
  // PostgreSQL global identifiers
  // ---------------------------------------------------------------------

  /** "format_gtrid_bqual", the last two in lower-case hexadecimal. */
  function EncodePostgres(x: Xid): (s: string) {
    IntText(x.formatId) + "_" + HexOf(x.gtrid, false) + "_" + HexOf(x.bqual, false)
  }

  function FirstUnderscore(s: string): (i: nat)
    ensures i <= |s|
    ensures i < |s| ==> s[i] == '_'
    ensures forall j :: 0 <= j < i ==> s[j] != '_'
  {
    if s == "" || s[0] == '_' then 0 else 1 + FirstUnderscore(s[1..])
  }

  /** The three fields of a gid, when it has at least two underscores; the third keeps the rest. */
  function SplitGid(s: string): (r: Option<(string, string, string)>) {
    var i := FirstUnderscore(s);
    if i == |s| then None
    else
      var rest := s[i + 1..];
      var j := FirstUnderscore(rest);
      if j == |rest| then None else Some((s[..i], rest[..j], rest[j + 1..]))
  }

  lemma {:induction false} SplitJoins(s: string)
    requires SplitGid(s).Some?
    ensures var (f, g, b) := SplitGid(s).value;
            s == f + "_" + g + "_" + b && '_' !in f && '_' !in g
  {
  }

  function DecodePostgres(s: string): (r: Option<Xid>)
    ensures r.Some? ==> r.value.Valid()
  {
    var parts := SplitGid(s);
    if parts.None? then None
    else
      var formatId := ParseInt32(parts.value.0);
      var gtrid := Unhex(parts.value.1);
      var bqual := Unhex(parts.value.2);
      if formatId.None? || gtrid.None? || bqual.None? then None
      else NewXid(formatId.value, gtrid.value, bqual.value)
  }

  lemma {:induction false} FirstUnderscoreAt(a: string, b: string)
    requires '_' !in a
    ensures FirstUnderscore(a + "_" + b) == |a|
  {
    if a != "" {
      FirstUnderscoreAt(a[1..], b);
      assert (a + "_" + b)[1..] == a[1..] + "_" + b;
    }
  }

  lemma SplitUnique(f: string, g: string, b: string)
    requires '_' !in f && '_' !in g
    ensures SplitGid(f + "_" + g + "_" + b) == Some((f, g, b))
  {
    var s := f + "_" + g + "_" + b;
    var rest := g + "_" + b;
    assert s == f + "_" + rest;
    FirstUnderscoreAt(f, rest);
    FirstUnderscoreAt(g, b);
    assert s[..|f|] == f && s[|f| + 1..] == rest;
    assert rest[..|g|] == g && rest[|g| + 1..] == b;
  }

  lemma NoUnderscoreInInt(n: int)
    ensures '_' !in IntText(n)
  {
  }

  /** Every valid identifier survives the trip through its gid. */
  lemma PostgresRoundTrip(x: Xid)
    requires x.Valid()
    ensures DecodePostgres(EncodePostgres(x)) == Some(x)
  {
    NoUnderscoreInInt(x.formatId);
    HexDigitsOnly(x.gtrid, false, '_');
    SplitUnique(IntText(x.formatId), HexOf(x.gtrid, false), HexOf(x.bqual, false));
    IntRoundTrip(x.formatId);
    HexRoundTrip(x.gtrid, false);
    HexRoundTrip(x.bqual, false);
  }

  predicate CanonicalGid(s: string) {
    var parts := SplitGid(s);
    parts.Some? && CanonicalInt(parts.value.0) && LowerHex(parts.value.1) && LowerHex(parts.value.2)
  }

  lemma JoinUnique(f: string, g: string, b: string, f': string, g': string, b': string)
    requires '_' !in f && '_' !in g && '_' !in f' && '_' !in g'
    ensures f + "_" + g + "_" + b == f' + "_" + g' + "_" + b' <==> f == f' && g == g' && b == b'
  {
    SplitUnique(f, g, b);
    SplitUnique(f', g', b');
  }

  /** A gid that decodes is re-encoded to itself exactly when it is spelled canonically;
      other spellings decode to an identifier that addresses a different gid. */
  lemma PostgresReencodes(s: string)
    requires DecodePostgres(s).Some?
    ensures EncodePostgres(DecodePostgres(s).value) == s <==> CanonicalGid(s)
  {
    var (f, g, b) := SplitGid(s).value;
    var n, gs, bs := ParseInt32(f).value, BytesOfHex(g), BytesOfHex(b);
    assert DecodePostgres(s).value == Xid(n, gs, bs);
    SplitJoins(s);
    NoUnderscoreInInt(n);
    HexDigitsOnly(gs, false, '_');
    JoinUnique(IntText(n), HexOf(gs, false), HexOf(bs, false), f, g, b);
    IntCanonical(f);
    HexCanonical(g);
    HexCanonical(b);
  }

  lemma PlusSign(n: Int32)
    requires n >= 0
    ensures ParseInt32("+" + IntText(n)) == Some(n) && '_' !in "+" + IntText(n)
  {
    DigitsRoundTrip(n);
    NoUnderscoreInInt(n);
    assert ("+" + IntText(n))[1..] == IntText(n);
  }

  /** A gid another client could have prepared: with a plus sign in front it decodes to the same
      identifier, which then addresses the gid without the sign. */
  lemma ForeignGidIsMisaddressed(x: Xid)
    requires x.Valid() && x.formatId >= 0
    ensures DecodePostgres("+" + EncodePostgres(x)) == Some(x)
    ensures EncodePostgres(x) != "+" + EncodePostgres(x)
  {
    var f, g, b := IntText(x.formatId), HexOf(x.gtrid, false), HexOf(x.bqual, false);
    PlusSign(x.formatId);
    HexDigitsOnly(x.gtrid, false, '_');
    SplitUnique("+" + f, g, b);
    HexRoundTrip(x.gtrid, false);
    HexRoundTrip(x.bqual, false);
    SignedGid(f, g, b);
  }

  lemma SignedGid(f: string, g: string, b: string)
    ensures "+" + (f + "_" + g + "_" + b) == ("+" + f) + "_" + g + "_" + b
  {
  }
}
