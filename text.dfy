/** The text forms the proxy hands to the network layer: decimal numbers as
    fmt's %d writes them, dotted-quad IPv4 addresses as net.IP.String writes
    them and net.ParseIP reads them, and "host:port" dial strings. */
module Text {
  import opened Wire

  predicate IsDigit(c: char) { '0' <= c <= '9' }

  predicate AllDigits(s: string)
  {
    forall i :: 0 <= i < |s| ==> IsDigit(s[i])
  }

  /** Digits only, at least one, and no leading zero unless the number is 0. */
  predicate IsCanonicalDecimal(s: string)
  {
    |s| >= 1 && AllDigits(s) && (s[0] == '0' ==> |s| == 1)
  }

  function DigitChar(d: nat): (c: char)
    requires d < 10
    ensures IsDigit(c)
  {
    (48 + d) as char
  }

  function DigitValue(c: char): (d: nat)
    requires IsDigit(c)
    ensures d < 10 && DigitChar(d) == c
  {
    c as int - 48
  }

  /** The decimal rendering of n, most significant digit first. */
  function Decimal(n: nat): string
    decreases n
  {
    if n < 10 then [DigitChar(n)] else Decimal(n / 10) + [DigitChar(n % 10)]
  }

  /** The number a string of digits denotes. */
  function ValueOf(s: string): nat
    requires AllDigits(s)
    decreases |s|
  {
    if s == [] then 0 else ValueOf(s[..|s| - 1]) * 10 + DigitValue(s[|s| - 1])
  }

  /** Decimal writes canonical digits that read back as the number. */
  lemma {:induction false} DecimalRoundTrip(n: nat)
    ensures IsCanonicalDecimal(Decimal(n)) && ValueOf(Decimal(n)) == n
    decreases n
  {
    if n >= 10 {
      DecimalRoundTrip(n / 10);
      var s := Decimal(n);
      assert s[..|s| - 1] == Decimal(n / 10);
    }
  }

  lemma {:induction false} LeadingNonZeroIsPositive(s: string)
    requires |s| >= 1 && AllDigits(s) && s[0] != '0'
    ensures ValueOf(s) > 0
    decreases |s|
  {
    if |s| > 1 {
      LeadingNonZeroIsPositive(s[..|s| - 1]);
    }
  }

  /** A canonical decimal string is exactly what Decimal writes for its value. */
  lemma {:induction false} DecimalOfValue(s: string)
    requires IsCanonicalDecimal(s)
    ensures Decimal(ValueOf(s)) == s
    decreases |s|
  {
    if |s| > 1 {
      var init := s[..|s| - 1];
      LeadingNonZeroIsPositive(init);
      DecimalOfValue(init);
      assert s == init + [s[|s| - 1]];
    }
  }

  /** Decimal is injective. */
  lemma DecimalInjective(m: nat, n: nat)
    ensures Decimal(m) == Decimal(n) ==> m == n
  {
    DecimalRoundTrip(m);
    DecimalRoundTrip(n);
  }

  // ---------------------------------------------------------------------------
  // Splitting on a separator, and joining back
  // ---------------------------------------------------------------------------

  /** The fields of s between occurrences of sep (strings.Split). */
  function Split(s: string, sep: char): (r: seq<string>)
    ensures |r| >= 1
    decreases |s|
  {
    if s == [] then [[]]
    else
      var rest := Split(s[1..], sep);
      if s[0] == sep then [[]] + rest else [[s[0]] + rest[0]] + rest[1..]
  }

  function Join(parts: seq<string>, sep: char): string
    requires |parts| >= 1
    decreases |parts|
  {
    if |parts| == 1 then parts[0] else parts[0] + [sep] + Join(parts[1..], sep)
  }

  /** A prefix without the separator glues onto the first field of what follows. */
  lemma {:induction false} SplitPrefix(a: string, b: string, sep: char)
    requires sep !in a
    ensures Split(a + b, sep) == [a + Split(b, sep)[0]] + Split(b, sep)[1..]
    decreases |a|
  {
    var sb := Split(b, sep);
    if a == [] {
      assert a + b == b && a + sb[0] == sb[0];
      assert [sb[0]] + sb[1..] == sb;
    } else {
      SplitPrefix(a[1..], b, sep);
      assert (a + b)[0] == a[0] && (a + b)[1..] == a[1..] + b;
      assert [a[0]] + (a[1..] + sb[0]) == a + sb[0];
    }
  }

  lemma SplitOfField(a: string, sep: char)
    requires sep !in a
    ensures Split(a, sep) == [a]
  {
    SplitPrefix(a, [], sep);
    assert a + [] == a;
  }

  /** A separator right after a separator-free field starts the next field. */
  lemma SplitAtSeparator(a: string, b: string, sep: char)
    requires sep !in a
    ensures Split(a + [sep] + b, sep) == [a] + Split(b, sep)
  {
    var t := [sep] + b;
    SplitPrefix(a, t, sep);
    assert a + [sep] + b == a + t;
    assert t[0] == sep && t[1..] == b;
    assert Split(t, sep) == [[]] + Split(b, sep);
    assert a + [] == a;
  }

  /** Splitting a join of separator-free fields gives the fields back. */
  lemma {:induction false} SplitJoin(parts: seq<string>, sep: char)
    requires |parts| >= 1
    requires forall i :: 0 <= i < |parts| ==> sep !in parts[i]
    ensures Split(Join(parts, sep), sep) == parts
    decreases |parts|
  {
    if |parts| == 1 {
      SplitOfField(parts[0], sep);
    } else {
      SplitJoin(parts[1..], sep);
      SplitAtSeparator(parts[0], Join(parts[1..], sep), sep);
      assert [parts[0]] + parts[1..] == parts;
    }
  }

  /** Joining the fields of a split gives the string back, and no field holds the separator. */
  lemma {:induction false} JoinSplit(s: string, sep: char)
    ensures Join(Split(s, sep), sep) == s
    ensures forall i :: 0 <= i < |Split(s, sep)| ==> sep !in Split(s, sep)[i]
    decreases |s|
  {
    if s != [] {
      JoinSplit(s[1..], sep);
      var rest := Split(s[1..], sep);
      if s[0] != sep {
        var r := Split(s, sep);
        assert r[0] == [s[0]] + rest[0] && r[1..] == rest[1..];
        if |rest| > 1 {
          assert Join(rest, sep) == rest[0] + [sep] + Join(rest[1..], sep);
        }
        assert s == [s[0]] + s[1..];
      } else {
        assert s == [sep] + s[1..];
      }
    }
  }

  /** A character that is neither the separator nor in any part is not in the join. */
  lemma {:induction false} JoinAvoids(parts: seq<string>, sep: char, c: char)
    requires |parts| >= 1 && c != sep
    requires forall i :: 0 <= i < |parts| ==> c !in parts[i]
    ensures c !in Join(parts, sep)
    decreases |parts|
  {
    if |parts| > 1 {
      JoinAvoids(parts[1..], sep, c);
    }
  }

  // ---------------------------------------------------------------------------
  // IPv4 dotted quads (net.IP.String for a 4-byte IP; net.ParseIP + To4)
  // ---------------------------------------------------------------------------

  function DottedQuad(octets: Bytes): string
    requires |octets| == 4
  {
    Join([Decimal(octets[0]), Decimal(octets[1]), Decimal(octets[2]), Decimal(octets[3])], '.')
  }

  /** One field of a dotted quad: canonical decimal digits worth at most 255. */
  predicate IsOctetField(f: string)
  {
    IsCanonicalDecimal(f) && ValueOf(f) < 0x100
  }

  /** The four octets of a dotted-quad string, or None for anything else. */
  function ParseIPv4(s: string): (r: Option<Bytes>)
    ensures r.Some? ==> |r.value| == 4
  {
    var f := Split(s, '.');
    if |f| == 4 && IsOctetField(f[0]) && IsOctetField(f[1]) && IsOctetField(f[2]) && IsOctetField(f[3])
    then Some([ValueOf(f[0]), ValueOf(f[1]), ValueOf(f[2]), ValueOf(f[3])])
    else None
  }

  lemma DecimalHasNoDot(n: nat)
    ensures '.' !in Decimal(n) && ':' !in Decimal(n)
  {
    DecimalRoundTrip(n);
  }

  /** The fields of a dotted quad are the decimal forms of the octets. */
  lemma DottedQuadFields(octets: Bytes)
    requires |octets| == 4
    ensures Split(DottedQuad(octets), '.')
            == [Decimal(octets[0]), Decimal(octets[1]), Decimal(octets[2]), Decimal(octets[3])]
  {
    var parts := [Decimal(octets[0]), Decimal(octets[1]), Decimal(octets[2]), Decimal(octets[3])];
    forall i | 0 <= i < 4 ensures '.' !in parts[i] {
      DecimalHasNoDot(octets[i]);
    }
    SplitJoin(parts, '.');
  }

  /** Parsing a dotted quad gives its octets back. */
  lemma ParseDottedQuad(octets: Bytes)
    requires |octets| == 4
    ensures ParseIPv4(DottedQuad(octets)) == Some(octets)
  {
    DottedQuadFields(octets);
    assert octets == [octets[0], octets[1], octets[2], octets[3]];
    DecimalRoundTrip(octets[0]);
    DecimalRoundTrip(octets[1]);
    DecimalRoundTrip(octets[2]);
    DecimalRoundTrip(octets[3]);
  }

  /** A string that parses is the dotted quad of what it parses to: the text form is canonical. */
  lemma DottedQuadOfParse(s: string)
    requires ParseIPv4(s).Some?
    ensures DottedQuad(ParseIPv4(s).value) == s
  {
    var f := Split(s, '.');
    JoinSplit(s, '.');
    DecimalOfValue(f[0]);
    DecimalOfValue(f[1]);
    DecimalOfValue(f[2]);
    DecimalOfValue(f[3]);
    assert f == [f[0], f[1], f[2], f[3]];
  }

  // ---------------------------------------------------------------------------
  // "host:port" (fmt.Sprintf("%s:%d", host, port)) and its reading by net.Dial
  // ---------------------------------------------------------------------------

  function HostPort(host: string, port: nat): string
  {
    host + ":" + Decimal(port)
  }

  /** How the dialer reads a dial string without brackets: exactly one colon,
      then the decimal port (net.SplitHostPort). */
  function SplitHostPort(s: string): Option<(string, nat)>
  {
    var f := Split(s, ':');
    if |f| == 2 && |f[1]| >= 1 && AllDigits(f[1]) then Some((f[0], ValueOf(f[1]))) else None
  }

  /** A host without a colon and a port survive the trip through a dial string. */
  lemma SplitHostPortOfHostPort(host: string, port: nat)
    requires ':' !in host
    ensures SplitHostPort(HostPort(host, port)) == Some((host, port))
  {
    DecimalHasNoDot(port);
    DecimalRoundTrip(port);
    SplitOfField(Decimal(port), ':');
    SplitAtSeparator(host, Decimal(port), ':');
    assert HostPort(host, port) == host + [':'] + Decimal(port);
  }

  /** A dotted quad holds no colon, so its dial string splits back into host and port. */
  lemma DialDottedQuad(octets: Bytes, port: nat)
    requires |octets| == 4
    ensures SplitHostPort(HostPort(DottedQuad(octets), port)) == Some((DottedQuad(octets), port))
  {
    var parts := [Decimal(octets[0]), Decimal(octets[1]), Decimal(octets[2]), Decimal(octets[3])];
    forall i | 0 <= i < 4 ensures ':' !in parts[i] {
      DecimalHasNoDot(octets[i]);
    }
    JoinAvoids(parts, '.', ':');
    SplitHostPortOfHostPort(DottedQuad(octets), port);
  }

  /** A host that holds a colon (an IPv6 literal) yields a dial string the dialer rejects. */
  lemma HostWithColonIsRejected(host: string, port: nat)
    requires ':' in host
    ensures SplitHostPort(HostPort(host, port)) == None
  {
    var i :| 0 <= i < |host| && host[i] == ':';
    var a, b := host[..i], host[i + 1..] + ":" + Decimal(port);
    assert HostPort(host, port) == host[..i] + [':'] + b;
    assert b[|host[i + 1..]|] == ':';
    SplitAtColonCount(a, b);
  }

  /** Index of the first colon, or |s| when there is none. */
  function FirstColon(s: string): (k: nat)
    ensures k <= |s| && ':' !in s[..k] && (k < |s| ==> s[k] == ':')
    decreases |s|
  {
    if s == [] then 0
    else if s[0] == ':' then 0
    else
      var k := FirstColon(s[1..]);
      assert s[..k + 1] == [s[0]] + s[1..][..k];
      k + 1
  }

  /** A string with a colon before a part that holds another colon splits into at least three fields. */
  lemma SplitAtColonCount(a: string, b: string)
    requires ':' in b
    ensures |Split(a + [':'] + b, ':')| >= 3
  {
    var k := FirstColon(a);
    var a0 := a[..k];
    if k < |a| {
      assert a == a0 + [':'] + a[k + 1..];
      SplitAtSeparator(a0, a[k + 1..] + [':'] + b, ':');
      assert a + [':'] + b == a0 + [':'] + (a[k + 1..] + [':'] + b);
      SplitAtLeastTwo(a[k + 1..] + [':'] + b);
    } else {
      assert a0 == a;
      SplitAtSeparator(a, b, ':');
      SplitAtLeastTwo(b);
    }
  }

  lemma SplitAtLeastTwo(s: string)
    requires ':' in s
    ensures |Split(s, ':')| >= 2
  {
    var k := FirstColon(s);
    assert s == s[..k] + [':'] + s[k + 1..];
    SplitAtSeparator(s[..k], s[k + 1..], ':');
  }
}
