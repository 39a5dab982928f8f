/** Printing and parsing of ports and dotted addresses, as Rust's `Display` and `FromStr` do. */
module AddressTexts {
  import opened Wrappers
  import opened Addresses
  import opened Texts

  predicate IsDigit(c: char) { '0' <= c <= '9' }

  predicate AreDigits(s: string) { forall i :: 0 <= i < |s| ==> IsDigit(s[i]) }

  function Digit(n: nat): char
    requires n < 10
  {
    ('0' as int + n) as char
  }

  function Show(n: nat): string {
    if n < 10 then [Digit(n)] else Show(n / 10) + [Digit(n % 10)]
  }

  function Decimal(s: string): nat
    requires AreDigits(s)
  {
    if s == "" then 0 else 10 * Decimal(s[..|s| - 1]) + (s[|s| - 1] as int - '0' as int)
  }

  lemma {:induction false} DecimalOfShow(n: nat)
    ensures AreDigits(Show(n)) && Decimal(Show(n)) == n && Show(n) != ""
    ensures n > 0 ==> Show(n)[0] != '0'
    decreases n
  {
    if n >= 10 {
      DecimalOfShow(n / 10);
      assert Show(n)[..|Show(n)| - 1] == Show(n / 10);
    } else {
      assert Show(n)[..0] == "";
    }
  }

  lemma {:induction false} ShowLength(n: nat)
    ensures n < 10 ==> |Show(n)| == 1
    ensures n < 1000 ==> |Show(n)| <= 3
    ensures n < 10_0000 ==> |Show(n)| <= 5
    decreases n
  {
    if n >= 10 { ShowLength(n / 10); ShowLength(n / 100); }
  }

  /** `u16::from_str`: an optional plus sign and at least one digit. */
  function ParsePort(s: string): Option<Port> {
    var digits := if s != "" && s[0] == '+' then s[1..] else s;
    if digits == "" || !AreDigits(digits) then None
    else if Decimal(digits) < 0x1_0000 then Some(Decimal(digits)) else None
  }

  lemma {:induction false} PortRoundTrip(p: Port)
    ensures ParsePort(Show(p)) == Some(p) && IsPlainWord(Show(p)) && |Show(p)| <= 5
  {
    DecimalOfShow(p);
    ShowLength(p);
  }

  /** One to three digits without a leading zero, at most 255. */
  function ParseOctet(s: string): Option<Byte> {
    if 1 <= |s| <= 3 && AreDigits(s) && (|s| == 1 || s[0] != '0') && Decimal(s) < 256 then Some(Decimal(s)) else None
  }

  lemma {:induction false} OctetRoundTrip(b: Byte)
    ensures ParseOctet(Show(b)) == Some(b) && IsPlainWord(Show(b)) && '.' !in Show(b) && |Show(b)| <= 3
  {
    DecimalOfShow(b);
    ShowLength(b);
  }

  function ParseIpv4(s: string): Option<Ipv4> {
    var parts := SplitOn(s, '.');
    if |s| > 15 || |parts| != 4 then None
    else
      var (a, b, c, d) := (ParseOctet(parts[0]), ParseOctet(parts[1]), ParseOctet(parts[2]), ParseOctet(parts[3]));
      if a.Some? && b.Some? && c.Some? && d.Some? then Some(Ipv4(a.value, b.value, c.value, d.value)) else None
  }

  function Dotted(a: string, b: string, c: string, d: string): (r: string)
    ensures |r| == |a| + |b| + |c| + |d| + 3
  {
    a + ['.'] + (b + ['.'] + (c + ['.'] + d))
  }

  function ShowIpv4(ip: Ipv4): string { Dotted(Show(ip.a), Show(ip.b), Show(ip.c), Show(ip.d)) }

  lemma {:induction false} SplitPair(c: string, d: string)
    requires '.' !in c && '.' !in d
    ensures SplitOn(c + ['.'] + d, '.') == [c, d]
  {
    SplitFirst(d, '.', "");
    SplitFirst(c, '.', d);
  }

  lemma SplitDotted(a: string, b: string, c: string, d: string)
    requires '.' !in a && '.' !in b && '.' !in c && '.' !in d
    ensures SplitOn(Dotted(a, b, c, d), '.') == [a, b, c, d]
  {
    var cd := c + ['.'] + d;
    SplitPair(c, d);
    SplitFirst(b, '.', cd);
    SplitFirst(a, '.', b + ['.'] + cd);
  }

  lemma JoinedIsPlain(a: string, b: string)
    requires IsPlainWord(a) && IsPlainWord(b)
    ensures IsPlainWord(a + ['.'] + b)
  {
  }

  lemma Ipv4IsPlain(ip: Ipv4)
    ensures IsPlainWord(ShowIpv4(ip)) && |ShowIpv4(ip)| <= 15
  {
    OctetRoundTrip(ip.a);
    OctetRoundTrip(ip.b);
    OctetRoundTrip(ip.c);
    OctetRoundTrip(ip.d);
    JoinedIsPlain(Show(ip.c), Show(ip.d));
    JoinedIsPlain(Show(ip.b), Show(ip.c) + ['.'] + Show(ip.d));
    JoinedIsPlain(Show(ip.a), Show(ip.b) + ['.'] + (Show(ip.c) + ['.'] + Show(ip.d)));
  }

  lemma Ipv4RoundTrip(ip: Ipv4)
    ensures ParseIpv4(ShowIpv4(ip)) == Some(ip)
  {
    Ipv4IsPlain(ip);
    OctetRoundTrip(ip.a);
    OctetRoundTrip(ip.b);
    OctetRoundTrip(ip.c);
    OctetRoundTrip(ip.d);
    SplitDotted(Show(ip.a), Show(ip.b), Show(ip.c), Show(ip.d));
  }
}
