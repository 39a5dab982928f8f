/** The columns of a row of the node list, except the address and what the profile column holds. */
module NodeColumns {
  import opened Wrappers
  import opened Texts
  import opened Addresses
  import opened AddressTexts
  import opened OpenVpn

  /** The decoded profile column: not Base64 or over the limit, not UTF-8, or text. */
  datatype Column = Undecodable | NotUtf8(raw: seq<nat>) | Decoded(text: string)

  /** One row of fifteen columns. */
  datatype Columns = Columns(
    hostname: string,
    ip: string,
    score: string,
    ping: string,
    speed: string,
    countryLong: string,
    countryShort: string,
    sessions: string,
    uptime: string,
    totalUsers: string,
    totalTraffic: string,
    logType: string,
    operator: string,
    message: string,
    profile: Column)

  datatype Labels = Labels(
    hostname: string,
    countryLong: string,
    countryShort: string,
    logType: string,
    operator: string,
    message: string)

  datatype Figures = Figures(
    score: nat,
    pingMs: Option<nat>,
    speedBps: nat,
    sessions: nat,
    uptimeMs: nat,
    totalUsers: nat,
    totalTrafficBytes: nat)

  const U32_LIMIT := 0x1_0000_0000
  const U64_LIMIT := 0x1_0000_0000_0000_0000

  // ----- the columns -----

  function BoundedText(value: string, maximum: nat): Option<string> {
    var v := Trim(value);
    if Bytes(v) <= maximum && NUL !in v then Some(v) else None
  }

  /** `FromStr` of an unsigned integer: an optional plus sign and at least one digit. */
  function ParseUnsigned(s: string, limit: nat): Option<nat> {
    var digits := if s != "" && s[0] == '+' then s[1..] else s;
    if digits == "" || !AreDigits(digits) || Decimal(digits) >= limit then None else Some(Decimal(digits))
  }

  function OptionalNumber(value: string): Option<Option<nat>> {
    var v := Trim(value);
    if v == "" || v == "-" then Some(None)
    else
      var n := ParseUnsigned(v, U32_LIMIT);
      if n.None? then None else Some(n)
  }

  /** An unsigned column after trimming. */
  function Number(value: string, limit: nat): Option<nat> { ParseUnsigned(Trim(value), limit) }

  function ParseLabels(r: Columns): Option<Labels> {
    var hostname, long, short := BoundedText(r.hostname, 255), BoundedText(r.countryLong, 128), BoundedText(r.countryShort, 8);
    var logType, operator, message := BoundedText(r.logType, 64), BoundedText(r.operator, 512), BoundedText(r.message, 4096);
    if hostname.Some? && long.Some? && short.Some? && logType.Some? && operator.Some? && message.Some?
    then Some(Labels(hostname.value, long.value, short.value, logType.value, operator.value, message.value))
    else None
  }

  function ParseFigures(r: Columns): Option<Figures> {
    var score, ping, speed := Number(r.score, U64_LIMIT), OptionalNumber(r.ping), Number(r.speed, U64_LIMIT);
    var sessions, uptime := Number(r.sessions, U32_LIMIT), Number(r.uptime, U64_LIMIT);
    var users, traffic := Number(r.totalUsers, U64_LIMIT), Number(r.totalTraffic, U64_LIMIT);
    if score.Some? && ping.Some? && speed.Some? && sessions.Some? && uptime.Some? && users.Some? && traffic.Some?
    then Some(Figures(score.value, ping.value, speed.value, sessions.value, uptime.value, users.value, traffic.value))
    else None
  }

  /** A row as its columns read; `None` where a text or a number is out of bounds. */
  datatype Record = Record(ip: Option<Ipv4>, labels: Option<Labels>, figures: Option<Figures>, profile: Column)

  function Read(r: Columns): Record { Record(ParseIpv4(r.ip), ParseLabels(r), ParseFigures(r), r.profile) }

  /** `v` can stand in a text column. */
  predicate FitsText(v: string, maximum: nat) { Trim(v) == v && Bytes(v) <= maximum && NUL !in v }

  predicate LabelsFit(l: Labels) {
    && FitsText(l.hostname, 255) && FitsText(l.countryLong, 128) && FitsText(l.countryShort, 8)
    && FitsText(l.logType, 64) && FitsText(l.operator, 512) && FitsText(l.message, 4096)
  }

  predicate FiguresFit(f: Figures) {
    && f.score < U64_LIMIT && f.speedBps < U64_LIMIT && f.uptimeMs < U64_LIMIT && f.totalUsers < U64_LIMIT
    && f.totalTrafficBytes < U64_LIMIT && f.sessions < U32_LIMIT && (f.pingMs.Some? ==> f.pingMs.value < U32_LIMIT)
  }

  function ShowPing(ping: Option<nat>): string { if ping.None? then "-" else Show(ping.value) }

  /** The row that states exactly these columns. */
  function Stating(l: Labels, f: Figures, ip: string, profile: Column): Columns {
    Columns(l.hostname, ip, Show(f.score), ShowPing(f.pingMs), Show(f.speedBps), l.countryLong, l.countryShort,
           Show(f.sessions), Show(f.uptimeMs), Show(f.totalUsers), Show(f.totalTrafficBytes), l.logType, l.operator,
           l.message, profile)
  }

  // ----- what the columns admit -----

  lemma {:induction false} TrimStartKeeps(s: string)
    requires s == "" || !IsWhite(s[0])
    ensures TrimStart(s) == s
  {
  }

  lemma {:induction false} TrimEndKeepsFirst(s: string)
    requires s == "" || !IsWhite(s[0])
    ensures TrimEnd(s) == "" || !IsWhite(TrimEnd(s)[0])
  {
  }

  lemma TrimTwice(s: string)
    ensures Trim(Trim(s)) == Trim(s)
  {
    TrimEndKeepsFirst(TrimStart(s));
    TrimStartKeeps(Trim(s));
  }

  lemma BoundedTextFits(value: string, maximum: nat)
    requires BoundedText(value, maximum).Some?
    ensures FitsText(BoundedText(value, maximum).value, maximum)
  {
    TrimTwice(value);
  }

  lemma NumberFits(value: string, limit: nat)
    requires Number(value, limit).Some?
    ensures Number(value, limit).value < limit
  {
  }

  lemma LabelsAreRead(l: Labels, f: Figures, ip: string, profile: Column)
    requires LabelsFit(l)
    ensures ParseLabels(Stating(l, f, ip, profile)) == Some(l)
  {
  }

  lemma {:induction false} ShownNumber(n: nat, limit: nat)
    requires n < limit
    ensures Number(Show(n), limit) == Some(n) && Trim(Show(n)) == Show(n) && Show(n) != "" && Show(n) != "-"
  {
    DecimalOfShow(n);
    TrimStartKeeps(Show(n));
  }

  lemma StatedPingIsRead(ping: Option<nat>)
    requires ping.Some? ==> ping.value < U32_LIMIT
    ensures OptionalNumber(ShowPing(ping)) == Some(ping)
  {
    if ping.Some? { ShownNumber(ping.value, U32_LIMIT); } else { TrimStartKeeps("-"); }
  }

  lemma FiguresAreRead(l: Labels, f: Figures, ip: string, profile: Column)
    requires FiguresFit(f)
    ensures ParseFigures(Stating(l, f, ip, profile)) == Some(f)
  {
    ShownNumber(f.score, U64_LIMIT);
    ShownNumber(f.speedBps, U64_LIMIT);
    ShownNumber(f.uptimeMs, U64_LIMIT);
    ShownNumber(f.totalUsers, U64_LIMIT);
    ShownNumber(f.totalTrafficBytes, U64_LIMIT);
    ShownNumber(f.sessions, U32_LIMIT);
    StatedPingIsRead(f.pingMs);
  }

  lemma LabelsAreFit(r: Columns)
    requires ParseLabels(r).Some?
    ensures LabelsFit(ParseLabels(r).value)
  {
    BoundedTextFits(r.hostname, 255);
    BoundedTextFits(r.countryLong, 128);
    BoundedTextFits(r.countryShort, 8);
    BoundedTextFits(r.logType, 64);
    BoundedTextFits(r.operator, 512);
    BoundedTextFits(r.message, 4096);
  }

  lemma FiguresAreFit(r: Columns)
    requires ParseFigures(r).Some?
    ensures FiguresFit(ParseFigures(r).value)
  {
    NumberFits(r.score, U64_LIMIT);
    NumberFits(r.speed, U64_LIMIT);
    NumberFits(r.sessions, U32_LIMIT);
    NumberFits(r.uptime, U64_LIMIT);
    NumberFits(r.totalUsers, U64_LIMIT);
    NumberFits(r.totalTraffic, U64_LIMIT);
  }

  /** Columns that fit are exactly those that some row is read as. */
  lemma ColumnsAreExact(ip: Ipv4, l: Labels, f: Figures, profile: Column)
    ensures LabelsFit(l) && FiguresFit(f) <==> exists r :: Read(r) == Record(Some(ip), Some(l), Some(f), profile)
  {
    if r :| Read(r) == Record(Some(ip), Some(l), Some(f), profile) {
      LabelsAreFit(r);
      FiguresAreFit(r);
    }
    if LabelsFit(l) && FiguresFit(f) {
      Ipv4RoundTrip(ip);
      LabelsAreRead(l, f, ShowIpv4(ip), profile);
      FiguresAreRead(l, f, ShowIpv4(ip), profile);
      assert Read(Stating(l, f, ShowIpv4(ip), profile)) == Record(Some(ip), Some(l), Some(f), profile);
    }
  }
}
