/** The strict parser that turns an untrusted profile into a locally regenerated one. */
module OpenVpn {
  import opened Wrappers
  import opened Texts
  import opened Addresses
  import opened AddressTexts

  const MAX_PROFILE_BYTES := 256 * 1024
  const MAX_LINE_BYTES := 4096
  const MAX_BLOCK_BYTES := 96 * 1024

  datatype Error =
    | TooLarge
    | LineTooLong
    | UnsupportedDirective(name: string)
    | DangerousDirective(name: string)
    | ExternalFile(name: string)
    | UnsupportedProtocol
    | InvalidDevice
    | InvalidRemote
    | RemoteMismatch
    | MissingInlineBlock(name: string)
    | InvalidInlineBlock(name: string)
    | InvalidValue(name: string)

  /** What the parser has collected. */
  datatype Profile = Profile(
    blocks: map<string, string>,
    options: set<string>,
    remote: Option<Endpoint>,
    tcp: bool,
    tun: bool)

  const START := Profile(map[], {}, None, false, false)

  datatype Sanitized = Sanitized(rendered: string, remote: Endpoint)

  // ----- directives -----

  const DANGEROUS: set<string> := {
    "up", "down", "route-up", "route-pre-down", "ipchange", "client-connect", "client-disconnect",
    "learn-address", "auth-user-pass-verify", "tls-verify", "plugin", "script-security", "management",
    "management-client", "management-external-key", "management-external-cert",
    "management-query-passwords", "management-hold", "daemon", "log", "log-append", "status",
    "writepid", "chroot", "cd", "user", "group", "route", "route-ipv6", "redirect-gateway",
    "ifconfig", "ifconfig-ipv6", "socks-proxy", "http-proxy", "auth-user-pass"}
  const TCP_PROTOCOLS: set<string> := {"tcp", "tcp-client", "tcp4", "tcp4-client"}
  const FILE_DIRECTIVES: set<string> := {"ca", "cert", "key", "tls-auth", "tls-crypt", "pkcs12"}
  const CRYPTO_DIRECTIVES: set<string> :=
    {"cipher", "auth", "data-ciphers", "data-ciphers-fallback", "tls-version-min", "tls-cipher"}
  const FLAGS: set<string> :=
    {"client", "tls-client", "nobind", "persist-key", "persist-tun", "pull", "auth-nocache"}
  const IGNORED_SCALARS: set<string> :=
    {"resolv-retry", "connect-retry", "connect-retry-max", "connect-timeout", "server-poll-timeout", "verb", "mute"}
  const BLOCK_NAMES: seq<string> := ["ca", "cert", "key", "tls-auth", "tls-crypt"]
  const SERVER_CERTIFICATE := "remote-cert-tls server"

  predicate IsAlphanumeric(c: char) { '0' <= c <= '9' || 'A' <= c <= 'Z' || 'a' <= c <= 'z' }

  predicate IsSafeCryptoValue(v: string) {
    && v != "" && Bytes(v) <= 256
    && forall i :: 0 <= i < |v| ==>
                     IsAlphanumeric(v[i]) || v[i] == '-' || v[i] == '_' || v[i] == ':' || v[i] == ',' || v[i] == '.'
  }

  predicate IsIgnoredScalar(words: seq<string>) {
    |words| == 2 && Bytes(words[1]) <= 16
    && forall i :: 0 <= i < |words[1]| ==> IsAlphanumeric(words[1][i]) || words[1][i] == '-'
  }

  function Check(p: Profile, ok: bool, e: Error): Result<Profile, Error> { if ok then Success(p) else Failure(e) }

  function RemoteDirective(p: Profile, words: seq<string>, ip: Ipv4): Result<Profile, Error> {
    if p.remote.Some? || !(3 <= |words| <= 4) then Failure(InvalidRemote)
    else
      var host := ParseIpv4(words[1]);
      if host.None? then Failure(InvalidRemote)
      else if host.value != ip then Failure(RemoteMismatch)
      else
        var port := ParsePort(words[2]);
        if port.None? || port.value == 0 then Failure(InvalidRemote)
        else if |words| == 4 && Lower(words[3]) !in TCP_PROTOCOLS then Failure(UnsupportedProtocol)
        else Success(p.(remote := Some(Endpoint(host.value, port.value))))
  }

  function OneValueDirective(p: Profile, d: string, value: string): Result<Profile, Error> {
    if d == "proto" then Check(p.(tcp := true), Lower(value) in TCP_PROTOCOLS, UnsupportedProtocol)
    else if d == "dev" then Check(p.(tun := true), value == "tun", InvalidDevice)
    else if d == "dev-type" then Check(p, value == "tun", InvalidDevice)
    else if d == "key-direction" then
      Check(p.(options := p.options + {d + " " + value}), value == "0" || value == "1", InvalidValue(d))
    else if d == "remote-cert-tls" then
      Check(p.(options := p.options + {SERVER_CERTIFICATE}), value == "server", InvalidValue(d))
    else
      Check(p.(options := p.options + {d + " " + value}), IsSafeCryptoValue(value), InvalidValue(d))
  }

  datatype Kind = Dangerous | Remote | FileReference | OneValue | Flag | IgnoredScalar | Other

  function KindOf(d: string): Kind {
    if d in DANGEROUS then Dangerous
    else if d == "remote" then Remote
    else if d in FILE_DIRECTIVES then FileReference
    else if d in {"proto", "dev", "dev-type", "key-direction", "remote-cert-tls"} || d in CRYPTO_DIRECTIVES then OneValue
    else if d in FLAGS then Flag
    else if d in IGNORED_SCALARS then IgnoredScalar
    else Other
  }

  function Directive(p: Profile, words: seq<string>, ip: Ipv4): Result<Profile, Error>
    requires words != []
  {
    var d := Lower(words[0]);
    match KindOf(d)
    case Dangerous => Failure(DangerousDirective(d))
    case Remote => RemoteDirective(p, words, ip)
    case FileReference => Failure(ExternalFile(d))
    case OneValue => if |words| == 2 then OneValueDirective(p, d, words[1]) else Failure(InvalidValue(d))
    case Flag => Check(p, |words| == 1, InvalidValue(d))
    case IgnoredScalar => Check(p, IsIgnoredScalar(words), InvalidValue(d))
    case Other => Check(p, words == ["setenv", "opt", "block-outside-dns"], UnsupportedDirective(d))
  }

  // ----- inline blocks -----

  function OpeningBlock(line: string): Option<string> {
    if |line| >= 2 && line[0] == '<' && line[|line| - 1] == '>' then
      var name := line[1..|line| - 1];
      if name == "" || name[0] == '/' then None else Some(name)
    else None
  }

  function Opening(name: string): string { "<" + name + ">" }
  function Closing(name: string): string { "</" + name + ">" }

  const NUL := 0 as char

  predicate IsBlockLine(name: string, line: string) {
    Trim(line) != Closing(name) && OpeningBlock(Trim(line)).None? && NUL !in line
  }

  /** Reads block lines after `body` until the closing line; also gives the lines after that. */
  function ReadBlock(ls: seq<string>, name: string, body: string): (r: Option<(string, seq<string>)>)
    ensures r.Some? ==> |r.value.1| < |ls| && r.value.1 == ls[|ls| - |r.value.1|..]
    decreases |ls|
  {
    if ls == [] then None
    else
      var line := StripReturns(ls[0]);
      if Trim(line) == Closing(name) then Some((body, ls[1..]))
      else if !IsBlockLine(name, line) || Bytes(body) + Bytes(line) + 1 > MAX_BLOCK_BYTES then None
      else ReadBlock(ls[1..], name, body + line + "\n")
  }

  // ----- the whole text -----

  predicate IsSkipped(line: string) { line == "" || line[0] == '#' || line[0] == ';' }

  function ParseLines(ls: seq<string>, p: Profile, ip: Ipv4): Result<Profile, Error>
    decreases |ls|
  {
    if ls == [] then Success(p)
    else
      var line := StripReturns(Trim(ls[0]));
      if IsSkipped(line) then ParseLines(ls[1..], p, ip)
      else if OpeningBlock(line).Some? then
        var name := OpeningBlock(line).value;
        if name !in BLOCK_NAMES then Failure(UnsupportedDirective(Opening(name)))
        else
          var block := ReadBlock(ls[1..], name, "");
          if block.None? || Trim(block.value.0) == "" || name in p.blocks then Failure(InvalidInlineBlock(name))
          else ParseLines(block.value.1, p.(blocks := p.blocks[name := block.value.0]), ip)
      else
        var words := Words(line);
        if words == [] then ParseLines(ls[1..], p, ip)
        else
          var q := Directive(p, words, ip);
          if q.Failure? then q else ParseLines(ls[1..], q.value, ip)
  }

  predicate HasLongLine(ls: seq<string>) { exists i :: 0 <= i < |ls| && Bytes(ls[i]) > MAX_LINE_BYTES }

  function Parse(text: string, ip: Ipv4): Result<Profile, Error> {
    if Bytes(text) > MAX_PROFILE_BYTES then Failure(TooLarge)
    else if HasLongLine(Lines(text)) then Failure(LineTooLong)
    else ParseLines(Lines(text), START, ip)
  }

  /** The first thing a parsed profile lacks. */
  function Missing(p: Profile): Option<Error> {
    if !p.tcp then Some(UnsupportedProtocol)
    else if !p.tun then Some(InvalidDevice)
    else if p.remote.None? then Some(InvalidRemote)
    else if "ca" !in p.blocks then Some(MissingInlineBlock("ca"))
    else if "cert" !in p.blocks then Some(MissingInlineBlock("cert"))
    else if "key" !in p.blocks then Some(MissingInlineBlock("key"))
    else None
  }

  function RemoteLine(remote: Endpoint): string {
    "remote " + ShowIpv4(remote.ip) + " " + Show(remote.port) + " tcp-client"
  }

  function EndpointLines(remote: Endpoint): seq<string> { ["dev tun"] + ["proto tcp-client"] + [RemoteLine(remote)] }

  function FixedLines(): seq<string> {
    ["nobind"] + ["persist-key"] + ["persist-tun"] + ["auth-nocache"] + ["verb 3"]
  }

  function HeaderLines(remote: Endpoint): seq<string> { ["client"] + EndpointLines(remote) + FixedLines() }

  function RenderedBlock(name: string, body: string): string { Opening(name) + "\n" + body + Closing(name) + "\n" }

  function RenderedIfStored(blocks: map<string, string>, name: string): string {
    if name in blocks then RenderedBlock(name, blocks[name]) else ""
  }

  /** The stored blocks among `names`, in that order. */
  function RenderedBlocks(blocks: map<string, string>, names: seq<string>): string {
    if names == [] then "" else RenderedIfStored(blocks, names[0]) + RenderedBlocks(blocks, names[1..])
  }

  /** The options in order, after the forced one if the profile did not state it. */
  ghost function RenderedOptions(options: set<string>): string {
    (if SERVER_CERTIFICATE in options then "" else SERVER_CERTIFICATE + "\n") + Unlines(InOrder(options))
  }

  ghost function Rendered(p: Profile): string
    requires p.remote.Some?
  {
    Unlines(HeaderLines(p.remote.value)) + RenderedOptions(p.options) + RenderedBlocks(p.blocks, BLOCK_NAMES)
  }

  ghost function Sanitize(text: string, ip: Ipv4): Result<Sanitized, Error> {
    var p := Parse(text, ip);
    if p.Failure? then Failure(p.error)
    else if Missing(p.value).Some? then Failure(Missing(p.value).value)
    else Success(Sanitized(Rendered(p.value), p.value.remote.value))
  }

  // ----- the parser as it runs -----

  method ReadInlineBlock(lines: seq<string>, name: string) returns (r: Option<(string, seq<string>)>)
    ensures r == ReadBlock(lines, name, "")
  {
    var rest, body := lines, "";
    while rest != []
      invariant ReadBlock(rest, name, body) == ReadBlock(lines, name, "")
      decreases |rest|
    {
      var line := StripReturns(rest[0]);
      rest := rest[1..];
      if Trim(line) == Closing(name) { return Some((body, rest)); }
      if OpeningBlock(Trim(line)).Some? || NUL in line { return None; }
      if Bytes(body) + Bytes(line) + 1 > MAX_BLOCK_BYTES { return None; }
      body := body + line + "\n";
    }
    r := None;
  }

  method ParseText(text: string, ip: Ipv4) returns (r: Result<Profile, Error>)
    ensures r == Parse(text, ip)
  {
    if Bytes(text) > MAX_PROFILE_BYTES { return Failure(TooLarge); }
    var lines := Lines(text);
    if HasLongLine(lines) { return Failure(LineTooLong); }
    var p, rest := START, lines;
    while rest != []
      invariant ParseLines(rest, p, ip) == ParseLines(lines, START, ip)
      decreases |rest|
    {
      var line := StripReturns(Trim(rest[0]));
      rest := rest[1..];
      if IsSkipped(line) { continue; }
      var opening := OpeningBlock(line);
      if opening.Some? {
        if opening.value !in BLOCK_NAMES { return Failure(UnsupportedDirective(Opening(opening.value))); }
        var block := ReadInlineBlock(rest, opening.value);
        if block.None? || Trim(block.value.0) == "" || opening.value in p.blocks {
          return Failure(InvalidInlineBlock(opening.value));
        }
        p, rest := p.(blocks := p.blocks[opening.value := block.value.0]), block.value.1;
        continue;
      }
      var words := Words(line);
      if words == [] { continue; }
      var q := Directive(p, words, ip);
      if q.Failure? { return q; }
      p := q.value;
    }
    r := Success(p);
  }

  method RenderOptions(start: string, options: set<string>) returns (rendered: string)
    ensures rendered == start + Unlines(InOrder(options))
  {
    rendered := start;
    var rest := options;
    while rest != {}
      invariant rendered + Unlines(InOrder(rest)) == start + Unlines(InOrder(options))
      decreases rest
    {
      FirstExists(rest);
      var option :| option in rest && IsFirst(option, rest);
      InOrderCons(rest, option);
      UnlinesCons(option, InOrder(rest - {option}));
      rendered := rendered + option + "\n";
      rest := rest - {option};
    }
  }

  method RenderBlock(start: string, blocks: map<string, string>, name: string) returns (rendered: string)
    ensures rendered == start + RenderedIfStored(blocks, name)
  {
    rendered := start;
    if name in blocks {
      rendered := rendered + "<";
      rendered := rendered + name;
      rendered := rendered + ">\n";
      rendered := rendered + blocks[name];
      rendered := rendered + "</";
      rendered := rendered + name;
      rendered := rendered + ">\n";
    }
  }

  lemma {:induction false} BlocksStep(blocks: map<string, string>, names: seq<string>, k: nat, done: string)
    requires k < |names|
    ensures done + RenderedBlocks(blocks, names[k..])
            == done + RenderedIfStored(blocks, names[k]) + RenderedBlocks(blocks, names[k + 1..])
  {
    assert names[k..][1..] == names[k + 1..];
  }

  method RenderBlocks(start: string, blocks: map<string, string>, names: seq<string>) returns (rendered: string)
    ensures rendered == start + RenderedBlocks(blocks, names)
  {
    rendered := start;
    for k := 0 to |names|
      invariant rendered + RenderedBlocks(blocks, names[k..]) == start + RenderedBlocks(blocks, names)
    {
      BlocksStep(blocks, names, k, rendered);
      rendered := RenderBlock(rendered, blocks, names[k]);
    }
  }

  method Render(p: Profile) returns (rendered: string)
    requires p.remote.Some?
    ensures rendered == Rendered(p)
  {
    rendered := Unlines(HeaderLines(p.remote.value));
    if SERVER_CERTIFICATE !in p.options { rendered := rendered + (SERVER_CERTIFICATE + "\n"); }
    rendered := RenderOptions(rendered, p.options);
    rendered := RenderBlocks(rendered, p.blocks, BLOCK_NAMES);
  }

  method SanitizeOpenVpn(text: string, ip: Ipv4) returns (r: Result<Sanitized, Error>)
    ensures r == Sanitize(text, ip)
  {
    var parsed := ParseText(text, ip);
    if parsed.Failure? { return Failure(parsed.error); }
    var p := parsed.value;
    if Missing(p).Some? { return Failure(Missing(p).value); }
    var rendered := Render(p);
    r := Success(Sanitized(rendered, p.remote.value));
  }
}
