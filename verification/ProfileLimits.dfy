/** The size condition of re-sanitizing is real: printing can outgrow the limit. */
module ProfileLimits {
  import opened Wrappers
  import opened Texts
  import opened Addresses
  import opened AddressTexts
  import opened OpenVpn
  import opened ProfileReading
  import opened ProfileTheorems

  function Repeated(l: string, n: nat): seq<string> {
    if n == 0 then [] else [l] + Repeated(l, n - 1)
  }

  lemma {:induction false} RepeatedSize(l: string, n: nat)
    ensures Bytes(Unlines(Repeated(l, n))) == n * (Bytes(l) + 1)
    decreases n
  {
    if n > 0 {
      RepeatedSize(l, n - 1);
      UnlinesCons(l, Repeated(l, n - 1));
      assert n * (Bytes(l) + 1) == (Bytes(l) + 1) + (n - 1) * (Bytes(l) + 1);
    }
  }

  lemma {:induction false} RepeatedMembers(l: string, n: nat)
    ensures forall x :: x in Repeated(l, n) ==> x == l
    decreases n
  {
    if n > 0 { RepeatedMembers(l, n - 1); }
  }

  lemma {:induction false} TrimEndKeepsVisible(s: string)
    requires s != "" && !IsWhite(s[0])
    ensures TrimEnd(s) != ""
    decreases |s|
  {
    if IsWhite(s[|s| - 1]) { TrimEndKeepsVisible(s[..|s| - 1]); }
  }

  const FILLER := "x"

  lemma FillerIsBlockLine(name: string)
    requires name in BLOCK_NAMES
    ensures IsBlockLine(name, FILLER) && IsPrintable(FILLER) && Bytes(FILLER) == 1
  {
    AsciiIsPrintable(FILLER);
  }

  lemma {:induction false} FillerBody(name: string, n: nat)
    requires name in BLOCK_NAMES && 0 < n <= 49_152
    ensures var ls := Repeated(FILLER, n);
            && AreBlockLines(name, ls) && Bytes(Unlines(ls)) == 2 * n && Trim(Unlines(ls)) != ""
  {
    var ls := Repeated(FILLER, n);
    FillerIsBlockLine(name);
    RepeatedMembers(FILLER, n);
    forall i | 0 <= i < |ls| ensures ls[i] == FILLER { assert ls[i] in ls; }
    RepeatedSize(FILLER, n);
    assert ls[0] == FILLER && Unlines(ls)[0] == 'x';
    TrimEndKeepsVisible(Unlines(ls));
  }

  lemma {:induction false} AppendSize(a: seq<string>, l: string)
    requires IsAscii(l)
    ensures Bytes(Unlines(a + [l])) == Bytes(Unlines(a)) + |l| + 1
  {
    UnlinesSnoc(a, l);
    AsciiBytes(l);
  }

  lemma {:induction false} JoinSize(a: seq<string>, b: seq<string>)
    ensures Bytes(Unlines(a + b)) == Bytes(Unlines(a)) + Bytes(Unlines(b))
  {
    UnlinesAppend(a, b);
    BytesAppend(Unlines(a), Unlines(b));
  }

  lemma LineSize(l: string)
    requires IsAscii(l)
    ensures Bytes(Unlines([l])) == |l| + 1
  {
    assert [] + [l] == [l];
    AppendSize([], l);
  }

  /** Characters of an endpoint as printed. */
  function EndpointRoom(remote: Endpoint): nat { |ShowIpv4(remote.ip)| + |Show(remote.port)| }

  lemma RemoteSize(remote: Endpoint)
    ensures IsAscii(RemoteLine(remote)) && |RemoteLine(remote)| == EndpointRoom(remote) + 19 && EndpointRoom(remote) <= 20
  {
    RemoteIsSpaced(remote);
    RemoteWordsArePlain(remote);
    SpacedIsTrimmed(RemoteWords(remote));
    Ipv4IsPlain(remote.ip);
    PortRoundTrip(remote.port);
  }

  lemma EndpointSize(remote: Endpoint)
    ensures Bytes(Unlines(EndpointLines(remote))) == EndpointRoom(remote) + 45 && EndpointRoom(remote) <= 20
  {
    RemoteSize(remote);
    LineSize("dev tun");
    AppendSize(["dev tun"], "proto tcp-client");
    AppendSize(["dev tun"] + ["proto tcp-client"], RemoteLine(remote));
  }

  lemma FixedSize()
    ensures Bytes(Unlines(FixedLines())) == 51
  {
    LineSize("nobind");
    AppendSize(["nobind"], "persist-key");
    AppendSize(["nobind"] + ["persist-key"], "persist-tun");
    AppendSize(["nobind"] + ["persist-key"] + ["persist-tun"], "auth-nocache");
    AppendSize(["nobind"] + ["persist-key"] + ["persist-tun"] + ["auth-nocache"], "verb 3");
  }

  lemma HeaderSize(remote: Endpoint)
    ensures Bytes(Unlines(HeaderLines(remote))) == Bytes(Unlines(EndpointLines(remote))) + 58
  {
    LineSize("client");
    FixedSize();
    JoinSize(["client"], EndpointLines(remote));
    JoinSize(["client"] + EndpointLines(remote), FixedLines());
  }

  lemma ForcedSize()
    ensures Bytes(Unlines(ForcedLines({}) + InOrder({}))) == 23
  {
    LineSize(SERVER_CERTIFICATE);
    assert ForcedLines({}) + InOrder({}) == [SERVER_CERTIFICATE];
  }

  // ----- a profile of nearly 256 KiB -----

  function Body(n: nat): string { Unlines(Repeated(FILLER, n)) }

  function LargeBlocks(a: nat, b: nat, c: nat): map<string, string> {
    map["ca" := Body(a), "cert" := Body(b), "key" := Body(c)]
  }

  function Large(remote: Endpoint, blocks: map<string, string>): Profile { Profile(blocks, {}, Some(remote), true, true) }

  lemma BodyIsBody(name: string, n: nat)
    requires name in BLOCK_NAMES && 0 < n <= 49_152
    ensures IsBody(name, Body(n)) && Bytes(Body(n)) == 2 * n
  {
    FillerBody(name, n);
    LinesOfUnlines(Repeated(FILLER, n));
  }

  /** Three filler bodies within the block limit that leave less than the fixed lines' room. */
  predicate AreLarge(a: nat, b: nat, c: nat) {
    0 < a <= 49_152 && 0 < b <= 49_152 && 0 < c <= 49_152 && a + b + c == 131_005
  }

  lemma LargeBlocksAreBodies(a: nat, b: nat, c: nat)
    requires 0 < a <= 49_152 && 0 < b <= 49_152 && 0 < c <= 49_152
    ensures forall name :: name in LargeBlocks(a, b, c) ==> name in BLOCK_NAMES && IsBody(name, LargeBlocks(a, b, c)[name])
  {
    var blocks := LargeBlocks(a, b, c);
    forall name | name in blocks ensures name in BLOCK_NAMES && IsBody(name, blocks[name]) {
      var n := if name == "ca" then a else if name == "cert" then b else c;
      assert name == BLOCK_NAMES[0] || name == BLOCK_NAMES[1] || name == BLOCK_NAMES[2];
      assert blocks[name] == Body(n);
      BodyIsBody(name, n);
    }
  }

  lemma StoredSize(blocks: map<string, string>, name: string)
    requires name in BLOCK_NAMES && name in blocks && IsBody(name, blocks[name])
    ensures Bytes(Unlines(LinesIfStored(blocks, name))) == Bytes(blocks[name]) + 2 * |name| + 7
  {
    var ls := Lines(blocks[name]);
    NameIsClean(name);
    LineSize(Opening(name));
    JoinSize([Opening(name)], ls);
    AppendSize([Opening(name)] + ls, Closing(name));
  }

  lemma {:induction false} NextName(blocks: map<string, string>, name: string, names: seq<string>)
    ensures AllBlockLines(blocks, [name] + names) == LinesIfStored(blocks, name) + AllBlockLines(blocks, names)
  {
    assert ([name] + names)[1..] == names;
  }

  lemma {:induction false} RequiredBlocksOnly(blocks: map<string, string>)
    requires "tls-auth" !in blocks && "tls-crypt" !in blocks
    ensures AllBlockLines(blocks, BLOCK_NAMES)
            == LinesIfStored(blocks, "ca") + (LinesIfStored(blocks, "cert") + LinesIfStored(blocks, "key"))
  {
    NextName(blocks, "tls-crypt", []);
    NextName(blocks, "tls-auth", ["tls-crypt"]);
    NextName(blocks, "key", ["tls-auth", "tls-crypt"]);
    NextName(blocks, "cert", ["key", "tls-auth", "tls-crypt"]);
    NextName(blocks, "ca", ["cert", "key", "tls-auth", "tls-crypt"]);
  }

  lemma {:induction false} RequiredBlocksSize(blocks: map<string, string>)
    requires "ca" in blocks && IsBody("ca", blocks["ca"]) && "cert" in blocks && IsBody("cert", blocks["cert"])
    requires "key" in blocks && IsBody("key", blocks["key"]) && "tls-auth" !in blocks && "tls-crypt" !in blocks
    ensures Bytes(Unlines(AllBlockLines(blocks, BLOCK_NAMES)))
            == Bytes(blocks["ca"]) + Bytes(blocks["cert"]) + Bytes(blocks["key"]) + 39
  {
    var ca, cert, key := LinesIfStored(blocks, "ca"), LinesIfStored(blocks, "cert"), LinesIfStored(blocks, "key");
    StoredSize(blocks, "ca");
    StoredSize(blocks, "cert");
    StoredSize(blocks, "key");
    JoinSize(cert, key);
    JoinSize(ca, cert + key);
    RequiredBlocksOnly(blocks);
  }

  /** `blocks` holds these three bodies and no optional one. */
  predicate HoldsThree(blocks: map<string, string>, ca: string, cert: string, key: string) {
    && "ca" in blocks && blocks["ca"] == ca && "cert" in blocks && blocks["cert"] == cert
    && "key" in blocks && blocks["key"] == key && "tls-auth" !in blocks && "tls-crypt" !in blocks
  }

  lemma LargeBlocksAre(a: nat, b: nat, c: nat)
    ensures HoldsThree(LargeBlocks(a, b, c), Body(a), Body(b), Body(c))
  {
    assert |"ca"| == 2 && |"cert"| == 4 && |"key"| == 3 && |"tls-auth"| == 8 && |"tls-crypt"| == 9;
  }

  lemma {:induction false} ThreeBodiesSize(blocks: map<string, string>, a: nat, b: nat, c: nat)
    requires AreLarge(a, b, c) && HoldsThree(blocks, Body(a), Body(b), Body(c))
    ensures Bytes(Unlines(AllBlockLines(blocks, BLOCK_NAMES))) == 262_049
  {
    BodyIsBody("ca", a);
    BodyIsBody("cert", b);
    BodyIsBody("key", c);
    RequiredBlocksSize(blocks);
  }

  lemma LargeBlocksSize(a: nat, b: nat, c: nat)
    requires AreLarge(a, b, c)
    ensures Bytes(Unlines(AllBlockLines(LargeBlocks(a, b, c), BLOCK_NAMES))) == 262_049
  {
    LargeBlocksAre(a, b, c);
    ThreeBodiesSize(LargeBlocks(a, b, c), a, b, c);
  }

  function CompactLines(remote: Endpoint, blocks: map<string, string>): seq<string> {
    EndpointLines(remote) + AllBlockLines(blocks, BLOCK_NAMES)
  }

  /** A profile that states only its endpoint and its blocks is read as such. */
  lemma CompactIsParsed(remote: Endpoint, blocks: map<string, string>)
    requires WellFormed(Large(remote, blocks), remote.ip) && Bytes(Unlines(CompactLines(remote, blocks))) <= MAX_PROFILE_BYTES
    ensures Parse(Unlines(CompactLines(remote, blocks)), remote.ip) == Success(Large(remote, blocks))
  {
    var q := Profile(map[], {}, Some(remote), true, true);
    var ls := CompactLines(remote, blocks);
    EndpointIsPrintable(remote);
    BlocksArePrintable(blocks, BLOCK_NAMES);
    PrintableAppend(EndpointLines(remote), AllBlockLines(blocks, BLOCK_NAMES));
    LinesOfUnlines(ls);
    EndpointLeads(START, remote);
    StoredBlocksLead(Large(remote, blocks), q, remote.ip);
    LeadsOn(EndpointLines(remote), START, q, AllBlockLines(blocks, BLOCK_NAMES), Large(remote, blocks), remote.ip);
    assert ls + [] == ls;
    assert ParseLines(ls + [], START, remote.ip) == ParseLines([], Large(remote, blocks), remote.ip);
  }

  lemma {:induction false} CompactSize(remote: Endpoint, blocks: map<string, string>)
    requires WellFormed(Large(remote, blocks), remote.ip)
    ensures Bytes(Unlines(CompactLines(remote, blocks)))
            == Bytes(Unlines(AllBlockLines(blocks, BLOCK_NAMES))) + EndpointRoom(remote) + 45
    ensures EndpointRoom(remote) <= 20
    ensures Bytes(Rendered(Large(remote, blocks))) == Bytes(Unlines(CompactLines(remote, blocks))) + 81
  {
    var stored := AllBlockLines(blocks, BLOCK_NAMES);
    EndpointSize(remote);
    HeaderSize(remote);
    ForcedSize();
    JoinSize(EndpointLines(remote), stored);
    RenderedText(Large(remote, blocks), remote.ip);
    BytesOfThree(HeaderLines(remote), ForcedLines({}) + InOrder({}), stored);
  }

  lemma ParsedIsSanitized(text: string, p: Profile, ip: Ipv4)
    requires Parse(text, ip) == Success(p) && Missing(p).None?
    ensures Sanitize(text, ip) == Success(Sanitized(Rendered(p), p.remote.value))
  {
  }

  lemma {:induction false} CompactOutgrowsLimit(remote: Endpoint, blocks: map<string, string>)
    requires WellFormed(Large(remote, blocks), remote.ip) && Missing(Large(remote, blocks)).None?
    requires Bytes(Unlines(AllBlockLines(blocks, BLOCK_NAMES))) == 262_049
    ensures var text := Unlines(CompactLines(remote, blocks));
            && Bytes(text) <= MAX_PROFILE_BYTES && Sanitize(text, remote.ip).Success?
            && Bytes(Sanitize(text, remote.ip).value.rendered) > MAX_PROFILE_BYTES
  {
    CompactSize(remote, blocks);
    CompactIsParsed(remote, blocks);
    ParsedIsSanitized(Unlines(CompactLines(remote, blocks)), Large(remote, blocks), remote.ip);
  }

  /** For every endpoint there are accepted profiles within the size limit whose sanitized text is
      over it, so that the helper refuses a profile the service accepted. */
  lemma PrintingCanOutgrowLimit(remote: Endpoint, a: nat, b: nat, c: nat)
    requires remote.port > 0 && AreLarge(a, b, c)
    ensures var text := Unlines(CompactLines(remote, LargeBlocks(a, b, c)));
            && Bytes(text) <= MAX_PROFILE_BYTES && Sanitize(text, remote.ip).Success?
            && Sanitize(Sanitize(text, remote.ip).value.rendered, remote.ip) == Failure(TooLarge)
  {
    var blocks := LargeBlocks(a, b, c);
    LargeBlocksAreBodies(a, b, c);
    LargeBlocksSize(a, b, c);
    CompactOutgrowsLimit(remote, blocks);
    ResanitizingIsStable(Unlines(CompactLines(remote, blocks)), remote.ip);
  }
}
