/** How much longer than its profile the sanitized text can be. */
module ProfileGrowth {
  import opened Wrappers
  import opened Texts
  import opened Addresses
  import opened AddressTexts
  import opened OpenVpn
  import opened ProfileReading
  import opened ProfileTheorems
  import opened ProfileLimits

  // ----- trimming and splitting do not lengthen -----

  /** Bytes of the lines, each with its line feed. */
  function Size(ls: seq<string>): nat { Bytes(Unlines(ls)) }

  lemma {:induction false} SizeCons(ls: seq<string>)
    requires ls != []
    ensures Size(ls) == Bytes(ls[0]) + 1 + Size(ls[1..])
  {
    UnlinesCons(ls[0], ls[1..]);
    assert [ls[0]] + ls[1..] == ls;
  }

  lemma {:induction false} SuffixBytes(s: string, k: nat)
    requires k <= |s|
    ensures Bytes(s[k..]) <= Bytes(s) && Bytes(s) == Bytes(s[..k]) + Bytes(s[k..])
  {
    BytesAppend(s[..k], s[k..]);
    assert s[..k] + s[k..] == s;
  }

  lemma {:induction false} TrimStartBytes(s: string)
    ensures Bytes(TrimStart(s)) <= Bytes(s)
    decreases |s|
  {
    if s != "" && IsWhite(s[0]) { TrimStartBytes(s[1..]); }
  }

  lemma {:induction false} TrimBytes(s: string)
    ensures Bytes(Trim(s)) <= Bytes(s)
  {
    TrimStartBytes(s);
    PrefixBytes(TrimStart(s), |Trim(s)|);
  }

  lemma {:induction false} LineBytes(raw: string)
    ensures Bytes(StripReturns(Trim(raw))) <= Bytes(raw)
  {
    TrimBytes(raw);
    PrefixBytes(Trim(raw), |StripReturns(Trim(raw))|);
  }

  lemma {:induction false} SkipBlanksBytes(s: string)
    ensures Bytes(SkipBlanks(s)) <= Bytes(s)
    ensures s != "" && IsAsciiBlank(s[0]) ==> Bytes(SkipBlanks(s)) < Bytes(s)
    decreases |s|
  {
    if s != "" && IsAsciiBlank(s[0]) { SkipBlanksBytes(s[1..]); }
  }

  function SizeOfWords(ws: seq<string>): nat {
    if ws == [] then 0 else Bytes(ws[0]) + 1 + SizeOfWords(ws[1..])
  }

  /** Words and the blanks between them fit into the line. */
  lemma {:induction false} WordsFit(s: string)
    ensures SizeOfWords(Words(s)) <= Bytes(s) + 1
    ensures s == "" || IsAsciiBlank(s[0]) ==> SizeOfWords(Words(s)) <= Bytes(s)
    decreases |s|
  {
    var t := SkipBlanks(s);
    SkipBlanksBytes(s);
    if t != "" {
      var k := WordLength(t);
      WordsFit(t[k..]);
      SuffixBytes(t, k);
      assert Words(s)[0] == t[..k] && Words(s)[1..] == Words(t[k..]);
    }
  }

  lemma {:induction false} LowerBytes(s: string)
    ensures Bytes(Lower(s)) == Bytes(s)
    decreases |s|
  {
    if s != "" {
      LowerBytes(s[1..]);
      assert Lower(s)[1..] == Lower(s[1..]);
    }
  }

  lemma {:induction false} LinesFit(s: string)
    ensures Size(Lines(s)) <= Bytes(s) + 1
    decreases |s|
  {
    if s != "" {
      var k := Find(s, '\n');
      if k == |s| {
        UnlinesCons(s, []);
        assert [s] + [] == [s];
      } else {
        var line := StripReturn(s[..k]);
        LinesFit(s[k + 1..]);
        SuffixBytes(s, k);
        assert s[k..][1..] == s[k + 1..] && Bytes(s[k..]) == 1 + Bytes(s[k + 1..]);
        PrefixBytes(s[..k], |line|);
        UnlinesCons(line, Lines(s[k + 1..]));
      }
    }
  }

  // ----- what one line can add -----

  lemma {:induction false} OptionCost(options: set<string>, o: string)
    ensures Size(InOrder(options + {o})) <= Size(InOrder(options)) + Bytes(o) + 1
  {
    if o in options {
      assert options + {o} == options;
    } else {
      InOrderSize(options + {o}, o);
      assert options + {o} - {o} == options;
    }
  }

  lemma {:induction false} PairBytes(d: string, v: string)
    ensures Bytes(d + " " + v) == Bytes(d) + 1 + Bytes(v)
  {
    BytesAppend(d + " ", v);
    BytesAppend(d, " ");
    assert Bytes(" ") == 1;
  }

  lemma ValueAddsOption(p: Profile, d: string, v: string)
    requires OneValueDirective(p, d, v).Success?
    ensures var q := OneValueDirective(p, d, v).value;
            q.blocks == p.blocks && (q.options == p.options || q.options == p.options + {d + " " + v})
  {
    if d == "remote-cert-tls" { assert SERVER_CERTIFICATE == "remote-cert-tls" + " " + "server"; }
  }

  lemma {:induction false} ValueCost(p: Profile, d: string, v: string)
    requires OneValueDirective(p, d, v).Success?
    ensures var q := OneValueDirective(p, d, v).value;
            q.blocks == p.blocks && Size(InOrder(q.options)) <= Size(InOrder(p.options)) + Bytes(d) + 1 + Bytes(v) + 1
  {
    ValueAddsOption(p, d, v);
    PairBytes(d, v);
    OptionCost(p.options, d + " " + v);
  }

  // ----- the lines that no accepted profile lacks -----

  lemma {:induction false} ShowIsShortest(s: string)
    requires s != "" && AreDigits(s)
    ensures |Show(Decimal(s))| <= |s|
    decreases |s|
  {
    if |s| == 1 {
      assert Decimal(s[..0]) == 0;
    } else {
      ShowIsShortest(s[..|s| - 1]);
    }
  }

  lemma PortLength(s: string)
    requires ParsePort(s).Some?
    ensures |Show(ParsePort(s).value)| <= |s|
  {
    ShowIsShortest(if s[0] == '+' then s[1..] else s);
  }

  function PartsLength(parts: seq<string>): nat {
    if parts == [] then 0 else |parts[0]| + 1 + PartsLength(parts[1..])
  }

  lemma {:induction false} SplitLength(s: string, c: char)
    ensures PartsLength(SplitOn(s, c)) == |s| + 1
    decreases |s|
  {
    var k := Find(s, c);
    if k < |s| {
      SplitLength(s[k + 1..], c);
      assert SplitOn(s, c)[1..] == SplitOn(s[k + 1..], c);
    }
  }

  lemma {:induction false} FourPartsLength(parts: seq<string>)
    requires |parts| == 4
    ensures PartsLength(parts) == |parts[0]| + |parts[1]| + |parts[2]| + |parts[3]| + 4
  {
    assert parts[1..][1..] == parts[2..] && parts[2..][1..] == parts[3..] && parts[3..][1..] == [];
    assert PartsLength(parts[3..]) == |parts[3]| + 1;
    assert PartsLength(parts[2..]) == |parts[2]| + 1 + PartsLength(parts[3..]);
  }

  lemma {:induction false} ThreeWordsSize(words: seq<string>)
    requires |words| >= 3
    ensures SizeOfWords(words) >= Bytes(words[0]) + Bytes(words[1]) + Bytes(words[2]) + 3
  {
    assert words[1..][1..] == words[2..];
    assert SizeOfWords(words[2..]) == Bytes(words[2]) + 1 + SizeOfWords(words[2..][1..]);
  }

  lemma Ipv4Length(s: string)
    requires ParseIpv4(s).Some?
    ensures |ShowIpv4(ParseIpv4(s).value)| <= |s|
  {
    var parts := SplitOn(s, '.');
    SplitLength(s, '.');
    FourPartsLength(parts);
    ShowIsShortest(parts[0]);
    ShowIsShortest(parts[1]);
    ShowIsShortest(parts[2]);
    ShowIsShortest(parts[3]);
  }

  /** What the shortest lines take that state protocol, device and endpoint of `p`. */
  function Stated(p: Profile): nat {
    (if p.tcp then 10 else 0) + (if p.tun then 8 else 0) +
    if p.remote.Some? then EndpointRoom(p.remote.value) + 9 else 0
  }

  lemma {:induction false} RemoteCost(p: Profile, words: seq<string>, ip: Ipv4)
    requires words != [] && |words[0]| == 6 && RemoteDirective(p, words, ip).Success?
    ensures var q := RemoteDirective(p, words, ip).value;
            q.blocks == p.blocks && q.options == p.options && Stated(q) <= Stated(p) + SizeOfWords(words)
  {
    Ipv4Length(words[1]);
    PortLength(words[2]);
    ThreeWordsSize(words);
  }

  lemma PairStates(p: Profile, d: string, v: string)
    requires OneValueDirective(p, d, v).Success?
    ensures var q := OneValueDirective(p, d, v).value;
            || Stated(q) == Stated(p)
            || (q.options == p.options && Stated(q) <= Stated(p) + |d| + 1 + |v| + 1)
  {
    if d == "proto" { assert |Lower(v)| == |v| >= 3; }
  }

  lemma {:induction false} PairCost(p: Profile, d: string, v: string)
    requires OneValueDirective(p, d, v).Success?
    ensures var q := OneValueDirective(p, d, v).value;
            && q.blocks == p.blocks
            && Size(InOrder(q.options)) + Stated(q) <= Size(InOrder(p.options)) + Stated(p) + Bytes(d) + 1 + Bytes(v) + 1
  {
    ValueCost(p, d, v);
    PairStates(p, d, v);
  }

  lemma {:induction false} DirectiveCost(p: Profile, words: seq<string>, ip: Ipv4)
    requires words != [] && Directive(p, words, ip).Success?
    ensures var q := Directive(p, words, ip).value;
            && q.blocks == p.blocks
            && Size(InOrder(q.options)) + Stated(q) <= Size(InOrder(p.options)) + Stated(p) + SizeOfWords(words)
  {
    var d := Lower(words[0]);
    LowerBytes(words[0]);
    if KindOf(d) == OneValue {
      PairCost(p, d, words[1]);
      assert words[1..][0] == words[1] && words[1..][1..] == [];
    } else if KindOf(d) == Remote {
      assert |words[0]| == |d| == 6;
      RemoteCost(p, words, ip);
    }
  }

  lemma {:induction false} ReadBlockCost(ls: seq<string>, name: string, body: string)
    requires ReadBlock(ls, name, body).Some?
    ensures var (b, rest) := ReadBlock(ls, name, body).value;
            Bytes(b) + |name| + 4 + Size(rest) <= Bytes(body) + Size(ls)
    decreases |ls|
  {
    var line := StripReturns(ls[0]);
    SizeCons(ls);
    PrefixBytes(ls[0], |line|);
    if Trim(line) == Closing(name) {
      TrimBytes(line);
      assert Bytes(Closing(name)) >= |Closing(name)| == |name| + 3;
    } else {
      BytesAppend(body + line, "\n");
      BytesAppend(body, line);
      assert Bytes("\n") == 1;
      ReadBlockCost(ls[1..], name, body + line + "\n");
    }
  }

  lemma {:induction false} BlockCost(blocks: map<string, string>, name: string, body: string, names: seq<string>)
    requires name !in blocks && NoRepeats(names)
    ensures var more := blocks[name := body];
            Size(AllBlockLines(more, names))
            <= Size(AllBlockLines(blocks, names)) + if name in names then Size(LinesIfStored(more, name)) else 0
    decreases |names|
  {
    var more := blocks[name := body];
    if names != [] {
      BlockCost(blocks, name, body, names[1..]);
      JoinSize(LinesIfStored(more, names[0]), AllBlockLines(more, names[1..]));
      JoinSize(LinesIfStored(blocks, names[0]), AllBlockLines(blocks, names[1..]));
      assert names == [names[0]] + names[1..];
      if names[0] == name { assert LinesIfStored(blocks, name) == []; }
    }
  }

  // ----- the whole text -----

  /** Room that the contents of `p` take in every profile that is read as `p`. */
  ghost function Cost(p: Profile): nat {
    Size(InOrder(p.options)) + Size(AllBlockLines(p.blocks, BLOCK_NAMES)) + Stated(p)
  }

  lemma {:induction false} StoringCost(p: Profile, name: string, body: string)
    requires name in BLOCK_NAMES && name !in p.blocks && IsBody(name, body)
    ensures Cost(p.(blocks := p.blocks[name := body])) <= Cost(p) + Bytes(body) + 2 * |name| + 7
  {
    AllNames(map[]);
    BlockCost(p.blocks, name, body, BLOCK_NAMES);
    StoredSize(p.blocks[name := body], name);
  }

  lemma OpeningLength(line: string)
    requires OpeningBlock(line).Some?
    ensures |line| == |OpeningBlock(line).value| + 2
  {
  }

  lemma {:induction false} ParseCost(ls: seq<string>, p: Profile, ip: Ipv4)
    requires AreInputLines(ls) && ParseLines(ls, p, ip).Success?
    ensures Cost(ParseLines(ls, p, ip).value) <= Cost(p) + Size(ls)
    decreases |ls|
  {
    if ls != [] {
      var line := StripReturns(Trim(ls[0]));
      LineBytes(ls[0]);
      SizeCons(ls);
      if IsSkipped(line) {
        ParseCost(ls[1..], p, ip);
      } else if OpeningBlock(line).Some? {
        var name := OpeningBlock(line).value;
        var block := ReadBlock(ls[1..], name, "").value;
        OpeningLength(line);
        BlockIsBody(ls[1..], name);
        ReadBlockCost(ls[1..], name, "");
        StoringCost(p, name, block.0);
        ParseCost(block.1, p.(blocks := p.blocks[name := block.0]), ip);
      } else if Words(line) == [] {
        ParseCost(ls[1..], p, ip);
      } else {
        WordsFit(line);
        DirectiveCost(p, Words(line), ip);
        ParseCost(ls[1..], Directive(p, Words(line), ip).value, ip);
      }
    }
  }

  lemma {:induction false} ForcedBytes(options: set<string>)
    ensures Size(ForcedLines(options) + InOrder(options)) <= Size(InOrder(options)) + 23
  {
    JoinSize(ForcedLines(options), InOrder(options));
    if SERVER_CERTIFICATE !in options { LineSize(SERVER_CERTIFICATE); }
  }

  lemma {:induction false} RenderedCost(p: Profile, ip: Ipv4)
    requires WellFormed(p, ip) && p.remote.Some? && p.tcp && p.tun
    ensures Bytes(Rendered(p)) <= Cost(p) + 99
  {
    var remote := p.remote.value;
    RenderedText(p, ip);
    BytesOfThree(HeaderLines(remote), ForcedLines(p.options) + InOrder(p.options), AllBlockLines(p.blocks, BLOCK_NAMES));
    HeaderSize(remote);
    EndpointSize(remote);
    ForcedBytes(p.options);
  }

  lemma {:induction false} ParsedCost(text: string, ip: Ipv4)
    requires Parse(text, ip).Success?
    ensures Cost(Parse(text, ip).value) <= Bytes(text) + 1
  {
    LinesHaveNoFeed(text);
    LinesFit(text);
    ParseCost(Lines(text), START, ip);
    StartCost();
  }

  lemma StartCost()
    ensures Cost(START) == 0
  {
    NoBlocksNoLines(BLOCK_NAMES);
  }

  lemma {:induction false} NoBlocksNoLines(names: seq<string>)
    ensures AllBlockLines(map[], names) == []
    decreases |names|
  {
    if names != [] { NoBlocksNoLines(names[1..]); }
  }

  /** Sanitizing adds at most 100 bytes, so a profile that is that much below the limit passes
      both the service and the helper, with the same endpoint. */
  lemma {:induction false} SanitizingAddsLittle(text: string, ip: Ipv4)
    requires Sanitize(text, ip).Success?
    ensures var first := Sanitize(text, ip).value;
            && Bytes(first.rendered) <= Bytes(text) + 100
            && (Bytes(text) + 100 <= MAX_PROFILE_BYTES ==>
                  Sanitize(first.rendered, ip).Success? && Sanitize(first.rendered, ip).value.remote == first.remote)
  {
    AcceptedIsWellFormed(text, ip);
    ParsedCost(text, ip);
    RenderedCost(Parse(text, ip).value, ip);
    ResanitizingIsStable(text, ip);
  }

  // ----- the bound is attained -----

  lemma {:induction false} FirstLine(l: string, rest: string)
    requires IsClean(l)
    ensures Lines(l + "\n" + rest) == [l] + Lines(rest)
  {
    var s := l + "\n" + rest;
    var k := Find(s, '\n');
    assert s[|l|] == '\n';
    assert forall i :: 0 <= i < |l| ==> s[i] == l[i];
    assert s[..k] == l && s[k + 1..] == rest;
  }

  lemma {:induction false} OneOpenLine(l: string)
    requires IsClean(l) && l != ""
    ensures Lines(l) == [l]
  {
    assert Find(l, '\n') == |l|;
  }

  lemma {:induction false} UnlinesThen(ls: seq<string>, last: string)
    requires ls != []
    ensures Unlines(ls) + last == ls[0] + "\n" + (Unlines(ls[1..]) + last)
  {
  }

  lemma {:induction false} LinesOfOpenEnd(ls: seq<string>, last: string)
    requires AreClean(ls) && IsClean(last) && last != ""
    ensures Lines(Unlines(ls) + last) == ls + [last]
    decreases |ls|
  {
    if ls == [] {
      OneOpenLine(last);
      assert Unlines(ls) + last == last;
    } else {
      LinesOfOpenEnd(ls[1..], last);
      FirstLine(ls[0], Unlines(ls[1..]) + last);
      UnlinesThen(ls, last);
    }
  }

  function ShortRemote(remote: Endpoint): string { "remote " + ShowIpv4(remote.ip) + " " + Show(remote.port) }

  /** The shortest way to state device, protocol and blocks ... */
  function ShortLines(blocks: map<string, string>): seq<string> {
    AllBlockLines(blocks, BLOCK_NAMES) + ["dev tun"] + ["proto tcp"]
  }

  /** ... and the endpoint, in a last line without line feed. */
  function ShortText(remote: Endpoint, blocks: map<string, string>): string {
    Unlines(ShortLines(blocks)) + ShortRemote(remote)
  }

  lemma {:induction false} ShortRemoteIsSpaced(remote: Endpoint, words: seq<string>)
    requires words == ["remote", ShowIpv4(remote.ip), Show(remote.port)]
    ensures Spaced(words) == ShortRemote(remote) && ArePlainWords(words)
  {
    assert words[1..] == [ShowIpv4(remote.ip), Show(remote.port)];
    PairIsSpaced(ShowIpv4(remote.ip), Show(remote.port));
    assert "remote " == "remote" + " ";
    RemoteWordsArePlain(remote);
    Ipv4IsPlain(remote.ip);
    PortRoundTrip(remote.port);
  }

  lemma ShortRemoteLeads(p: Profile, remote: Endpoint)
    requires p.remote.None? && remote.port > 0
    ensures Leads([ShortRemote(remote)], p, p.(remote := Some(remote)), remote.ip)
  {
    var words := ["remote", ShowIpv4(remote.ip), Show(remote.port)];
    ShortRemoteIsSpaced(remote, words);
    RemoteKind();
    RemoteWordsArePlain(remote);
    RemoteValues(p, remote, words);
    WordsLead(words, ShortRemote(remote), p, p.(remote := Some(remote)), remote.ip);
  }

  lemma ShortProtocolLeads(p: Profile, ip: Ipv4)
    ensures Leads(["proto tcp"], p, p.(tcp := true), ip)
  {
    ProtocolReads("tcp", p, ip);
    PairIsSpaced("proto", "tcp");
    WordsLead(["proto", "tcp"], "proto tcp", p, p.(tcp := true), ip);
  }

  lemma ShortLinesLead(remote: Endpoint, blocks: map<string, string>)
    requires WellFormed(Large(remote, blocks), remote.ip)
    ensures Leads(ShortLines(blocks) + [ShortRemote(remote)], START, Large(remote, blocks), remote.ip)
  {
    var ip := remote.ip;
    var p1 := START.(blocks := blocks);
    var p2 := p1.(tun := true);
    var p3 := p2.(tcp := true);
    StoredBlocksLead(Large(remote, blocks), START, ip);
    DeviceLeads(p1, ip);
    ShortProtocolLeads(p2, ip);
    LeadsTwice(AllBlockLines(blocks, BLOCK_NAMES), START, p1, ["dev tun"], p2, ["proto tcp"], p3, ip);
    ShortRemoteLeads(p3, remote);
    LeadsOn(ShortLines(blocks), START, p3, [ShortRemote(remote)], Large(remote, blocks), ip);
  }

  lemma ShortRemoteIsPrintable(remote: Endpoint)
    ensures IsPrintable(ShortRemote(remote)) && ShortRemote(remote) != ""
    ensures Bytes(ShortRemote(remote)) == EndpointRoom(remote) + 8
  {
    var words := ["remote", ShowIpv4(remote.ip), Show(remote.port)];
    ShortRemoteIsSpaced(remote, words);
    SpacedIsTrimmed(words);
    Ipv4IsPlain(remote.ip);
    PortRoundTrip(remote.port);
    AsciiIsPrintable(ShortRemote(remote));
    AsciiBytes(ShortRemote(remote));
  }

  lemma ShortLinesArePrintable(blocks: map<string, string>)
    requires forall name :: name in blocks ==> name in BLOCK_NAMES && IsBody(name, blocks[name])
    ensures ArePrintable(ShortLines(blocks))
  {
    BlocksArePrintable(blocks, BLOCK_NAMES);
    FixedLineIsPrintable("dev tun");
    AsciiIsPrintable("proto tcp");
    PrintableAppend(AllBlockLines(blocks, BLOCK_NAMES), ["dev tun"]);
    PrintableAppend(AllBlockLines(blocks, BLOCK_NAMES) + ["dev tun"], ["proto tcp"]);
  }

  lemma ShortTextLines(remote: Endpoint, blocks: map<string, string>)
    requires forall name :: name in blocks ==> name in BLOCK_NAMES && IsBody(name, blocks[name])
    ensures Lines(ShortText(remote, blocks)) == ShortLines(blocks) + [ShortRemote(remote)]
    ensures !HasLongLine(ShortLines(blocks) + [ShortRemote(remote)])
  {
    ShortLinesArePrintable(blocks);
    ShortRemoteIsPrintable(remote);
    PrintableAppend(ShortLines(blocks), [ShortRemote(remote)]);
    LinesOfOpenEnd(ShortLines(blocks), ShortRemote(remote));
  }

  lemma ShortIsParsed(remote: Endpoint, blocks: map<string, string>)
    requires WellFormed(Large(remote, blocks), remote.ip) && Bytes(ShortText(remote, blocks)) <= MAX_PROFILE_BYTES
    ensures Parse(ShortText(remote, blocks), remote.ip) == Success(Large(remote, blocks))
  {
    var ls := ShortLines(blocks) + [ShortRemote(remote)];
    ShortTextLines(remote, blocks);
    ShortLinesLead(remote, blocks);
    assert ls + [] == ls;
    assert ParseLines(ls + [], START, remote.ip) == ParseLines([], Large(remote, blocks), remote.ip);
  }

  lemma {:induction false} ShortSize(remote: Endpoint, blocks: map<string, string>)
    ensures Bytes(ShortText(remote, blocks)) == Size(AllBlockLines(blocks, BLOCK_NAMES)) + EndpointRoom(remote) + 26
  {
    BytesAppend(Unlines(ShortLines(blocks)), ShortRemote(remote));
    AppendSize(AllBlockLines(blocks, BLOCK_NAMES), "dev tun");
    AppendSize(AllBlockLines(blocks, BLOCK_NAMES) + ["dev tun"], "proto tcp");
    ShortRemoteIsPrintable(remote);
  }

  /** Every such profile within the limit is accepted and grows by exactly 100 bytes. */
  lemma {:induction false} GrowthIsAttained(remote: Endpoint, blocks: map<string, string>)
    requires WellFormed(Large(remote, blocks), remote.ip) && Missing(Large(remote, blocks)).None?
    requires Bytes(ShortText(remote, blocks)) <= MAX_PROFILE_BYTES
    ensures var text := ShortText(remote, blocks);
            && Sanitize(text, remote.ip).Success?
            && Bytes(Sanitize(text, remote.ip).value.rendered) == Bytes(text) + 100
  {
    ShortIsParsed(remote, blocks);
    ParsedIsSanitized(ShortText(remote, blocks), Large(remote, blocks), remote.ip);
    ShortSize(remote, blocks);
    CompactSize(remote, blocks);
    JoinSize(EndpointLines(remote), AllBlockLines(blocks, BLOCK_NAMES));
    EndpointSize(remote);
  }

  lemma SmallProfileFits(remote: Endpoint, blocks: map<string, string>, n: nat)
    requires 0 < n < 100 && HoldsThree(blocks, Body(n), Body(n), Body(n))
    ensures Missing(Large(remote, blocks)).None? && Bytes(ShortText(remote, blocks)) <= MAX_PROFILE_BYTES
  {
    BodyIsBody("ca", n);
    BodyIsBody("cert", n);
    BodyIsBody("key", n);
    RequiredBlocksSize(blocks);
    ShortSize(remote, blocks);
    EndpointSize(remote);
  }

  /** There are some for every endpoint. */
  lemma ShortProfileExists(remote: Endpoint, n: nat)
    requires remote.port > 0 && 0 < n < 100
    ensures var blocks := LargeBlocks(n, n, n);
            && WellFormed(Large(remote, blocks), remote.ip) && Missing(Large(remote, blocks)).None?
            && Bytes(ShortText(remote, blocks)) <= MAX_PROFILE_BYTES
  {
    LargeBlocksAreBodies(n, n, n);
    LargeBlocksAre(n, n, n);
    SmallProfileFits(remote, LargeBlocks(n, n, n), n);
  }
}
