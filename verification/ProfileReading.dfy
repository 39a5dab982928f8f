/** What the parser makes of lines that the printer wrote. */
module ProfileReading {
  import opened Wrappers
  import opened Texts
  import opened Addresses
  import opened AddressTexts
  import opened OpenVpn

  // ----- what an accepted profile looks like -----

  predicate IsOptionPair(d: string, v: string) {
    || (d in CRYPTO_DIRECTIVES && IsSafeCryptoValue(v))
    || (d == "key-direction" && (v == "0" || v == "1"))
    || (d == "remote-cert-tls" && v == "server")
  }

  ghost predicate IsOption(o: string) { exists d, v :: IsOptionPair(d, v) && o == d + " " + v }

  predicate AreBlockLines(name: string, ls: seq<string>) {
    && AreClean(ls)
    && forall i :: 0 <= i < |ls| ==> IsBlockLine(name, ls[i]) && Bytes(ls[i]) <= MAX_LINE_BYTES
  }

  predicate IsBody(name: string, body: string) {
    && Unlines(Lines(body)) == body && AreBlockLines(name, Lines(body))
    && Bytes(body) <= MAX_BLOCK_BYTES && Trim(body) != ""
  }

  ghost predicate WellFormed(p: Profile, ip: Ipv4) {
    && (forall o :: o in p.options ==> IsOption(o))
    && (forall name :: name in p.blocks ==> name in BLOCK_NAMES && IsBody(name, p.blocks[name]))
    && (p.remote.Some? ==> p.remote.value.ip == ip && p.remote.value.port > 0)
  }

  // ----- directive lines -----

  /** A line of plain words whose directive turns `p` into `q`. */
  ghost predicate Reads(words: seq<string>, p: Profile, q: Profile, ip: Ipv4) {
    ArePlainWords(words) && words[0][0] !in {'#', ';', '<'} && Directive(p, words, ip) == Success(q)
  }

  lemma {:induction false} WordsAreRead(words: seq<string>, p: Profile, q: Profile, rest: seq<string>, ip: Ipv4)
    requires Reads(words, p, q, ip)
    ensures ParseLines([Spaced(words)] + rest, p, ip) == ParseLines(rest, q, ip)
  {
    var line := Spaced(words);
    SpacedEnds(words);
    SpacedIsTrimmed(words);
    WordsOfSpaced(words);
    assert StripReturns(line) == line;
    assert ([line] + rest)[0] == line && ([line] + rest)[1..] == rest;
  }

  predicate IsDirectiveWord(w: string) {
    w != "" && 'a' <= w[0] <= 'z' && forall i :: 0 <= i < |w| ==> w[i] == '-' || 'a' <= w[i] <= 'z'
  }

  lemma DirectiveWordIsLower(w: string)
    requires IsDirectiveWord(w)
    ensures Lower(w) == w && IsPlainWord(w) && w[0] !in {'#', ';', '<'}
  {
  }

  lemma FlagWord(d: string)
    requires d in {"client", "nobind", "persist-key", "persist-tun", "auth-nocache"}
    ensures IsDirectiveWord(d)
  {
    if d == "client" {} else if d == "nobind" {} else if d == "persist-key" {} else if d == "persist-tun" {}
  }

  lemma FlagKind(d: string)
    requires d in {"client", "nobind", "persist-key", "persist-tun", "auth-nocache"}
    ensures KindOf(d) == Flag
  {
    if d == "client" {} else if d == "nobind" {} else if d == "persist-key" {} else if d == "persist-tun" {}
  }

  lemma CryptoWord(d: string)
    requires d in CRYPTO_DIRECTIVES
    ensures IsDirectiveWord(d)
  {
    if d == "cipher" {} else if d == "auth" {} else if d == "data-ciphers" {}
    else if d == "data-ciphers-fallback" {} else if d == "tls-version-min" {}
  }

  lemma CryptoKind(d: string)
    requires d in CRYPTO_DIRECTIVES
    ensures KindOf(d) == OneValue && d !in {"proto", "dev", "dev-type", "key-direction", "remote-cert-tls"}
  {
    if d == "cipher" {} else if d == "auth" {} else if d == "data-ciphers" {}
    else if d == "data-ciphers-fallback" {} else if d == "tls-version-min" {}
  }

  lemma ValueKind(d: string)
    requires d in {"proto", "dev", "key-direction", "remote-cert-tls"}
    ensures KindOf(d) == OneValue && IsDirectiveWord(d)
  {
    if d == "proto" {} else if d == "dev" {} else if d == "key-direction" {}
  }

  lemma FlagReads(flag: string, p: Profile, ip: Ipv4)
    requires flag in {"client", "nobind", "persist-key", "persist-tun", "auth-nocache"}
    ensures Reads([flag], p, p, ip)
  {
    FlagKind(flag);
    FlagWord(flag);
    DirectiveWordIsLower(flag);
  }

  lemma DeviceReads(p: Profile, ip: Ipv4)
    ensures Reads(["dev", "tun"], p, p.(tun := true), ip)
  {
    ValueKind("dev");
    DirectiveWordIsLower("dev");
  }

  lemma ProtocolReads(protocol: string, p: Profile, ip: Ipv4)
    requires protocol == "tcp-client" || protocol == "tcp"
    ensures Reads(["proto", protocol], p, p.(tcp := true), ip)
  {
    ValueKind("proto");
    DirectiveWordIsLower("proto");
    DirectiveWordIsLower(protocol);
  }

  lemma VerbosityReads(p: Profile, ip: Ipv4)
    ensures Reads(["verb", "3"], p, p, ip)
  {
    DirectiveWordIsLower("verb");
    assert Bytes("3") == 1;
  }

  lemma RemoteKind()
    ensures KindOf("remote") == Remote && IsDirectiveWord("remote") && IsDirectiveWord("tcp-client")
  {
  }

  lemma RemoteValues(p: Profile, remote: Endpoint, words: seq<string>)
    requires p.remote.None? && remote.port > 0
    requires 3 <= |words| <= 4 && words[1] == ShowIpv4(remote.ip) && words[2] == Show(remote.port)
    requires |words| == 4 ==> words[3] == "tcp-client"
    ensures RemoteDirective(p, words, remote.ip) == Success(p.(remote := Some(remote)))
  {
    Ipv4RoundTrip(remote.ip);
    PortRoundTrip(remote.port);
    RemoteKind();
    DirectiveWordIsLower("tcp-client");
  }

  function RemoteWords(remote: Endpoint): seq<string> { ["remote", ShowIpv4(remote.ip), Show(remote.port), "tcp-client"] }

  lemma RemoteWordsArePlain(remote: Endpoint)
    ensures ArePlainWords(RemoteWords(remote)) && RemoteWords(remote)[0][0] == 'r' && Lower(RemoteWords(remote)[0]) == "remote"
  {
    RemoteKind();
    DirectiveWordIsLower("remote");
    DirectiveWordIsLower("tcp-client");
    Ipv4IsPlain(remote.ip);
    PortRoundTrip(remote.port);
  }

  lemma RemoteReads(p: Profile, remote: Endpoint)
    requires p.remote.None? && remote.port > 0
    ensures Reads(RemoteWords(remote), p, p.(remote := Some(remote)), remote.ip)
  {
    RemoteKind();
    RemoteWordsArePlain(remote);
    RemoteValues(p, remote, RemoteWords(remote));
  }

  lemma PairIsPlain(d: string, v: string)
    requires IsOptionPair(d, v)
    ensures IsPlainWord(v) && KindOf(d) == OneValue && IsDirectiveWord(d)
  {
    if d in CRYPTO_DIRECTIVES { CryptoKind(d); CryptoWord(d); } else { ValueKind(d); }
  }

  lemma PairValue(d: string, v: string, p: Profile)
    requires IsOptionPair(d, v)
    ensures OneValueDirective(p, d, v) == Success(p.(options := p.options + {d + " " + v}))
  {
    if d in CRYPTO_DIRECTIVES { CryptoKind(d); }
    if d == "remote-cert-tls" { assert d + " " + v == SERVER_CERTIFICATE; }
  }

  lemma PairReads(d: string, v: string, p: Profile, ip: Ipv4)
    requires IsOptionPair(d, v)
    ensures Reads([d, v], p, p.(options := p.options + {d + " " + v}), ip)
  {
    PairIsPlain(d, v);
    PairValue(d, v, p);
    DirectiveWordIsLower(d);
  }

  // ----- sequences of lines -----

  /** Reading `ls` takes the parser from `p` to `q`, whatever follows. */
  ghost predicate Leads(ls: seq<string>, p: Profile, q: Profile, ip: Ipv4) {
    forall rest {:trigger ParseLines(ls + rest, p, ip)} :: ParseLines(ls + rest, p, ip) == ParseLines(rest, q, ip)
  }

  lemma LeadsNowhere(p: Profile, ip: Ipv4)
    ensures Leads([], p, p, ip)
  {
    forall rest ensures ParseLines([] + rest, p, ip) == ParseLines(rest, p, ip) { assert [] + rest == rest; }
  }

  lemma LeadsOn(a: seq<string>, p: Profile, q: Profile, b: seq<string>, r: Profile, ip: Ipv4)
    requires Leads(a, p, q, ip) && Leads(b, q, r, ip)
    ensures Leads(a + b, p, r, ip)
  {
    forall rest ensures ParseLines(a + b + rest, p, ip) == ParseLines(rest, r, ip) {
      assert a + b + rest == a + (b + rest);
    }
  }

  lemma LeadsTwice(a: seq<string>, p: Profile, q: Profile, b: seq<string>, r: Profile, c: seq<string>, s: Profile, ip: Ipv4)
    requires Leads(a, p, q, ip) && Leads(b, q, r, ip) && Leads(c, r, s, ip)
    ensures Leads(a + b + c, p, s, ip)
  {
    LeadsOn(a, p, q, b, r, ip);
    LeadsOn(a + b, p, r, c, s, ip);
  }

  lemma {:induction false} WordsLead(words: seq<string>, line: string, p: Profile, q: Profile, ip: Ipv4)
    requires Reads(words, p, q, ip) && line == Spaced(words)
    ensures Leads([line], p, q, ip)
  {
    forall rest ensures ParseLines([line] + rest, p, ip) == ParseLines(rest, q, ip) { WordsAreRead(words, p, q, rest, ip); }
  }

  lemma FlagLeads(flag: string, p: Profile, ip: Ipv4)
    requires flag in {"client", "nobind", "persist-key", "persist-tun", "auth-nocache"}
    ensures Leads([flag], p, p, ip)
  {
    FlagReads(flag, p, ip);
    WordsLead([flag], flag, p, p, ip);
  }

  lemma PairIsSpaced(d: string, v: string)
    ensures Spaced([d, v]) == d + " " + v
  {
    assert [d, v][1..] == [v];
  }

  lemma OptionLeads(o: string, p: Profile, ip: Ipv4)
    requires IsOption(o)
    ensures Leads([o], p, p.(options := p.options + {o}), ip)
  {
    var d, v :| IsOptionPair(d, v) && o == d + " " + v;
    PairReads(d, v, p, ip);
    PairIsSpaced(d, v);
    WordsLead([d, v], o, p, p.(options := p.options + {o}), ip);
  }

  function Members(os: seq<string>): set<string> { set o | o in os }

  lemma {:induction false} OptionsLead(os: seq<string>, p: Profile, ip: Ipv4)
    requires forall o :: o in os ==> IsOption(o)
    ensures Leads(os, p, p.(options := p.options + Members(os)), ip)
    decreases |os|
  {
    if os == [] {
      assert p.options + Members(os) == p.options;
      LeadsNowhere(p, ip);
    } else {
      var q := p.(options := p.options + {os[0]});
      OptionLeads(os[0], p, ip);
      OptionsLead(os[1..], q, ip);
      assert os == [os[0]] + os[1..];
      assert q.options + Members(os[1..]) == p.options + Members(os);
      LeadsOn([os[0]], p, q, os[1..], p.(options := p.options + Members(os)), ip);
    }
  }

  // ----- the header -----

  lemma RemoteIsSpaced(remote: Endpoint)
    ensures Spaced(RemoteWords(remote)) == RemoteLine(remote)
  {
    var words := RemoteWords(remote);
    assert words[1..] == [ShowIpv4(remote.ip), Show(remote.port), "tcp-client"];
    assert words[1..][1..] == [Show(remote.port), "tcp-client"];
    PairIsSpaced(Show(remote.port), "tcp-client");
    assert Spaced(words[1..]) == ShowIpv4(remote.ip) + " " + (Show(remote.port) + " " + "tcp-client");
    assert "remote " == "remote" + " " && " tcp-client" == " " + "tcp-client";
  }

  lemma DeviceLeads(p: Profile, ip: Ipv4)
    ensures Leads(["dev tun"], p, p.(tun := true), ip)
  {
    DeviceReads(p, ip);
    PairIsSpaced("dev", "tun");
    WordsLead(["dev", "tun"], "dev tun", p, p.(tun := true), ip);
  }

  lemma ProtocolLeads(p: Profile, ip: Ipv4)
    ensures Leads(["proto tcp-client"], p, p.(tcp := true), ip)
  {
    ProtocolReads("tcp-client", p, ip);
    PairIsSpaced("proto", "tcp-client");
    WordsLead(["proto", "tcp-client"], "proto tcp-client", p, p.(tcp := true), ip);
  }

  lemma RemoteLeads(p: Profile, remote: Endpoint)
    requires p.remote.None? && remote.port > 0
    ensures Leads([RemoteLine(remote)], p, p.(remote := Some(remote)), remote.ip)
  {
    RemoteReads(p, remote);
    RemoteIsSpaced(remote);
    WordsLead(RemoteWords(remote), RemoteLine(remote), p, p.(remote := Some(remote)), remote.ip);
  }

  lemma EndpointLeads(p: Profile, remote: Endpoint)
    requires p.remote.None? && remote.port > 0
    ensures Leads(EndpointLines(remote), p, p.(tun := true, tcp := true, remote := Some(remote)), remote.ip)
  {
    var ip := remote.ip;
    var p1 := p.(tun := true);
    var p2 := p1.(tcp := true);
    DeviceLeads(p, ip);
    ProtocolLeads(p1, ip);
    RemoteLeads(p2, remote);
    LeadsOn(["dev tun"], p, p1, ["proto tcp-client"], p2, ip);
    LeadsOn(["dev tun"] + ["proto tcp-client"], p, p2, [RemoteLine(remote)], p2.(remote := Some(remote)), ip);
  }

  lemma FixedLinesLead(p: Profile, ip: Ipv4)
    ensures Leads(FixedLines(), p, p, ip)
  {
    FlagLeads("nobind", p, ip);
    FlagLeads("persist-key", p, ip);
    FlagLeads("persist-tun", p, ip);
    FlagLeads("auth-nocache", p, ip);
    VerbosityReads(p, ip);
    PairIsSpaced("verb", "3");
    WordsLead(["verb", "3"], "verb 3", p, p, ip);
    LeadsOn(["nobind"], p, p, ["persist-key"], p, ip);
    LeadsOn(["nobind"] + ["persist-key"], p, p, ["persist-tun"], p, ip);
    LeadsOn(["nobind"] + ["persist-key"] + ["persist-tun"], p, p, ["auth-nocache"], p, ip);
    LeadsOn(["nobind"] + ["persist-key"] + ["persist-tun"] + ["auth-nocache"], p, p, ["verb 3"], p, ip);
  }

  lemma HeaderLeads(p: Profile, remote: Endpoint)
    requires p.remote.None? && remote.port > 0
    ensures Leads(HeaderLines(remote), p, p.(tun := true, tcp := true, remote := Some(remote)), remote.ip)
  {
    var q := p.(tun := true, tcp := true, remote := Some(remote));
    FlagLeads("client", p, remote.ip);
    EndpointLeads(p, remote);
    FixedLinesLead(q, remote.ip);
    LeadsOn(["client"], p, p, EndpointLines(remote), q, remote.ip);
    LeadsOn(["client"] + EndpointLines(remote), p, q, FixedLines(), q, remote.ip);
  }

  // ----- inline blocks -----

  function BlockLines(name: string, ls: seq<string>): seq<string> { [Opening(name)] + ls + [Closing(name)] }

  lemma NameIsWord(name: string)
    requires name in BLOCK_NAMES
    ensures IsDirectiveWord(name) && |name| <= 9
  {
    if name == "ca" {} else if name == "cert" {} else if name == "key" {} else if name == "tls-auth" {}
  }

  lemma {:induction false} PlainWordIsClean(l: string)
    requires IsPlainWord(l)
    ensures Trim(l) == l && StripReturns(l) == l && IsClean(l) && IsAscii(l)
  {
  }

  lemma TagsArePlain(name: string)
    requires IsDirectiveWord(name)
    ensures IsPlainWord(Opening(name)) && IsPlainWord(Closing(name)) && OpeningBlock(Opening(name)) == Some(name)
  {
    var opening := Opening(name);
    assert opening[1..|opening| - 1] == name;
  }

  lemma NameIsClean(name: string)
    requires name in BLOCK_NAMES
    ensures OpeningBlock(Opening(name)) == Some(name)
    ensures Trim(Opening(name)) == Opening(name) && Trim(Closing(name)) == Closing(name)
    ensures StripReturns(Opening(name)) == Opening(name) && StripReturns(Closing(name)) == Closing(name)
    ensures !IsSkipped(Opening(name)) && IsClean(Opening(name)) && IsClean(Closing(name))
    ensures 0 < |name| <= 9 && name[0] != '/' && IsAscii(Opening(name)) && IsAscii(Closing(name))
  {
    NameIsWord(name);
    TagsArePlain(name);
    PlainWordIsClean(Opening(name));
    PlainWordIsClean(Closing(name));
  }

  lemma {:induction false} SizeOfPrefix(a: seq<string>, b: seq<string>)
    ensures Bytes(Unlines(a)) <= Bytes(Unlines(a + b))
  {
    UnlinesAppend(a, b);
    BytesAppend(Unlines(a), Unlines(b));
  }

  /** The lines of a body up to its closing line are read as that body. */
  lemma {:induction false} BodyIsRead(name: string, done: seq<string>, ls: seq<string>, rest: seq<string>)
    requires name in BLOCK_NAMES && AreBlockLines(name, ls) && Bytes(Unlines(done + ls)) <= MAX_BLOCK_BYTES
    ensures ReadBlock(ls + [Closing(name)] + rest, name, Unlines(done)) == Some((Unlines(done + ls), rest))
    decreases |ls|
  {
    var all := ls + [Closing(name)] + rest;
    if ls == [] {
      NameIsClean(name);
      assert all[0] == Closing(name) && all[1..] == rest;
      assert done + ls == done;
    } else {
      var line := ls[0];
      assert all[0] == line && all[1..] == ls[1..] + [Closing(name)] + rest;
      assert StripReturns(line) == line;
      assert done + ls == done + [line] + ls[1..];
      UnlinesSnoc(done, line);
      SizeOfPrefix(done + [line], ls[1..]);
      BodyIsRead(name, done + [line], ls[1..], rest);
    }
  }

  lemma {:induction false} BlockLeads(name: string, ls: seq<string>, p: Profile, ip: Ipv4)
    requires name in BLOCK_NAMES && name !in p.blocks
    requires AreBlockLines(name, ls) && Bytes(Unlines(ls)) <= MAX_BLOCK_BYTES && Trim(Unlines(ls)) != ""
    ensures Leads(BlockLines(name, ls), p, p.(blocks := p.blocks[name := Unlines(ls)]), ip)
  {
    var q := p.(blocks := p.blocks[name := Unlines(ls)]);
    forall rest ensures ParseLines(BlockLines(name, ls) + rest, p, ip) == ParseLines(rest, q, ip) {
      BlockIsRead(name, ls, rest, p, ip);
    }
  }

  lemma OpeningIsRead(ls: seq<string>, name: string, body: string, rest: seq<string>, p: Profile, ip: Ipv4)
    requires ls != [] && ls[0] == Opening(name) && name in BLOCK_NAMES && name !in p.blocks
    requires ReadBlock(ls[1..], name, "") == Some((body, rest)) && Trim(body) != ""
    ensures ParseLines(ls, p, ip) == ParseLines(rest, p.(blocks := p.blocks[name := body]), ip)
  {
    NameIsClean(name);
  }

  lemma {:induction false} BlockIsRead(name: string, ls: seq<string>, rest: seq<string>, p: Profile, ip: Ipv4)
    requires name in BLOCK_NAMES && name !in p.blocks
    requires AreBlockLines(name, ls) && Bytes(Unlines(ls)) <= MAX_BLOCK_BYTES && Trim(Unlines(ls)) != ""
    ensures ParseLines(BlockLines(name, ls) + rest, p, ip) == ParseLines(rest, p.(blocks := p.blocks[name := Unlines(ls)]), ip)
  {
    var all := BlockLines(name, ls) + rest;
    BlockLinesParts(name, ls, rest);
    assert [] + ls == ls;
    BodyIsRead(name, [], ls, rest);
    OpeningIsRead(all, name, Unlines(ls), rest, p, ip);
  }

  lemma BlockLinesParts(name: string, ls: seq<string>, rest: seq<string>)
    ensures var all := BlockLines(name, ls) + rest;
            && all[0] == Opening(name) && all[1..] == ls + [Closing(name)] + rest
  {
  }
}
