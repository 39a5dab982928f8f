/** Sanitizing is stable: what the sanitizer printed it accepts again, with the same meaning. */
module ProfileTheorems {
  import opened Wrappers
  import opened Texts
  import opened Addresses
  import opened AddressTexts
  import opened OpenVpn
  import opened ProfileReading

  // ----- the first pass -----

  lemma {:induction false} PrefixBytes(s: string, k: nat)
    requires k <= |s|
    ensures Bytes(s[..k]) <= Bytes(s)
  {
    BytesAppend(s[..k], s[k..]);
    assert s[..k] + s[k..] == s;
  }

  predicate AreInputLines(ls: seq<string>) {
    forall i :: 0 <= i < |ls| ==> '\n' !in ls[i] && Bytes(ls[i]) <= MAX_LINE_BYTES
  }

  lemma {:induction false} LineIsKept(name: string, done: seq<string>, raw: string)
    requires AreBlockLines(name, done) && '\n' !in raw && Bytes(raw) <= MAX_LINE_BYTES
    requires IsBlockLine(name, StripReturns(raw))
    ensures AreBlockLines(name, done + [StripReturns(raw)])
  {
    PrefixBytes(raw, |StripReturns(raw)|);
    assert forall c :: c in StripReturns(raw) ==> c in raw;
  }

  lemma {:induction false} BodyIsWellFormed(ls: seq<string>, name: string, done: seq<string>)
    returns (all: seq<string>)
    requires AreInputLines(ls) && AreBlockLines(name, done) && Bytes(Unlines(done)) <= MAX_BLOCK_BYTES
    requires ReadBlock(ls, name, Unlines(done)).Some?
    ensures AreBlockLines(name, all) && ReadBlock(ls, name, Unlines(done)).value.0 == Unlines(all)
    ensures Bytes(Unlines(all)) <= MAX_BLOCK_BYTES
    decreases |ls|
  {
    var line := StripReturns(ls[0]);
    if Trim(line) == Closing(name) {
      all := done;
    } else {
      UnlinesSnoc(done, line);
      LineIsKept(name, done, ls[0]);
      all := BodyIsWellFormed(ls[1..], name, done + [line]);
    }
  }

  lemma {:induction false} BlockIsBody(ls: seq<string>, name: string)
    requires AreInputLines(ls) && ReadBlock(ls, name, "").Some? && Trim(ReadBlock(ls, name, "").value.0) != ""
    ensures IsBody(name, ReadBlock(ls, name, "").value.0)
  {
    assert Unlines([]) == "";
    var all := BodyIsWellFormed(ls, name, []);
    LinesOfUnlines(all);
  }

  lemma DirectiveKeeps(p: Profile, words: seq<string>, ip: Ipv4)
    requires WellFormed(p, ip) && words != [] && Directive(p, words, ip).Success?
    ensures WellFormed(Directive(p, words, ip).value, ip)
  {
    var d := Lower(words[0]);
    if KindOf(d) == OneValue { ValueKeeps(p, d, words[1], ip); }
  }

  lemma ValueKeeps(p: Profile, d: string, v: string, ip: Ipv4)
    requires WellFormed(p, ip) && KindOf(d) == OneValue && OneValueDirective(p, d, v).Success?
    ensures WellFormed(OneValueDirective(p, d, v).value, ip)
  {
    var o := d + " " + v;
    var q := OneValueDirective(p, d, v).value;
    if d !in {"proto", "dev", "dev-type"} {
      assert d == "remote-cert-tls" ==> SERVER_CERTIFICATE == o;
      assert IsOptionPair(d, v);
      assert IsOption(o);
    }
  }

  lemma {:induction false} ParseKeeps(ls: seq<string>, p: Profile, ip: Ipv4)
    requires AreInputLines(ls) && WellFormed(p, ip) && ParseLines(ls, p, ip).Success?
    ensures WellFormed(ParseLines(ls, p, ip).value, ip)
    decreases |ls|
  {
    if ls != [] {
      var line := StripReturns(Trim(ls[0]));
      if IsSkipped(line) {
        ParseKeeps(ls[1..], p, ip);
      } else if OpeningBlock(line).Some? {
        var name := OpeningBlock(line).value;
        var block := ReadBlock(ls[1..], name, "").value;
        BlockIsBody(ls[1..], name);
        ParseKeeps(block.1, p.(blocks := p.blocks[name := block.0]), ip);
      } else if Words(line) == [] {
        ParseKeeps(ls[1..], p, ip);
      } else {
        DirectiveKeeps(p, Words(line), ip);
        ParseKeeps(ls[1..], Directive(p, Words(line), ip).value, ip);
      }
    }
  }

  /** Every accepted text yields allowlisted options, intact bodies under known names and the
      expected address with a port. */
  lemma AcceptedIsWellFormed(text: string, ip: Ipv4)
    requires Parse(text, ip).Success?
    ensures WellFormed(Parse(text, ip).value, ip)
  {
    LinesHaveNoFeed(text);
    ParseKeeps(Lines(text), START, ip);
  }

  // ----- the printed text as lines -----

  function LinesIfStored(blocks: map<string, string>, name: string): seq<string> {
    if name in blocks then BlockLines(name, Lines(blocks[name])) else []
  }

  function AllBlockLines(blocks: map<string, string>, names: seq<string>): seq<string> {
    if names == [] then [] else LinesIfStored(blocks, names[0]) + AllBlockLines(blocks, names[1..])
  }

  function ForcedLines(options: set<string>): seq<string> {
    if SERVER_CERTIFICATE in options then [] else [SERVER_CERTIFICATE]
  }

  ghost function RenderedLines(p: Profile): seq<string>
    requires p.remote.Some?
  {
    HeaderLines(p.remote.value) + (ForcedLines(p.options) + InOrder(p.options)) + AllBlockLines(p.blocks, BLOCK_NAMES)
  }

  lemma BlockText(blocks: map<string, string>, name: string)
    requires name in blocks ==> Unlines(Lines(blocks[name])) == blocks[name]
    ensures Unlines(LinesIfStored(blocks, name)) == RenderedIfStored(blocks, name)
  {
    if name in blocks {
      var ls := Lines(blocks[name]);
      UnlinesSnoc([Opening(name)] + ls, Closing(name));
      UnlinesCons(Opening(name), ls);
    }
  }

  lemma {:induction false} BlocksText(blocks: map<string, string>, names: seq<string>)
    requires forall name :: name in blocks ==> Unlines(Lines(blocks[name])) == blocks[name]
    ensures Unlines(AllBlockLines(blocks, names)) == RenderedBlocks(blocks, names)
    decreases |names|
  {
    if names != [] {
      BlocksText(blocks, names[1..]);
      BlockText(blocks, names[0]);
      UnlinesAppend(LinesIfStored(blocks, names[0]), AllBlockLines(blocks, names[1..]));
    }
  }

  lemma {:induction false} OptionsText(options: set<string>)
    ensures Unlines(ForcedLines(options) + InOrder(options)) == RenderedOptions(options)
  {
    if SERVER_CERTIFICATE in options {
      assert ForcedLines(options) + InOrder(options) == InOrder(options);
    } else {
      UnlinesCons(SERVER_CERTIFICATE, InOrder(options));
    }
  }

  lemma {:induction false} UnlinesThree(a: seq<string>, b: seq<string>, c: seq<string>)
    ensures Unlines(a + b + c) == Unlines(a) + Unlines(b) + Unlines(c)
  {
    UnlinesAppend(a, b);
    UnlinesAppend(a + b, c);
  }

  lemma RenderedText(p: Profile, ip: Ipv4)
    requires WellFormed(p, ip) && p.remote.Some?
    ensures Rendered(p) == Unlines(RenderedLines(p))
  {
    OptionsText(p.options);
    BlocksText(p.blocks, BLOCK_NAMES);
    UnlinesThree(HeaderLines(p.remote.value), ForcedLines(p.options) + InOrder(p.options),
                 AllBlockLines(p.blocks, BLOCK_NAMES));
  }

  // ----- printed lines are clean and short -----

  predicate IsPrintable(l: string) { IsClean(l) && Bytes(l) <= MAX_LINE_BYTES }

  predicate ArePrintable(ls: seq<string>) { forall i :: 0 <= i < |ls| ==> IsPrintable(ls[i]) }

  lemma PrintableAppend(a: seq<string>, b: seq<string>)
    requires ArePrintable(a) && ArePrintable(b)
    ensures ArePrintable(a + b)
  {
  }

  lemma AsciiIsPrintable(l: string)
    requires IsAscii(l) && IsClean(l) && |l| <= MAX_LINE_BYTES
    ensures IsPrintable(l)
  {
    AsciiBytes(l);
  }

  lemma FixedLineIsPlain(l: string)
    requires l in {"client", "dev tun", "proto tcp-client", "nobind", "persist-key", "persist-tun", "auth-nocache", "verb 3"}
    ensures 0 < |l| < 20 && forall i :: 0 <= i < |l| ==> 0x20 <= l[i] as int < 0x7f
  {
    if l == "client" {} else if l == "dev tun" {} else if l == "proto tcp-client" {} else if l == "nobind" {}
    else if l == "persist-key" {} else if l == "persist-tun" {} else if l == "auth-nocache" {}
  }

  lemma FixedLineIsPrintable(l: string)
    requires l in {"client", "dev tun", "proto tcp-client", "nobind", "persist-key", "persist-tun", "auth-nocache", "verb 3"}
    ensures ArePrintable([l])
  {
    FixedLineIsPlain(l);
    AsciiIsPrintable(l);
  }

  lemma FixedIsPrintable()
    ensures ArePrintable(FixedLines())
  {
    FixedLineIsPrintable("nobind");
    FixedLineIsPrintable("persist-key");
    FixedLineIsPrintable("persist-tun");
    FixedLineIsPrintable("auth-nocache");
    FixedLineIsPrintable("verb 3");
  }

  lemma RemoteLineIsPrintable(remote: Endpoint)
    ensures ArePrintable([RemoteLine(remote)])
  {
    RemoteIsSpaced(remote);
    RemoteWordsArePlain(remote);
    SpacedIsTrimmed(RemoteWords(remote));
    Ipv4IsPlain(remote.ip);
    PortRoundTrip(remote.port);
    AsciiIsPrintable(RemoteLine(remote));
  }

  lemma EndpointIsPrintable(remote: Endpoint)
    ensures ArePrintable(EndpointLines(remote))
  {
    FixedLineIsPrintable("dev tun");
    FixedLineIsPrintable("proto tcp-client");
    RemoteLineIsPrintable(remote);
  }

  lemma HeaderIsPrintable(remote: Endpoint)
    ensures ArePrintable(HeaderLines(remote))
  {
    FixedLineIsPrintable("client");
    EndpointIsPrintable(remote);
    FixedIsPrintable();
    PrintableAppend(["client"], EndpointLines(remote));
    PrintableAppend(["client"] + EndpointLines(remote), FixedLines());
  }

  lemma OptionIsPrintable(o: string)
    requires IsOption(o)
    ensures IsPrintable(o)
  {
    var d, v :| IsOptionPair(d, v) && o == d + " " + v;
    PairIsPlain(d, v);
    DirectiveWordIsLower(d);
    PairIsSpaced(d, v);
    SpacedIsTrimmed([d, v]);
    assert Bytes(v) >= |v|;
    assert |d| <= 21;
    AsciiIsPrintable(o);
  }

  lemma ForcedIsOption()
    ensures IsOption(SERVER_CERTIFICATE)
  {
    assert IsOptionPair("remote-cert-tls", "server") && SERVER_CERTIFICATE == "remote-cert-tls" + " " + "server";
  }

  lemma {:induction false} PrintedOptionsAreOptions(options: set<string>)
    requires forall o :: o in options ==> IsOption(o)
    ensures forall o :: o in ForcedLines(options) + InOrder(options) ==> IsOption(o)
  {
    ForcedIsOption();
    InOrderMembers(options);
  }

  lemma {:induction false} OptionsArePrintable(options: set<string>)
    requires forall o :: o in options ==> IsOption(o)
    ensures ArePrintable(ForcedLines(options) + InOrder(options))
  {
    PrintedOptionsAreOptions(options);
    var ls := ForcedLines(options) + InOrder(options);
    forall i | 0 <= i < |ls| ensures IsPrintable(ls[i]) {
      assert ls[i] in ls;
      OptionIsPrintable(ls[i]);
    }
  }

  lemma BlockIsPrintable(blocks: map<string, string>, name: string)
    requires name in BLOCK_NAMES && (name in blocks ==> IsBody(name, blocks[name]))
    ensures ArePrintable(LinesIfStored(blocks, name))
  {
    NameIsClean(name);
    AsciiIsPrintable(Opening(name));
    AsciiIsPrintable(Closing(name));
  }

  lemma {:induction false} BlocksArePrintable(blocks: map<string, string>, names: seq<string>)
    requires forall name :: name in names ==> name in BLOCK_NAMES
    requires forall name :: name in blocks ==> IsBody(name, blocks[name])
    ensures ArePrintable(AllBlockLines(blocks, names))
    decreases |names|
  {
    if names != [] {
      BlockIsPrintable(blocks, names[0]);
      BlocksArePrintable(blocks, names[1..]);
    }
  }

  lemma RenderedLinesArePrintable(p: Profile, ip: Ipv4)
    requires WellFormed(p, ip) && p.remote.Some?
    ensures ArePrintable(RenderedLines(p))
  {
    var header, middle := HeaderLines(p.remote.value), ForcedLines(p.options) + InOrder(p.options);
    HeaderIsPrintable(p.remote.value);
    OptionsArePrintable(p.options);
    BlocksArePrintable(p.blocks, BLOCK_NAMES);
    PrintableAppend(header, middle);
    PrintableAppend(header + middle, AllBlockLines(p.blocks, BLOCK_NAMES));
  }

  lemma RenderedIsPrintable(p: Profile, ip: Ipv4)
    requires WellFormed(p, ip) && p.remote.Some?
    ensures ArePrintable(RenderedLines(p)) && Lines(Rendered(p)) == RenderedLines(p)
  {
    RenderedLinesArePrintable(p, ip);
    RenderedText(p, ip);
    LinesOfUnlines(RenderedLines(p));
  }

  // ----- the second pass -----

  function Restricted(blocks: map<string, string>, names: seq<string>): map<string, string> {
    map name | name in blocks && name in names :: blocks[name]
  }

  lemma StoredLeads(blocks: map<string, string>, name: string, p: Profile, ip: Ipv4)
    requires name in BLOCK_NAMES && name !in p.blocks && (name in blocks ==> IsBody(name, blocks[name]))
    ensures Leads(LinesIfStored(blocks, name), p, p.(blocks := p.blocks + Restricted(blocks, [name])), ip)
  {
    if name in blocks {
      BlockLeads(name, Lines(blocks[name]), p, ip);
      assert p.blocks + Restricted(blocks, [name]) == p.blocks[name := blocks[name]];
    } else {
      LeadsNowhere(p, ip);
      assert p.blocks + Restricted(blocks, [name]) == p.blocks;
    }
  }

  lemma {:induction false} BlocksLeadOn(blocks: map<string, string>, names: seq<string>, p: Profile, q: Profile, ip: Ipv4)
    requires names != [] && q == p.(blocks := p.blocks + Restricted(blocks, [names[0]]))
    requires Leads(LinesIfStored(blocks, names[0]), p, q, ip)
    requires Leads(AllBlockLines(blocks, names[1..]), q, q.(blocks := q.blocks + Restricted(blocks, names[1..])), ip)
    ensures Leads(AllBlockLines(blocks, names), p, p.(blocks := p.blocks + Restricted(blocks, names)), ip)
  {
    RestrictedSplit(blocks, names, p.blocks);
    LeadsOn(LinesIfStored(blocks, names[0]), p, q, AllBlockLines(blocks, names[1..]),
            p.(blocks := p.blocks + Restricted(blocks, names)), ip);
  }

  ghost predicate AreStorable(blocks: map<string, string>, names: seq<string>) {
    forall name :: name in names ==> name in BLOCK_NAMES && (name in blocks ==> IsBody(name, blocks[name]))
  }

  lemma {:induction false} BlocksLead(blocks: map<string, string>, names: seq<string>, p: Profile, ip: Ipv4)
    requires NoRepeats(names) && AreStorable(blocks, names) && forall name :: name in names ==> name !in p.blocks
    ensures Leads(AllBlockLines(blocks, names), p, p.(blocks := p.blocks + Restricted(blocks, names)), ip)
    decreases |names|
  {
    if names == [] {
      assert p.blocks + Restricted(blocks, names) == p.blocks;
      LeadsNowhere(p, ip);
    } else {
      var q := p.(blocks := p.blocks + Restricted(blocks, [names[0]]));
      StoredLeads(blocks, names[0], p, ip);
      BlocksLead(blocks, names[1..], q, ip);
      BlocksLeadOn(blocks, names, p, q, ip);
    }
  }

  /** What reading the printed text yields: everything again, and the forced option. */
  function Reread(p: Profile): Profile { Profile(p.blocks, p.options + {SERVER_CERTIFICATE}, p.remote, true, true) }

  lemma {:induction false} ForcedMembers(options: set<string>)
    ensures {} + Members(ForcedLines(options) + InOrder(options)) == options + {SERVER_CERTIFICATE}
  {
    InOrderMembers(options);
  }

  lemma RestrictedSplit(blocks: map<string, string>, names: seq<string>, stored: map<string, string>)
    requires names != []
    ensures stored + Restricted(blocks, [names[0]]) + Restricted(blocks, names[1..]) == stored + Restricted(blocks, names)
  {
  }

  lemma AllNames(blocks: map<string, string>)
    requires forall name :: name in blocks ==> name in BLOCK_NAMES
    ensures NoRepeats(BLOCK_NAMES) && Restricted(blocks, BLOCK_NAMES) == blocks
  {
  }

  lemma StoredBlocksLead(p: Profile, q: Profile, ip: Ipv4)
    requires WellFormed(p, ip) && q.blocks == map[]
    ensures Leads(AllBlockLines(p.blocks, BLOCK_NAMES), q, q.(blocks := p.blocks), ip)
  {
    AllNames(p.blocks);
    BlocksLead(p.blocks, BLOCK_NAMES, q, ip);
    assert map[] + p.blocks == p.blocks;
  }

  lemma {:induction false} StoredOptionsLead(options: set<string>, q: Profile, ip: Ipv4)
    requires (forall o :: o in options ==> IsOption(o)) && q.options == {}
    ensures Leads(ForcedLines(options) + InOrder(options), q, q.(options := options + {SERVER_CERTIFICATE}), ip)
  {
    PrintedOptionsAreOptions(options);
    ForcedMembers(options);
    OptionsLead(ForcedLines(options) + InOrder(options), q, ip);
  }

  lemma RenderedLeads(p: Profile, ip: Ipv4)
    requires WellFormed(p, ip) && p.remote.Some?
    ensures Leads(RenderedLines(p), START, Reread(p), ip)
  {
    var remote := p.remote.value;
    var p1 := Profile(map[], {}, Some(remote), true, true);
    var p2 := p1.(options := p.options + {SERVER_CERTIFICATE});
    HeaderLeads(START, remote);
    StoredOptionsLead(p.options, p1, ip);
    StoredBlocksLead(p, p2, ip);
    LeadsTwice(HeaderLines(remote), START, p1, ForcedLines(p.options) + InOrder(p.options), p2,
               AllBlockLines(p.blocks, BLOCK_NAMES), Reread(p), ip);
  }

  lemma {:induction false} RenderedIsAccepted(p: Profile, ip: Ipv4)
    requires WellFormed(p, ip) && p.remote.Some?
    ensures ParseLines(RenderedLines(p), START, ip) == Success(Reread(p))
  {
    RenderedLeads(p, ip);
    var ls := RenderedLines(p);
    assert ls + [] == ls;
    assert ParseLines(ls + [], START, ip) == ParseLines([], Reread(p), ip);
  }

  lemma {:induction false} RereadIsParsed(p: Profile, ip: Ipv4)
    requires WellFormed(p, ip) && p.remote.Some?
    ensures Parse(Rendered(p), ip)
            == if Bytes(Rendered(p)) > MAX_PROFILE_BYTES then Failure(TooLarge) else Success(Reread(p))
  {
    RenderedIsPrintable(p, ip);
    RenderedIsAccepted(p, ip);
  }

  lemma RereadKeeps(p: Profile, ip: Ipv4)
    requires WellFormed(p, ip)
    ensures WellFormed(Reread(p), ip) && Reread(Reread(p)) == Reread(p)
    ensures Missing(p).None? ==> Missing(Reread(p)).None?
  {
    ForcedIsOption();
  }

  lemma {:induction false} SizeWith(options: set<string>, x: string)
    requires x !in options
    ensures Bytes(Unlines([x] + InOrder(options))) == Bytes(Unlines(InOrder(options + {x})))
  {
    UnlinesCons(x, InOrder(options));
    InOrderSize(options + {x}, x);
    assert options + {x} - {x} == options;
  }

  lemma {:induction false} OptionsSize(options: set<string>)
    ensures Bytes(Unlines(ForcedLines(options) + InOrder(options)))
            == Bytes(Unlines(InOrder(options + {SERVER_CERTIFICATE})))
  {
    if SERVER_CERTIFICATE in options {
      assert ForcedLines(options) + InOrder(options) == InOrder(options);
      assert options + {SERVER_CERTIFICATE} == options;
    } else {
      SizeWith(options, SERVER_CERTIFICATE);
    }
  }

  lemma {:induction false} BytesOfThree(a: seq<string>, b: seq<string>, c: seq<string>)
    ensures Bytes(Unlines(a + b + c)) == Bytes(Unlines(a)) + Bytes(Unlines(b)) + Bytes(Unlines(c))
  {
    UnlinesThree(a, b, c);
    BytesAppend(Unlines(a), Unlines(b));
    BytesAppend(Unlines(a) + Unlines(b), Unlines(c));
  }

  /** The forced line moves, so the second text is as long as the first. */
  lemma RereadSize(p: Profile, ip: Ipv4)
    requires WellFormed(p, ip) && p.remote.Some?
    ensures Bytes(Rendered(Reread(p))) == Bytes(Rendered(p))
  {
    var header, blocks := HeaderLines(p.remote.value), AllBlockLines(p.blocks, BLOCK_NAMES);
    RereadKeeps(p, ip);
    RenderedText(p, ip);
    RenderedText(Reread(p), ip);
    OptionsSize(p.options);
    BytesOfThree(header, ForcedLines(p.options) + InOrder(p.options), blocks);
    assert ForcedLines(Reread(p).options) + InOrder(Reread(p).options) == InOrder(Reread(p).options);
    BytesOfThree(header, InOrder(Reread(p).options), blocks);
  }

  /** Sanitizing the sanitizer's own output succeeds exactly when the output is within the size
      limit; it keeps remote and blocks and adds at most `remote-cert-tls server` to the options;
      and from then on the text is a fixed point. */
  lemma ResanitizingIsStable(text: string, ip: Ipv4)
    requires Sanitize(text, ip).Success?
    ensures var first := Sanitize(text, ip).value;
            var again := Sanitize(first.rendered, ip);
            if Bytes(first.rendered) > MAX_PROFILE_BYTES then again == Failure(TooLarge)
            else
              && again.Success? && again.value.remote == first.remote
              && Parse(first.rendered, ip) == Success(Reread(Parse(text, ip).value))
              && Bytes(again.value.rendered) == Bytes(first.rendered)
              && Sanitize(again.value.rendered, ip) == again
  {
    var p := Parse(text, ip).value;
    AcceptedIsWellFormed(text, ip);
    RereadIsParsed(p, ip);
    RereadKeeps(p, ip);
    RereadSize(p, ip);
    RereadIsParsed(Reread(p), ip);
  }

  // ----- when the text is already a fixed point -----

  lemma CancelMiddle(a: seq<string>, b: seq<string>, b': seq<string>, c: seq<string>)
    requires a + b + c == a + b' + c
    ensures b == b'
  {
    assert |b| == |b'|;
    assert (a + b + c)[|a|..|a| + |b|] == b;
    assert (a + b' + c)[|a|..|a| + |b'|] == b';
  }

  lemma {:induction false} ForcedLineIsInPlace(options: set<string>, x: string)
    requires x !in options
    ensures [x] + InOrder(options) == InOrder(options + {x}) <==> IsFirst(x, options + {x})
  {
    var all := options + {x};
    assert all - {x} == options;
    FirstExists(all);
    var s :| IsFirst(s, all);
    InOrderCons(all, s);
    if IsFirst(x, all) { InOrderCons(all, x); }
    if [x] + InOrder(options) == InOrder(all) { assert ([s] + InOrder(all - {s}))[0] == ([x] + InOrder(options))[0]; }
  }

  /** The very first output is already a fixed point exactly when the profile stated the option
      itself or no other option sorts before it. */
  lemma FirstTextIsFixedWhen(p: Profile, ip: Ipv4)
    requires WellFormed(p, ip) && p.remote.Some?
    ensures Rendered(Reread(p)) == Rendered(p) <==>
            SERVER_CERTIFICATE in p.options || IsFirst(SERVER_CERTIFICATE, p.options + {SERVER_CERTIFICATE})
  {
    var header, blocks := HeaderLines(p.remote.value), AllBlockLines(p.blocks, BLOCK_NAMES);
    var middle, middle' := ForcedLines(p.options) + InOrder(p.options), InOrder(p.options + {SERVER_CERTIFICATE});
    RereadKeeps(p, ip);
    RenderedIsPrintable(p, ip);
    RenderedIsPrintable(Reread(p), ip);
    RenderedText(p, ip);
    RenderedText(Reread(p), ip);
    assert ForcedLines(Reread(p).options) + InOrder(Reread(p).options) == middle';
    if Rendered(Reread(p)) == Rendered(p) { CancelMiddle(header, middle, middle', blocks); }
    if SERVER_CERTIFICATE in p.options {
      assert p.options + {SERVER_CERTIFICATE} == p.options && middle == middle';
    } else {
      ForcedLineIsInPlace(p.options, SERVER_CERTIFICATE);
    }
  }
}
