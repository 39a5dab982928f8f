/** The exporter reads scalars and blocks back out of a sanitized profile by scanning its lines. */
module Mihomo {
  import opened Wrappers
  import opened Texts
  import opened Addresses
  import opened AddressTexts
  import opened OpenVpn
  import opened ProfileReading
  import opened ProfileTheorems

  // ----- inline blocks -----

  /** The lines up to the closing line, joined. */
  function BodyUntil(ls: seq<string>, closing: string): Option<string> {
    if ls == [] then None
    else if ls[0] == closing then Some("")
    else
      var rest := BodyUntil(ls[1..], closing);
      if rest.None? then None else Some(ls[0] + "\n" + rest.value)
  }

  function ScanBlock(ls: seq<string>, name: string): Option<string> {
    if ls == [] then None
    else if ls[0] != Opening(name) then ScanBlock(ls[1..], name)
    else
      var body := BodyUntil(ls[1..], Closing(name));
      if body.Some? && body.value != "" then body else None
  }

  method InlineBlock(profile: string, name: string) returns (r: Option<string>)
    ensures r == ScanBlock(Lines(profile), name)
  {
    var opening, closing := "<" + name + ">", "</" + name + ">";
    var lines := Lines(profile);
    var i := 0;
    while i < |lines| && lines[i] != opening
      invariant i <= |lines| && ScanBlock(lines, name) == ScanBlock(lines[i..], name)
    {
      assert lines[i..][1..] == lines[i + 1..];
      i := i + 1;
    }
    if i == |lines| { return None; }
    assert lines[i..][1..] == lines[i + 1..];
    ghost var start := i + 1;
    i := i + 1;
    var body := "";
    while i < |lines|
      invariant start <= i <= |lines|
      invariant var whole, rest := BodyUntil(lines[start..], closing), BodyUntil(lines[i..], closing);
                (whole.Some? <==> rest.Some?) && (whole.Some? ==> whole.value == body + rest.value)
    {
      assert lines[i..][1..] == lines[i + 1..];
      if lines[i] == closing {
        assert BodyUntil(lines[i..], closing) == Some("") && body + "" == body;
        return if body != "" then Some(body) else None;
      }
      body := body + lines[i] + "\n";
      i := i + 1;
    }
    r := None;
  }

  lemma {:induction false} ScanSkips(a: seq<string>, b: seq<string>, name: string)
    requires Opening(name) !in a
    ensures ScanBlock(a + b, name) == ScanBlock(b, name)
    decreases |a|
  {
    if a == [] {
      assert a + b == b;
    } else {
      assert (a + b)[0] == a[0] && (a + b)[1..] == a[1..] + b;
      ScanSkips(a[1..], b, name);
    }
  }

  lemma {:induction false} BodyIsCollected(ls: seq<string>, closing: string, rest: seq<string>)
    requires closing !in ls
    ensures BodyUntil(ls + [closing] + rest, closing) == Some(Unlines(ls))
    decreases |ls|
  {
    var all := ls + [closing] + rest;
    if ls == [] {
      assert all[0] == closing;
    } else {
      assert all[0] == ls[0] && all[1..] == ls[1..] + [closing] + rest;
      BodyIsCollected(ls[1..], closing, rest);
    }
  }

  lemma {:induction false} ScanHits(name: string, body: string, rest: seq<string>)
    requires name in BLOCK_NAMES && IsBody(name, body)
    ensures ScanBlock(BlockLines(name, Lines(body)) + rest, name) == Some(body)
  {
    var ls := Lines(body);
    NameIsClean(name);
    BlockLinesParts(name, ls, rest);
    assert Closing(name) !in ls;
    BodyIsCollected(ls, Closing(name), rest);
  }

  lemma OpeningsDiffer(name: string, other: string)
    requires name in BLOCK_NAMES && other in BLOCK_NAMES && Opening(name) == Opening(other)
    ensures name == other
  {
    NameIsClean(name);
    NameIsClean(other);
  }

  lemma OtherBlocksAreSkipped(blocks: map<string, string>, other: string, name: string)
    requires name in BLOCK_NAMES && other in BLOCK_NAMES && other != name
    requires other in blocks ==> IsBody(other, blocks[other])
    ensures Opening(name) !in LinesIfStored(blocks, other)
  {
    NameIsClean(name);
    if other in blocks {
      if Opening(name) == Opening(other) { OpeningsDiffer(name, other); }
      assert Closing(other)[1] == '/' && Opening(name)[1] == name[0];
      assert Opening(name) !in Lines(blocks[other]);
    }
  }

  lemma {:induction false} ScanFindsBlock(blocks: map<string, string>, names: seq<string>, name: string)
    requires name in BLOCK_NAMES && AreStorable(blocks, names) && NoRepeats(names)
    ensures ScanBlock(AllBlockLines(blocks, names), name)
            == if name in names && name in blocks then Some(blocks[name]) else None
    decreases |names|
  {
    if names != [] {
      var rest := AllBlockLines(blocks, names[1..]);
      if names[0] != name || name !in blocks {
        if names[0] != name { OtherBlocksAreSkipped(blocks, names[0], name); }
        ScanSkips(LinesIfStored(blocks, names[0]), rest, name);
        ScanFindsBlock(blocks, names[1..], name);
      } else {
        ScanHits(name, blocks[name], rest);
      }
    }
  }

  predicate StartsWithLetter(l: string) { l != "" && 'a' <= l[0] <= 'z' }

  predicate AllStartWithLetter(ls: seq<string>) { forall i :: 0 <= i < |ls| ==> StartsWithLetter(ls[i]) }

  lemma OptionStartsWithLetter(o: string)
    requires IsOption(o)
    ensures StartsWithLetter(o)
  {
    var d, v :| IsOptionPair(d, v) && o == d + " " + v;
    PairIsPlain(d, v);
    assert o[0] == d[0];
  }

  lemma DirectivesStartWithLetter(p: Profile, ip: Ipv4)
    requires WellFormed(p, ip) && p.remote.Some?
    ensures AllStartWithLetter(HeaderLines(p.remote.value) + (ForcedLines(p.options) + InOrder(p.options)))
  {
    PrintedOptionsAreOptions(p.options);
    var ls := ForcedLines(p.options) + InOrder(p.options);
    forall i | 0 <= i < |ls| ensures StartsWithLetter(ls[i]) {
      assert ls[i] in ls;
      OptionStartsWithLetter(ls[i]);
    }
    HeaderStartsWithLetter(p.remote.value);
  }

  lemma HeaderStartsWithLetter(remote: Endpoint)
    ensures AllStartWithLetter(HeaderLines(remote))
  {
    assert RemoteLine(remote)[0] == 'r';
  }

  /** The block scan returns exactly the stored body, and nothing for a block that is absent. */
  lemma {:induction false} BlockScanIsExact(text: string, ip: Ipv4, name: string)
    requires Sanitize(text, ip).Success? && name in BLOCK_NAMES
    ensures var blocks := Parse(text, ip).value.blocks;
            ScanBlock(Lines(Sanitize(text, ip).value.rendered), name)
            == if name in blocks then Some(blocks[name]) else None
  {
    var p := Parse(text, ip).value;
    AcceptedIsWellFormed(text, ip);
    RenderedIsPrintable(p, ip);
    var front := HeaderLines(p.remote.value) + (ForcedLines(p.options) + InOrder(p.options));
    DirectivesStartWithLetter(p, ip);
    assert Opening(name) !in front;
    ScanSkips(front, AllBlockLines(p.blocks, BLOCK_NAMES), name);
    AllNames(p.blocks);
    ScanFindsBlock(p.blocks, BLOCK_NAMES, name);
  }

  // ----- scalars -----

  predicate IsNamed(line: string, directive: string) {
    Find(line, ' ') < |line| && line[..Find(line, ' ')] == directive
  }

  function ValueOf(line: string): string
    requires Find(line, ' ') < |line|
  {
    line[Find(line, ' ') + 1..]
  }

  function Scalar(ls: seq<string>, directive: string): Option<string> {
    if ls == [] then None
    else if IsNamed(ls[0], directive) then Some(ValueOf(ls[0]))
    else Scalar(ls[1..], directive)
  }

  lemma {:induction false} ScalarSkips(a: seq<string>, b: seq<string>, directive: string)
    requires forall i :: 0 <= i < |a| ==> !IsNamed(a[i], directive)
    ensures Scalar(a + b, directive) == Scalar(b, directive)
    decreases |a|
  {
    if a == [] {
      assert a + b == b;
    } else {
      assert (a + b)[0] == a[0] && (a + b)[1..] == a[1..] + b;
      ScalarSkips(a[1..], b, directive);
    }
  }

  lemma {:induction false} ScalarHits(a: seq<string>, b: seq<string>, directive: string)
    requires Scalar(a, directive).Some?
    ensures Scalar(a + b, directive) == Scalar(a, directive)
    decreases |a|
  {
    assert (a + b)[0] == a[0] && (a + b)[1..] == a[1..] + b;
    if !IsNamed(a[0], directive) { ScalarHits(a[1..], b, directive); }
  }

  lemma {:induction false} ScalarIsNone(a: seq<string>, directive: string)
    ensures Scalar(a, directive).None? <==> forall i :: 0 <= i < |a| ==> !IsNamed(a[i], directive)
    decreases |a|
  {
    if a != [] { ScalarIsNone(a[1..], directive); }
  }

  lemma NameOfPair(d: string, v: string)
    requires ' ' !in d
    ensures var line := d + " " + v; Find(line, ' ') == |d| && line[..|d|] == d && ValueOf(line) == v
  {
    var line := d + " " + v;
    assert line[|d|] == ' ' && forall i :: 0 <= i < |d| ==> line[i] == d[i];
  }

  lemma {:induction false} PrefixKeepsOrder(d: string, v: string, w: string)
    ensures Precedes(d + v, d + w) <==> Precedes(v, w)
    decreases |d|
  {
    if d == "" {
      assert d + v == v && d + w == w;
    } else {
      assert (d + v)[1..] == d[1..] + v && (d + w)[1..] == d[1..] + w;
      PrefixKeepsOrder(d[1..], v, w);
    }
  }

  /** `v` is the smallest value that the options give to `d`. */
  ghost predicate IsSmallestValue(v: string, d: string, options: set<string>) {
    d + " " + v in options && forall w :: d + " " + w in options ==> Precedes(v, w)
  }

  ghost predicate HasValue(d: string, options: set<string>) { exists v :: d + " " + v in options }

  lemma NamedIsPair(line: string, d: string)
    requires IsNamed(line, d)
    ensures line == d + " " + ValueOf(line)
  {
  }

  lemma FirstNamedIsSmallest(s: string, d: string, options: set<string>)
    requires IsFirst(s, options) && IsNamed(s, d)
    ensures IsSmallestValue(ValueOf(s), d, options)
  {
    NamedIsPair(s, d);
    forall w | d + " " + w in options ensures Precedes(ValueOf(s), w) {
      PrefixKeepsOrder(d + " ", ValueOf(s), w);
    }
  }

  lemma SmallestWithout(s: string, d: string, v: string, options: set<string>)
    requires !IsNamed(s, d) && ' ' !in d && IsSmallestValue(v, d, options - {s})
    ensures IsSmallestValue(v, d, options)
  {
    forall w | d + " " + w in options ensures Precedes(v, w) { NameOfPair(d, w); }
  }

  lemma {:induction false} ScalarOfOptions(options: set<string>, d: string)
    requires ' ' !in d
    ensures var r := Scalar(InOrder(options), d);
            (r.Some? <==> HasValue(d, options)) && (r.Some? ==> IsSmallestValue(r.value, d, options))
    decreases |options|
  {
    if options != {} {
      FirstExists(options);
      var s :| IsFirst(s, options);
      InOrderCons(options, s);
      if IsNamed(s, d) {
        FirstNamedIsSmallest(s, d, options);
      } else {
        ScalarOfOptions(options - {s}, d);
        var r := Scalar(InOrder(options - {s}), d);
        if r.Some? { SmallestWithout(s, d, r.value, options); }
        if v :| d + " " + v in options { NameOfPair(d, v); assert d + " " + v in options - {s}; }
      }
    }
  }

  /** The scalars that the exporter looks up. */
  const EXPORTED: set<string> := {"cipher", "auth", "data-ciphers", "data-ciphers-fallback", "key-direction"}

  predicate NoneNamed(ls: seq<string>, d: string) { forall i :: 0 <= i < |ls| ==> !IsNamed(ls[i], d) }

  lemma OneWordIsNotNamed(line: string, d: string)
    requires ' ' !in line
    ensures NoneNamed([line], d)
  {
  }

  lemma PairIsNotNamed(line: string, e: string, v: string, d: string)
    requires line == e + " " + v && ' ' !in e && e != d
    ensures NoneNamed([line], d)
  {
    NameOfPair(e, v);
  }

  lemma FixedIsNotNamed(d: string)
    requires d in EXPORTED
    ensures NoneNamed(FixedLines(), d)
  {
    OneWordIsNotNamed("nobind", d);
    OneWordIsNotNamed("persist-key", d);
    OneWordIsNotNamed("persist-tun", d);
    OneWordIsNotNamed("auth-nocache", d);
    PairIsNotNamed("verb 3", "verb", "3", d);
  }

  lemma EndpointIsNotNamed(remote: Endpoint, d: string)
    requires d in EXPORTED
    ensures NoneNamed(EndpointLines(remote), d)
  {
    PairIsNotNamed("dev tun", "dev", "tun", d);
    PairIsNotNamed("proto tcp-client", "proto", "tcp-client", d);
    var rest := ShowIpv4(remote.ip) + " " + Show(remote.port) + " tcp-client";
    assert RemoteLine(remote) == "remote" + " " + rest;
    PairIsNotNamed(RemoteLine(remote), "remote", rest, d);
  }

  lemma ForcedIsNotNamed(options: set<string>, d: string)
    requires d in EXPORTED
    ensures NoneNamed(ForcedLines(options), d)
  {
    PairIsNotNamed(SERVER_CERTIFICATE, "remote-cert-tls", "server", d);
  }

  lemma FrontIsNotNamed(remote: Endpoint, options: set<string>, d: string)
    requires d in EXPORTED
    ensures NoneNamed(HeaderLines(remote) + ForcedLines(options), d)
  {
    OneWordIsNotNamed("client", d);
    EndpointIsNotNamed(remote, d);
    FixedIsNotNamed(d);
    ForcedIsNotNamed(options, d);
  }

  /** Some stored body has a line whose first word is `d`. */
  ghost predicate InSomeBody(d: string, blocks: map<string, string>, names: seq<string>) {
    exists name, i :: name in names && name in blocks && 0 <= i < |Lines(blocks[name])| && IsNamed(Lines(blocks[name])[i], d)
  }

  lemma TagsAreNotNamed(name: string, d: string)
    requires name in BLOCK_NAMES
    ensures !IsNamed(Opening(name), d) && !IsNamed(Closing(name), d)
  {
    NameIsWord(name);
    TagsArePlain(name);
  }

  lemma StoredIsNamedWhen(blocks: map<string, string>, name: string, d: string)
    requires name in BLOCK_NAMES
    ensures NoneNamed(LinesIfStored(blocks, name), d) <==> !InSomeBody(d, blocks, [name])
  {
    TagsAreNotNamed(name, d);
    if name in blocks {
      var ls, all := Lines(blocks[name]), LinesIfStored(blocks, name);
      assert forall i :: 0 <= i < |ls| ==> all[1 + i] == ls[i];
      assert all[0] == Opening(name) && all[|ls| + 1] == Closing(name);
      if i :| 0 <= i < |ls| && IsNamed(ls[i], d) { assert name in [name]; assert IsNamed(all[1 + i], d); }
      if i :| 0 <= i < |all| && IsNamed(all[i], d) { assert all[i] == ls[i - 1]; assert name in [name]; }
    }
  }

  lemma {:induction false} BlocksAreNamedWhen(blocks: map<string, string>, names: seq<string>, d: string)
    requires forall name :: name in names ==> name in BLOCK_NAMES
    ensures NoneNamed(AllBlockLines(blocks, names), d) <==> !InSomeBody(d, blocks, names)
    decreases |names|
  {
    if names != [] {
      StoredIsNamedWhen(blocks, names[0], d);
      BlocksAreNamedWhen(blocks, names[1..], d);
      NoneNamedAppend(LinesIfStored(blocks, names[0]), AllBlockLines(blocks, names[1..]), d);
      InSomeBodySplit(d, blocks, names);
    }
  }

  lemma NoneNamedAppend(a: seq<string>, b: seq<string>, d: string)
    ensures NoneNamed(a + b, d) <==> NoneNamed(a, d) && NoneNamed(b, d)
  {
    assert forall i :: 0 <= i < |a| ==> (a + b)[i] == a[i];
    assert forall i :: 0 <= i < |b| ==> (a + b)[|a| + i] == b[i];
  }

  lemma InSomeBodySplit(d: string, blocks: map<string, string>, names: seq<string>)
    requires names != []
    ensures InSomeBody(d, blocks, names) <==> InSomeBody(d, blocks, [names[0]]) || InSomeBody(d, blocks, names[1..])
  {
    assert names == [names[0]] + names[1..];
  }

  lemma {:induction false} ScalarOfLines(front: seq<string>, options: set<string>, back: seq<string>, d: string)
    requires NoneNamed(front, d) && ' ' !in d
    ensures var r := Scalar(front + InOrder(options) + back, d);
            if HasValue(d, options) then r.Some? && IsSmallestValue(r.value, d, options) else r == Scalar(back, d)
  {
    assert front + InOrder(options) + back == front + (InOrder(options) + back);
    ScalarSkips(front, InOrder(options) + back, d);
    ScalarOfOptions(options, d);
    if HasValue(d, options) {
      ScalarHits(InOrder(options), back, d);
    } else {
      ScalarIsNone(InOrder(options), d);
      ScalarSkips(InOrder(options), back, d);
    }
  }

  lemma RenderedLinesParts(p: Profile)
    requires p.remote.Some?
    ensures RenderedLines(p) == HeaderLines(p.remote.value) + ForcedLines(p.options) + InOrder(p.options)
                                + AllBlockLines(p.blocks, BLOCK_NAMES)
  {
  }

  lemma ExportedIsOneWord(d: string)
    requires d in EXPORTED
    ensures ' ' !in d
  {
  }

  lemma SmallestIsUnique(v: string, w: string, d: string, options: set<string>)
    requires IsSmallestValue(v, d, options) && IsSmallestValue(w, d, options)
    ensures v == w
  {
    FirstIsUnique(v, w, {v, w});
  }

  /** What the options say about `d`; of several values the smallest. */
  ghost function Setting(options: set<string>, d: string): (r: Option<string>)
    requires d in EXPORTED
    ensures r.Some? <==> HasValue(d, options)
    ensures r.Some? ==> IsSmallestValue(r.value, d, options)
  {
    if HasValue(d, options) then
      ExportedIsOneWord(d);
      ScalarOfOptions(options, d);
      var v :| IsSmallestValue(v, d, options);
      Some(v)
    else None
  }

  /** The lines of the stored bodies, without the tags around them. */
  function BodyLines(blocks: map<string, string>, names: seq<string>): seq<string> {
    if names == [] then []
    else (if names[0] in blocks then Lines(blocks[names[0]]) else []) + BodyLines(blocks, names[1..])
  }

  lemma {:induction false} ScalarOfTwo(a: seq<string>, b: seq<string>, d: string)
    ensures Scalar(a + b, d) == if Scalar(a, d).Some? then Scalar(a, d) else Scalar(b, d)
  {
    ScalarIsNone(a, d);
    if Scalar(a, d).Some? { ScalarHits(a, b, d); } else { ScalarSkips(a, b, d); }
  }

  lemma {:induction false} TagsAreSkipped(blocks: map<string, string>, name: string, d: string)
    requires name in BLOCK_NAMES
    ensures Scalar(LinesIfStored(blocks, name), d) == if name in blocks then Scalar(Lines(blocks[name]), d) else None
  {
    if name in blocks {
      var ls := Lines(blocks[name]);
      TagsAreNotNamed(name, d);
      ScalarIsNone([Opening(name)], d);
      ScalarIsNone([Closing(name)], d);
      ScalarOfTwo([Opening(name)] + ls, [Closing(name)], d);
      ScalarOfTwo([Opening(name)], ls, d);
    }
  }

  lemma {:induction false} ScalarOfBlocks(blocks: map<string, string>, names: seq<string>, d: string)
    requires forall name :: name in names ==> name in BLOCK_NAMES
    ensures Scalar(AllBlockLines(blocks, names), d) == Scalar(BodyLines(blocks, names), d)
    decreases |names|
  {
    if names != [] {
      var rest := names[1..];
      ScalarOfBlocks(blocks, rest, d);
      TagsAreSkipped(blocks, names[0], d);
      ScalarOfTwo(LinesIfStored(blocks, names[0]), AllBlockLines(blocks, rest), d);
      ScalarOfTwo(if names[0] in blocks then Lines(blocks[names[0]]) else [], BodyLines(blocks, rest), d);
    }
  }

  /** What the exporter takes for the value of `d`: the setting, or else what follows `d` in the first
      body line that begins with it. */
  ghost function Exported(p: Profile, d: string): Option<string>
    requires d in EXPORTED
  {
    if HasValue(d, p.options) then Setting(p.options, d) else Scalar(BodyLines(p.blocks, BLOCK_NAMES), d)
  }

  /** The options say nothing about `d`, but a body line begins with it. */
  ghost predicate IsPickedUp(p: Profile, d: string) { !HasValue(d, p.options) && InSomeBody(d, p.blocks, BLOCK_NAMES) }

  /** The scan finds the setting; without one it finds nothing exactly if no body line is picked up. */
  lemma {:induction false} ScalarScanIsExact(text: string, ip: Ipv4, d: string)
    requires Sanitize(text, ip).Success? && d in EXPORTED
    ensures var p := Parse(text, ip).value;
            var r := Scalar(Lines(Sanitize(text, ip).value.rendered), d);
            r == Exported(p, d) && (r == Setting(p.options, d) <==> !IsPickedUp(p, d))
  {
    var p := Parse(text, ip).value;
    AcceptedIsWellFormed(text, ip);
    RenderedIsPrintable(p, ip);
    RenderedLinesParts(p);
    FrontIsNotNamed(p.remote.value, p.options, d);
    ExportedIsOneWord(d);
    var back := AllBlockLines(p.blocks, BLOCK_NAMES);
    var front := HeaderLines(p.remote.value) + ForcedLines(p.options);
    ScalarOfLines(front, p.options, back, d);
    if HasValue(d, p.options) {
      SmallestIsUnique(Scalar(front + InOrder(p.options) + back, d).value, Setting(p.options, d).value, d, p.options);
    }
    ScalarIsNone(back, d);
    BlocksAreNamedWhen(p.blocks, BLOCK_NAMES, d);
    ScalarOfBlocks(p.blocks, BLOCK_NAMES, d);
  }
}
