/** A sanitized profile runs no script and reads no file: neither its input nor its output has a
    directive outside the allowlist. */
module ProfileSafety {
  import opened Wrappers
  import opened Texts
  import opened Addresses
  import opened AddressTexts
  import opened OpenVpn
  import opened ProfileReading
  import opened ProfileTheorems

  /** The words of a directive that the sanitizer knows and finds harmless. */
  predicate IsHarmless(words: seq<string>) {
    && words != [] && KindOf(Lower(words[0])) !in {Dangerous, FileReference}
    && (KindOf(Lower(words[0])) == Other ==> words == ["setenv", "opt", "block-outside-dns"])
  }

  /** The lines of a text that are neither comments nor inside inline blocks, as words. */
  function DirectiveLines(ls: seq<string>): seq<seq<string>>
    decreases |ls|
  {
    if ls == [] then []
    else
      var line := StripReturns(Trim(ls[0]));
      if IsSkipped(line) then DirectiveLines(ls[1..])
      else if OpeningBlock(line).Some? then
        var block := ReadBlock(ls[1..], OpeningBlock(line).value, "");
        if block.None? then [] else DirectiveLines(block.value.1)
      else if Words(line) == [] then DirectiveLines(ls[1..])
      else [Words(line)] + DirectiveLines(ls[1..])
  }

  /** A text with a single directive that is dangerous, unknown or a file reference is refused. */
  lemma {:induction false} AcceptedDirectivesAreHarmless(ls: seq<string>, p: Profile, ip: Ipv4)
    requires ParseLines(ls, p, ip).Success?
    ensures forall words :: words in DirectiveLines(ls) ==> IsHarmless(words)
    decreases |ls|
  {
    if ls != [] {
      var line := StripReturns(Trim(ls[0]));
      if IsSkipped(line) {
        AcceptedDirectivesAreHarmless(ls[1..], p, ip);
      } else if OpeningBlock(line).Some? {
        var name := OpeningBlock(line).value;
        var block := ReadBlock(ls[1..], name, "").value;
        AcceptedDirectivesAreHarmless(block.1, p.(blocks := p.blocks[name := block.0]), ip);
      } else if Words(line) == [] {
        AcceptedDirectivesAreHarmless(ls[1..], p, ip);
      } else {
        AcceptedDirectivesAreHarmless(ls[1..], Directive(p, Words(line), ip).value, ip);
      }
    }
  }

  /** So neither the downloaded profile nor the text handed to the helper contains one. */
  lemma {:induction false} SanitizedIsHarmless(text: string, ip: Ipv4)
    requires Sanitize(text, ip).Success?
    ensures forall words :: words in DirectiveLines(Lines(text)) ==> IsHarmless(words)
    ensures forall words :: words in DirectiveLines(Lines(Sanitize(text, ip).value.rendered)) ==> IsHarmless(words)
  {
    var p := Parse(text, ip).value;
    AcceptedDirectivesAreHarmless(Lines(text), START, ip);
    AcceptedIsWellFormed(text, ip);
    RenderedIsPrintable(p, ip);
    RenderedIsAccepted(p, ip);
    AcceptedDirectivesAreHarmless(RenderedLines(p), START, ip);
  }
}
