/** The exported record of a sanitized profile. */
module MihomoExport {
  import opened Wrappers
  import opened Texts
  import opened Addresses
  import opened AddressTexts
  import opened OpenVpn
  import opened ProfileReading
  import opened ProfileTheorems
  import opened ProfileLimits
  import opened Mihomo

  datatype Export = Export(
    ca: string,
    cert: string,
    key: string,
    tlsAuth: Option<string>,
    tlsCrypt: Option<string>,
    cipher: Option<string>,
    auth: Option<string>,
    dataCiphers: seq<string>,
    dataCiphersFallback: Option<string>,
    keyDirection: Option<string>)

  function Upper(s: string): string {
    seq(|s|, i requires 0 <= i < |s| => if 'a' <= s[i] <= 'z' then (s[i] as int - 32) as char else s[i])
  }

  predicate IsCipher(v: string) {
    Upper(v) in {"AES-CBC", "AES-128-CBC", "AES-192-CBC", "AES-256-CBC", "AES-128-GCM", "AES-192-GCM", "AES-256-GCM",
                 "CHACHA20-POLY1305"}
  }

  predicate IsAuth(v: string) { Upper(v) in {"MD5", "SHA1", "SHA256", "SHA384", "SHA512"} }

  /** The non-empty parts between colons and commas. */
  function CipherList(s: string): seq<string>
    decreases |s|
  {
    if s == "" then []
    else
      var colon, comma := Find(s, ':'), Find(s, ',');
      var k := if colon < comma then colon else comma;
      (if k == 0 then [] else [s[..k]]) + (if k == |s| then [] else CipherList(s[k + 1..]))
  }

  function DataCiphers(value: Option<string>): seq<string> { if value.None? then [] else CipherList(value.value) }

  /** Every algorithm is one the target program knows. */
  predicate IsSupported(cipher: Option<string>, dataCiphers: seq<string>, fallback: Option<string>, auth: Option<string>) {
    && (cipher.Some? ==> IsCipher(cipher.value))
    && (forall i :: 0 <= i < |dataCiphers| ==> IsCipher(dataCiphers[i]))
    && (fallback.Some? ==> IsCipher(fallback.value))
    && (auth.Some? ==> IsAuth(auth.value))
  }

  function FromSanitized(profile: string): Option<Export> {
    var ls := Lines(profile);
    var cipher, auth := Scalar(ls, "cipher"), Scalar(ls, "auth");
    var dataCiphers, fallback := DataCiphers(Scalar(ls, "data-ciphers")), Scalar(ls, "data-ciphers-fallback");
    if !IsSupported(cipher, dataCiphers, fallback, auth) then None
    else
      var tlsAuth, tlsCrypt := ScanBlock(ls, "tls-auth"), ScanBlock(ls, "tls-crypt");
      if tlsAuth.Some? && tlsCrypt.Some? then None
      else
        var ca, cert, key := ScanBlock(ls, "ca"), ScanBlock(ls, "cert"), ScanBlock(ls, "key");
        if ca.None? || cert.None? || key.None? then None
        else
          Some(Export(ca.value, cert.value, key.value, tlsAuth, tlsCrypt, cipher, auth, dataCiphers, fallback,
                      Scalar(ls, "key-direction")))
  }

  function Stored(blocks: map<string, string>, name: string): Option<string> {
    if name in blocks then Some(blocks[name]) else None
  }

  predicate HasBothTls(blocks: map<string, string>) { "tls-auth" in blocks && "tls-crypt" in blocks }

  /** The record carries exactly the stored blocks. */
  predicate CarriesBlocks(r: Export, blocks: map<string, string>) {
    && Some(r.ca) == Stored(blocks, "ca") && Some(r.cert) == Stored(blocks, "cert") && Some(r.key) == Stored(blocks, "key")
    && r.tlsAuth == Stored(blocks, "tls-auth") && r.tlsCrypt == Stored(blocks, "tls-crypt")
  }

  lemma ExportKeepsBlocks(text: string, ip: Ipv4)
    requires Sanitize(text, ip).Success?
    ensures var p, ls := Parse(text, ip).value, Lines(Sanitize(text, ip).value.rendered);
            var r := FromSanitized(Sanitize(text, ip).value.rendered);
            && (r.None? <==> !IsSupported(Scalar(ls, "cipher"), DataCiphers(Scalar(ls, "data-ciphers")),
                                          Scalar(ls, "data-ciphers-fallback"), Scalar(ls, "auth")) || HasBothTls(p.blocks))
            && (r.Some? ==> CarriesBlocks(r.value, p.blocks))
  {
    BlockScanIsExact(text, ip, "ca");
    BlockScanIsExact(text, ip, "cert");
    BlockScanIsExact(text, ip, "key");
    BlockScanIsExact(text, ip, "tls-auth");
    BlockScanIsExact(text, ip, "tls-crypt");
  }

  /** An accepted profile is left out of the export for its exported algorithms or for having both TLS
      blocks, never for a missing certificate; a record carries the blocks of the profile and its
      exported scalars. */
  lemma {:induction false} ExportIsExact(text: string, ip: Ipv4)
    requires Sanitize(text, ip).Success?
    ensures var p := Parse(text, ip).value;
            var r := FromSanitized(Sanitize(text, ip).value.rendered);
            && (r.None? <==> || HasBothTls(p.blocks)
                             || !IsSupported(Exported(p, "cipher"), DataCiphers(Exported(p, "data-ciphers")),
                                             Exported(p, "data-ciphers-fallback"), Exported(p, "auth")))
            && (r.Some? ==> && CarriesBlocks(r.value, p.blocks)
                            && r.value.cipher == Exported(p, "cipher") && r.value.auth == Exported(p, "auth")
                            && r.value.dataCiphers == DataCiphers(Exported(p, "data-ciphers"))
                            && r.value.dataCiphersFallback == Exported(p, "data-ciphers-fallback")
                            && r.value.keyDirection == Exported(p, "key-direction"))
  {
    ExportKeepsBlocks(text, ip);
    ScalarScanIsExact(text, ip, "cipher");
    ScalarScanIsExact(text, ip, "auth");
    ScalarScanIsExact(text, ip, "data-ciphers");
    ScalarScanIsExact(text, ip, "data-ciphers-fallback");
    ScalarScanIsExact(text, ip, "key-direction");
  }

  /** Where no body line is picked up, only the options and the two TLS blocks decide, and the record
      says what the options say. */
  lemma {:induction false} ExportFollowsOptions(text: string, ip: Ipv4)
    requires Sanitize(text, ip).Success?
    requires forall d :: d in EXPORTED ==> !IsPickedUp(Parse(text, ip).value, d)
    ensures var p := Parse(text, ip).value;
            var r := FromSanitized(Sanitize(text, ip).value.rendered);
            && (r.None? <==> || HasBothTls(p.blocks)
                             || !IsSupported(Setting(p.options, "cipher"), DataCiphers(Setting(p.options, "data-ciphers")),
                                             Setting(p.options, "data-ciphers-fallback"), Setting(p.options, "auth")))
            && (r.Some? ==> && CarriesBlocks(r.value, p.blocks)
                            && r.value.cipher == Setting(p.options, "cipher") && r.value.auth == Setting(p.options, "auth")
                            && r.value.dataCiphers == DataCiphers(Setting(p.options, "data-ciphers"))
                            && r.value.dataCiphersFallback == Setting(p.options, "data-ciphers-fallback")
                            && r.value.keyDirection == Setting(p.options, "key-direction"))
  {
    ExportIsExact(text, ip);
    ScalarScanIsExact(text, ip, "cipher");
    ScalarScanIsExact(text, ip, "auth");
    ScalarScanIsExact(text, ip, "data-ciphers");
    ScalarScanIsExact(text, ip, "data-ciphers-fallback");
    ScalarScanIsExact(text, ip, "key-direction");
  }

  // ----- a body line that is picked up -----

  /** A certificate block with the single line `cipher v`. */
  function CipherBody(v: string): string { "cipher " + v + "\n" }

  function CipherBlocks(v: string): map<string, string> {
    map["ca" := CipherBody(v), "cert" := Body(1), "key" := Body(1)]
  }

  predicate IsShortWord(v: string) { IsPlainWord(v) && |v| <= 256 }

  lemma {:induction false} CipherLineIsPrintable(v: string)
    requires IsShortWord(v)
    ensures IsPrintable("cipher " + v) && Bytes("cipher " + v) == |v| + 7
  {
    var line := "cipher " + v;
    assert forall i :: 0 <= i < |line| ==> 0x20 <= line[i] as int < 0x7f;
    AsciiIsPrintable(line);
    AsciiBytes(line);
  }

  lemma CipherLineIsBlockLine(v: string)
    requires IsShortWord(v)
    ensures IsBlockLine("ca", "cipher " + v)
  {
    var line, words := "cipher " + v, ["cipher", v];
    assert "cipher " == "cipher" + " ";
    PairIsSpaced("cipher", v);
    DirectiveWordIsLower("cipher");
    SpacedIsTrimmed(words);
    assert line[0] == 'c' && Closing("ca")[0] == '<';
  }

  lemma CipherLineIsNamed(v: string)
    ensures IsNamed("cipher " + v, "cipher") && ValueOf("cipher " + v) == v
  {
    assert "cipher " + v == "cipher" + " " + v;
    NameOfPair("cipher", v);
  }

  lemma {:induction false} CipherBodyIsUnlines(v: string)
    ensures Unlines(["cipher " + v]) == CipherBody(v) && CipherBody(v)[0] == 'c'
    ensures Bytes(CipherBody(v)) == Bytes("cipher " + v) + 1
  {
    var line := "cipher " + v;
    assert [] + [line] == [line];
    UnlinesSnoc([], line);
  }

  lemma CipherBodyIsBody(v: string)
    requires IsShortWord(v)
    ensures Lines(CipherBody(v)) == ["cipher " + v] && IsBody("ca", CipherBody(v)) && Bytes(CipherBody(v)) == |v| + 8
  {
    CipherLineIsPrintable(v);
    CipherLineIsBlockLine(v);
    CipherBodyIsUnlines(v);
    LinesOfUnlines(["cipher " + v]);
    TrimEndKeepsVisible(CipherBody(v));
  }

  lemma CipherBlocksAre(v: string)
    ensures HoldsThree(CipherBlocks(v), CipherBody(v), Body(1), Body(1))
  {
    assert |"ca"| == 2 && |"cert"| == 4 && |"key"| == 3 && |"tls-auth"| == 8 && |"tls-crypt"| == 9;
  }

  lemma CipherBlocksAreBodies(v: string)
    requires IsShortWord(v)
    ensures forall name :: name in CipherBlocks(v) ==> name in BLOCK_NAMES && IsBody(name, CipherBlocks(v)[name])
  {
    var blocks := CipherBlocks(v);
    forall name | name in blocks ensures name in BLOCK_NAMES && IsBody(name, blocks[name]) {
      assert name == BLOCK_NAMES[0] || name == BLOCK_NAMES[1] || name == BLOCK_NAMES[2];
      CipherBodyIsBody(v);
      if name != "ca" { BodyIsBody(name, 1); }
    }
  }

  lemma {:induction false} BodyLinesNext(blocks: map<string, string>, name: string, names: seq<string>)
    ensures BodyLines(blocks, [name] + names)
            == (if name in blocks then Lines(blocks[name]) else []) + BodyLines(blocks, names)
  {
    assert ([name] + names)[1..] == names;
  }

  lemma {:induction false} RequiredBodyLines(blocks: map<string, string>, ca: string, cert: string, key: string)
    requires HoldsThree(blocks, ca, cert, key)
    ensures BodyLines(blocks, BLOCK_NAMES) == Lines(ca) + (Lines(cert) + Lines(key))
  {
    BodyLinesNext(blocks, "tls-crypt", []);
    BodyLinesNext(blocks, "tls-auth", ["tls-crypt"]);
    BodyLinesNext(blocks, "key", ["tls-auth", "tls-crypt"]);
    BodyLinesNext(blocks, "cert", ["key", "tls-auth", "tls-crypt"]);
    BodyLinesNext(blocks, "ca", ["cert", "key", "tls-auth", "tls-crypt"]);
  }

  lemma {:induction false} FillerHasNoScalar(n: nat, d: string)
    ensures Scalar(Lines(Body(n)), d).None?
  {
    var ls := Repeated(FILLER, n);
    RepeatedMembers(FILLER, n);
    assert forall i :: 0 <= i < |ls| ==> ls[i] in ls;
    LinesOfUnlines(ls);
    ScalarIsNone(ls, d);
  }

  /** In such a profile exactly `cipher` is picked up. */
  lemma {:induction false} CipherIsPickedUp(p: Profile, v: string, n: nat, d: string)
    requires IsShortWord(v) && p.options == {} && HoldsThree(p.blocks, CipherBody(v), Body(n), Body(n)) && d in EXPORTED
    ensures Exported(p, d) == if d == "cipher" then Some(v) else None
  {
    RequiredBodyLines(p.blocks, CipherBody(v), Body(n), Body(n));
    CipherBodyIsBody(v);
    CipherLineIsNamed(v);
    FillerHasNoScalar(n, d);
    ScalarOfTwo(Lines(Body(n)), Lines(Body(n)), d);
    ScalarOfTwo(["cipher " + v], Lines(Body(n)) + Lines(Body(n)), d);
  }

  lemma {:induction false} CipherBlocksSize(blocks: map<string, string>, v: string, n: nat)
    requires IsShortWord(v) && 0 < n < 100 && HoldsThree(blocks, CipherBody(v), Body(n), Body(n))
    ensures Bytes(Unlines(AllBlockLines(blocks, BLOCK_NAMES))) < 1_000
  {
    CipherBodyIsBody(v);
    BodyIsBody("cert", n);
    BodyIsBody("key", n);
    RequiredBlocksSize(blocks);
  }

  lemma ThreeAreEnough(remote: Endpoint, blocks: map<string, string>, ca: string, cert: string, key: string)
    requires HoldsThree(blocks, ca, cert, key)
    ensures Missing(Large(remote, blocks)).None?
  {
  }

  lemma {:induction false} CompactIsAccepted(remote: Endpoint, blocks: map<string, string>, v: string, n: nat)
    requires IsShortWord(v) && 0 < n < 100 && HoldsThree(blocks, CipherBody(v), Body(n), Body(n))
    requires WellFormed(Large(remote, blocks), remote.ip)
    ensures var text := Unlines(CompactLines(remote, blocks));
            Sanitize(text, remote.ip).Success? && Parse(text, remote.ip) == Success(Large(remote, blocks))
  {
    CipherBlocksSize(blocks, v, n);
    ThreeAreEnough(remote, blocks, CipherBody(v), Body(n), Body(n));
    CompactSize(remote, blocks);
    CompactIsParsed(remote, blocks);
    ParsedIsSanitized(Unlines(CompactLines(remote, blocks)), Large(remote, blocks), remote.ip);
  }

  lemma {:induction false} CipherProfileIsAccepted(remote: Endpoint, v: string)
    requires remote.port > 0 && IsShortWord(v)
    ensures var text := Unlines(CompactLines(remote, CipherBlocks(v)));
            Sanitize(text, remote.ip).Success? && Parse(text, remote.ip) == Success(Large(remote, CipherBlocks(v)))
  {
    CipherBlocksAre(v);
    CipherBlocksAreBodies(v);
    CompactIsAccepted(remote, CipherBlocks(v), v, 1);
  }

  /** For every endpoint and every word there is an accepted profile without any option that is
      exported with that word as its cipher, or left out because the word names no cipher. */
  lemma {:induction false} BodyLineIsExported(remote: Endpoint, v: string)
    requires remote.port > 0 && IsShortWord(v)
    ensures var text := Unlines(CompactLines(remote, CipherBlocks(v)));
            && Sanitize(text, remote.ip).Success? && Parse(text, remote.ip).value.options == {}
            && var r := FromSanitized(Sanitize(text, remote.ip).value.rendered);
               (r.None? <==> !IsCipher(v)) && (r.Some? ==> r.value.cipher == Some(v))
  {
    var text, p, n := Unlines(CompactLines(remote, CipherBlocks(v))), Large(remote, CipherBlocks(v)), 1;
    CipherProfileIsAccepted(remote, v);
    CipherBlocksAre(v);
    ExportIsExact(text, remote.ip);
    CipherIsPickedUp(p, v, n, "cipher");
    CipherIsPickedUp(p, v, n, "auth");
    CipherIsPickedUp(p, v, n, "data-ciphers");
    CipherIsPickedUp(p, v, n, "data-ciphers-fallback");
  }
}
