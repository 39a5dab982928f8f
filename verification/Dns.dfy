/** DNS queries and responses (sections 3.1 and 4.1 of RFC 1035) and the choice of a dialled address. */
module Dns {
  import opened Wrappers
  import opened Bits
  import opened Addresses
  import opened Socks

  datatype DnsError = InvalidInput | InvalidData | NotFound | Unanswered

  const MAX_LABEL_STEPS := 128
  const HEADER_BYTES := 12

  // ----- names -----

  predicate IsLabel(l: Bytes) { 1 <= |l| <= 63 }

  predicate AreLabels(ls: seq<Bytes>) { forall i :: 0 <= i < |ls| ==> IsLabel(ls[i]) }

  /** Length-prefixed labels without the end. */
  function EncodeLabels(ls: seq<Bytes>): Bytes
    requires AreLabels(ls)
  {
    if ls == [] then [] else [|ls[0]|] + ls[0] + EncodeLabels(ls[1..])
  }

  /** The two top bits tell lengths, reserved values and pointers apart. */
  lemma {:induction false} TopBits(b: Byte)
    ensures And(b, 0xc0) == 0xc0 <==> b >= 0xc0
    ensures And(b, 0xc0) != 0 <==> b >= 0x40
  {
    assert Pow2(8) == 256 && Pow2(6) == 64;
    AndPrefix(b, 8, 6);
  }

  lemma {:induction false} LowBits(b: Byte)
    ensures And(b, 0x3f) == b % 64
  {
    assert Pow2(6) == 64;
    AndOnes(b, 6);
  }

  /** The offset just behind the name at `offset`, in at most `steps` labels, end and pointer included. */
  function SkipName(m: Bytes, offset: nat, steps: nat): (r: Result<nat, DnsError>)
    ensures r.Success? ==> offset < r.value <= |m|
    decreases |m| - offset
  {
    if steps == 0 || offset >= |m| then Failure(InvalidData)
    else
      var length := m[offset];
      if length >= 0xc0 then
        if offset + 1 >= |m| || FromBigEndian(length % 64, m[offset + 1]) >= |m| then Failure(InvalidData)
        else Success(offset + 2)
      else if length >= 0x40 then Failure(InvalidData)
      else if length == 0 then Success(offset + 1)
      else if offset + 1 + length > |m| then Failure(InvalidData)
      else SkipName(m, offset + 1 + length, steps - 1)
  }

  method SkipDnsName(m: Bytes, start: nat) returns (r: Result<nat, DnsError>)
    ensures r == SkipName(m, start, MAX_LABEL_STEPS)
    ensures r.Success? ==> start < r.value <= |m|
  {
    var offset: nat := start;
    for step := 0 to MAX_LABEL_STEPS
      invariant SkipName(m, offset, MAX_LABEL_STEPS - step) == SkipName(m, start, MAX_LABEL_STEPS)
    {
      if offset >= |m| { return Failure(InvalidData); }
      var length := m[offset];
      TopBits(length);
      if And(length, 0xc0) == 0xc0 {
        if offset + 1 >= |m| { return Failure(InvalidData); }
        LowBits(length);
        if FromBigEndian(And(length, 0x3f), m[offset + 1]) >= |m| { return Failure(InvalidData); }
        return Success(offset + 2);
      }
      if And(length, 0xc0) != 0 || length > 63 { return Failure(InvalidData); }
      if length == 0 { return Success(offset + 1); }
      if offset + 1 + length > |m| { return Failure(InvalidData); }
      offset := offset + 1 + length;
    }
    r := Failure(InvalidData);
  }

  /** `part` stands in `m` at `offset`. */
  predicate At(m: Bytes, offset: nat, part: Bytes) {
    offset + |part| <= |m| && forall i :: 0 <= i < |part| ==> part[i] == m[offset + i]
  }

  lemma AtFirst(m: Bytes, offset: nat, a: Bytes, b: Bytes)
    requires At(m, offset, a + b)
    ensures At(m, offset, a) && At(m, offset + |a|, b)
  {
    assert forall i :: 0 <= i < |a| ==> a[i] == (a + b)[i];
    forall i | 0 <= i < |b| ensures b[i] == m[offset + |a| + i] { assert b[i] == (a + b)[|a| + i]; }
  }

  lemma AtByte(m: Bytes, offset: nat, b: Byte)
    requires At(m, offset, [b])
    ensures m[offset] == b
  {
    assert [b][0] == b;
  }

  lemma LabelIsSkipped(m: Bytes, offset: nat, l: Bytes, steps: nat)
    requires IsLabel(l) && At(m, offset, [|l|] + l) && steps > 0
    ensures SkipName(m, offset, steps) == SkipName(m, offset + 1 + |l|, steps - 1)
  {
    AtFirst(m, offset, [|l|], l);
    AtByte(m, offset, |l|);
  }

  lemma {:induction false} LabelsParts(m: Bytes, offset: nat, ls: seq<Bytes>)
    requires ls != [] && AreLabels(ls) && At(m, offset, EncodeLabels(ls))
    ensures At(m, offset, [|ls[0]|] + ls[0]) && At(m, offset + 1 + |ls[0]|, EncodeLabels(ls[1..]))
    ensures |EncodeLabels(ls)| == 1 + |ls[0]| + |EncodeLabels(ls[1..])|
  {
    AtFirst(m, offset, [|ls[0]|] + ls[0], EncodeLabels(ls[1..]));
  }

  /** Encoded labels take one step each. */
  lemma {:induction false} LabelsAreSkipped(m: Bytes, offset: nat, ls: seq<Bytes>, steps: nat)
    requires AreLabels(ls) && At(m, offset, EncodeLabels(ls))
    ensures SkipName(m, offset, steps)
            == if steps <= |ls| then Failure(InvalidData) else SkipName(m, offset + |EncodeLabels(ls)|, steps - |ls|)
    decreases |ls|
  {
    if ls != [] && steps > 0 {
      LabelsParts(m, offset, ls);
      LabelIsSkipped(m, offset, ls[0], steps);
      LabelsAreSkipped(m, offset + 1 + |ls[0]|, ls[1..], steps - 1);
    }
  }

  /** A name that ends with the root or with a pointer to an earlier name. */
  datatype Name = Name(labels: seq<Bytes>, pointer: Option<nat>)

  /** Fewer labels than steps, and a pointer of 14 bits. */
  predicate IsName(n: Name) {
    AreLabels(n.labels) && |n.labels| < MAX_LABEL_STEPS && (n.pointer.Some? ==> n.pointer.value < 0x4000)
  }

  predicate PointsInto(n: Name, size: nat) { n.pointer.Some? ==> n.pointer.value < size }

  function NameEnd(n: Name): Bytes
    requires n.pointer.Some? ==> n.pointer.value < 0x4000
  {
    if n.pointer.None? then [0] else BigEndian(0xc000 + n.pointer.value)
  }

  function EncodeName(n: Name): Bytes
    requires AreLabels(n.labels) && (n.pointer.Some? ==> n.pointer.value < 0x4000)
  {
    EncodeLabels(n.labels) + NameEnd(n)
  }

  lemma {:induction false} EndIsSkipped(m: Bytes, offset: nat, n: Name, steps: nat)
    requires IsName(n) && PointsInto(n, |m|) && At(m, offset, NameEnd(n)) && steps > 0
    ensures SkipName(m, offset, steps) == Success(offset + |NameEnd(n)|)
  {
    if n.pointer.None? {
      AtByte(m, offset, 0);
    } else {
      var bytes := BigEndian(0xc000 + n.pointer.value);
      assert bytes == [bytes[0]] + [bytes[1]];
      AtFirst(m, offset, [bytes[0]], [bytes[1]]);
      AtByte(m, offset, bytes[0]);
      AtByte(m, offset + 1, bytes[1]);
      assert FromBigEndian(bytes[0] % 64, bytes[1]) == n.pointer.value;
    }
  }

  lemma {:induction false} NameIsSkipped(m: Bytes, offset: nat, n: Name)
    requires IsName(n) && PointsInto(n, |m|) && At(m, offset, EncodeName(n))
    ensures SkipName(m, offset, MAX_LABEL_STEPS) == Success(offset + |EncodeName(n)|)
  {
    AtFirst(m, offset, EncodeLabels(n.labels), NameEnd(n));
    LabelsAreSkipped(m, offset, n.labels, MAX_LABEL_STEPS);
    EndIsSkipped(m, offset + |EncodeLabels(n.labels)|, n, MAX_LABEL_STEPS - |n.labels|);
  }

  // ----- queries -----

  function QueryHeader(id: nat): (r: Bytes)
    requires id < 0x1_0000
    ensures |r| == HEADER_BYTES
  {
    BigEndian(id) + BigEndian(0x0100) + BigEndian(1) + [0, 0, 0, 0, 0, 0]
  }

  const QUERY_END: Bytes := [0, 1, 0, 1]

  function EncodeQuery(domain: Bytes, id: nat): Result<Bytes, DnsError>
    requires id < 0x1_0000
  {
    if !AreLabels(Labels(domain)) then Failure(InvalidInput)
    else Success(QueryHeader(id) + EncodeLabels(Labels(domain)) + [0] + QUERY_END)
  }

  lemma {:induction false} EncodeLabelsSnoc(ls: seq<Bytes>, l: Bytes)
    requires AreLabels(ls) && IsLabel(l)
    ensures EncodeLabels(ls + [l]) == EncodeLabels(ls) + [|l|] + l
    decreases |ls|
  {
    if ls == [] {
      assert ls + [l] == [l] && [l][1..] == [];
    } else {
      assert (ls + [l])[1..] == ls[1..] + [l] && (ls + [l])[0] == ls[0];
      EncodeLabelsSnoc(ls[1..], l);
    }
  }

  method EncodeDnsQuery(domain: Bytes, id: nat) returns (r: Result<Bytes, DnsError>)
    requires id < 0x1_0000
    ensures r == EncodeQuery(domain, id)
  {
    var query := BigEndian(id) + BigEndian(0x0100) + BigEndian(1) + [0, 0, 0, 0, 0, 0];
    var labels := Labels(domain);
    for i := 0 to |labels|
      invariant AreLabels(labels[..i]) && query == QueryHeader(id) + EncodeLabels(labels[..i])
    {
      var part := labels[i];
      if |part| > 255 || |part| == 0 || |part| > 63 { return Failure(InvalidInput); }
      assert labels[..i + 1] == labels[..i] + [part];
      EncodeLabelsSnoc(labels[..i], part);
      query := query + [|part|];
      query := query + part;
    }
    assert labels[..|labels|] == labels;
    r := Success(query + [0] + [0, 1, 0, 1]);
  }

  lemma {:induction false} LabelsLength(s: Bytes)
    requires AreLabels(Labels(s))
    ensures |EncodeLabels(Labels(s))| == |s| + 1
    decreases |s|
  {
    var k := FirstDot(s);
    if k < |s| {
      assert Labels(s)[0] == s[..k] && Labels(s)[1..] == Labels(s[k + 1..]);
      LabelsLength(s[k + 1..]);
    } else {
      assert Labels(s)[1..] == [];
    }
  }

  lemma {:induction false} LabelsCount(s: Bytes)
    requires forall i :: 0 <= i < |Labels(s)| ==> Labels(s)[i] != []
    ensures 2 * |Labels(s)| <= |s| + 1
    decreases |s|
  {
    var k := FirstDot(s);
    if k < |s| {
      assert Labels(s)[0] == s[..k] && Labels(s)[1..] == Labels(s[k + 1..]);
      LabelsCount(s[k + 1..]);
    }
    assert Labels(s)[0] != [];
  }

  lemma {:induction false} QueryParts(domain: Bytes, id: nat)
    requires id < 0x1_0000 && AreLabels(Labels(domain))
    ensures var q := EncodeQuery(domain, id).value;
            && |q| == |domain| + 18
            && At(q, HEADER_BYTES, EncodeLabels(Labels(domain)))
            && At(q, |q| - 5, [0]) && At(q, |q| - 4, QUERY_END)
  {
    LabelsLength(domain);
  }

  /** Skipping a query's own name needs one step per label and one for the end, and lands on the
      query type. */
  lemma {:induction false} QueryNameSteps(domain: Bytes, id: nat, steps: nat)
    requires id < 0x1_0000 && EncodeQuery(domain, id).Success?
    ensures var q := EncodeQuery(domain, id).value;
            && |q| == |domain| + 18 && q[|q| - 4..] == QUERY_END
            && SkipName(q, HEADER_BYTES, steps)
               == if steps > |Labels(domain)| then Success(|q| - 4) else Failure(InvalidData)
  {
    var q := EncodeQuery(domain, id).value;
    QueryParts(domain, id);
    LabelsLength(domain);
    LabelsAreSkipped(q, HEADER_BYTES, Labels(domain), steps);
    if steps > |Labels(domain)| { EndIsSkipped(q, |q| - 5, Name([], None), steps - |Labels(domain)|); }
  }

  /** The cap of 128 steps suffices for every domain that a request may name. */
  lemma AllowedNamesAreSkipped(domain: Bytes, id: nat)
    requires id < 0x1_0000 && IsAllowedDomain(domain) && EncodeQuery(domain, id).Success?
    ensures var q := EncodeQuery(domain, id).value;
            |q| == |domain| + 18 && SkipName(q, HEADER_BYTES, MAX_LABEL_STEPS) == Success(|q| - 4)
  {
    LabelsCount(domain);
    QueryNameSteps(domain, id, MAX_LABEL_STEPS);
  }

  /** `n` labels of one letter. */
  function OneLetterLabels(n: nat): (r: Bytes)
    requires n > 0
    ensures |r| == 2 * n - 1 && r[|r| - 1] == 0x61 && forall i :: 0 <= i < |r| ==> r[i] == DOT || r[i] == 0x61
  {
    if n == 1 then [0x61] else [0x61, DOT] + OneLetterLabels(n - 1)
  }

  lemma {:induction false} LabelsCons(l: Bytes, rest: Bytes)
    requires DOT !in l
    ensures Labels(l) == [l] && Labels(l + [DOT] + rest) == [l] + Labels(rest)
  {
    var s := l + [DOT] + rest;
    assert s[|l|] == DOT && forall i :: 0 <= i < |l| ==> s[i] == l[i];
    assert s[..|l|] == l && s[|l| + 1..] == rest;
  }

  lemma {:induction false} OneLetterLabelsSplit(n: nat)
    requires n > 0
    ensures var ls := Labels(OneLetterLabels(n)); |ls| == n && forall i :: 0 <= i < n ==> ls[i] == [0x61]
    decreases n
  {
    if n > 1 {
      OneLetterLabelsSplit(n - 1);
      LabelsCons([0x61], OneLetterLabels(n - 1));
      assert OneLetterLabels(n) == [0x61] + [DOT] + OneLetterLabels(n - 1);
    } else {
      LabelsCons([0x61], []);
    }
  }

  lemma EndsDifferently(s: Bytes, suffix: Bytes)
    requires s != [] && suffix != [] && s[|s| - 1] != suffix[|suffix| - 1]
    ensures !EndsWith(s, suffix)
  {
    if |s| >= |suffix| { assert s[|s| - |suffix|..][|suffix| - 1] == s[|s| - 1]; }
  }

  lemma {:induction false} OneLetterLabelsAreAllowed(n: nat)
    requires 0 < n <= 127
    ensures IsAllowedDomain(OneLetterLabels(n))
  {
    OneLetterLabelsSplit(n);
    var lower := Lower(OneLetterLabels(n));
    assert lower[|lower| - 1] == 0x61 && LOCALHOST[8] == 0x74;
    EndsDifferently(lower, [DOT] + LOCALHOST);
    EndsDifferently(lower, [DOT] + LOCAL);
    EndsDifferently(lower, [DOT] + INTERNAL);
  }

  lemma {:induction false} LongNameIsEncoded(n: nat, id: nat)
    requires 0 < n <= 127 && id < 0x1_0000
    ensures IsAllowedDomain(OneLetterLabels(n)) && EncodeQuery(OneLetterLabels(n), id).Success?
    ensures |Labels(OneLetterLabels(n))| == n
  {
    OneLetterLabelsSplit(n);
    OneLetterLabelsAreAllowed(n);
  }

  /** Skipping the query for `domain` succeeds in exactly `steps` steps, not in fewer. */
  ghost predicate NeedsSteps(domain: Bytes, id: nat, steps: nat)
    requires id < 0x1_0000
  {
    && EncodeQuery(domain, id).Success? && steps > 0
    && SkipName(EncodeQuery(domain, id).value, HEADER_BYTES, steps).Success?
    && SkipName(EncodeQuery(domain, id).value, HEADER_BYTES, steps - 1).Failure?
  }

  /** The cap is reached: 127 labels of one byte are an allowed domain that needs every step. */
  lemma CapIsReached(id: nat)
    requires id < 0x1_0000
    ensures exists domain :: IsAllowedDomain(domain) && NeedsSteps(domain, id, MAX_LABEL_STEPS)
  {
    var domain := LongestDomain(id);
    QueryNameSteps(domain, id, MAX_LABEL_STEPS);
    QueryNameSteps(domain, id, MAX_LABEL_STEPS - 1);
    assert NeedsSteps(domain, id, MAX_LABEL_STEPS);
  }

  lemma LongestDomain(id: nat) returns (domain: Bytes)
    requires id < 0x1_0000
    ensures IsAllowedDomain(domain) && EncodeQuery(domain, id).Success? && |Labels(domain)| == 127
  {
    var n: nat := 127;
    LongNameIsEncoded(n, id);
    domain := OneLetterLabels(n);
  }
}
