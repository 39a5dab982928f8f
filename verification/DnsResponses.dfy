/** Parsing of DNS responses, and why a dialled address is always public. */
module DnsResponses {
  import opened Wrappers
  import opened Bits
  import opened Addresses
  import opened Socks
  import opened Dns

  const MAX_QUESTIONS := 8
  const MAX_ANSWERS := 128
  const MAX_DNS_MESSAGE_BYTES := 4096

  function Word(m: Bytes, offset: nat): nat
    requires offset + 2 <= |m|
  {
    FromBigEndian(m[offset], m[offset + 1])
  }

  function SkipQuestions(m: Bytes, offset: nat, n: nat): (r: Result<nat, DnsError>)
    ensures r.Success? ==> r.value >= offset + 5 * n && (n > 0 ==> r.value <= |m|)
    decreases n
  {
    if n == 0 then Success(offset)
    else
      var end :- SkipName(m, offset, MAX_LABEL_STEPS);
      if end + 4 > |m| then Failure(InvalidData) else SkipQuestions(m, end + 4, n - 1)
  }

  /** What the record whose name ends at `end` contributes, and the offset behind it. */
  function ReadFields(m: Bytes, end: nat): (r: Result<(seq<Ipv4>, nat), DnsError>)
    ensures r.Success? ==> end + 10 <= r.value.1 <= |m|
  {
    if end + 10 > |m| then Failure(InvalidData)
    else
      var length := Word(m, end + 8);
      var data := end + 10;
      if data + length > |m| then Failure(InvalidData)
      else if Word(m, end) == 1 && Word(m, end + 2) == 1 && length == 4 then
        Success(([Ipv4(m[data], m[data + 1], m[data + 2], m[data + 3])], data + length))
      else Success(([], data + length))
  }

  function ReadAnswer(m: Bytes, offset: nat): (r: Result<(seq<Ipv4>, nat), DnsError>)
    ensures r.Success? ==> offset + 11 <= r.value.1 <= |m|
  {
    var end :- SkipName(m, offset, MAX_LABEL_STEPS);
    ReadFields(m, end)
  }

  function ReadAnswers(m: Bytes, offset: nat, n: nat): Result<seq<Ipv4>, DnsError>
    decreases n
  {
    if n == 0 then Success([])
    else
      var (first, next) :- ReadAnswer(m, offset);
      var rest :- ReadAnswers(m, next, n - 1);
      Success(first + rest)
  }

  /** A response to query `id` that reports success. */
  predicate IsSuccessful(m: Bytes, id: nat)
    requires id < 0x1_0000
  {
    |m| >= HEADER_BYTES && m[..2] == BigEndian(id) && And(Word(m, 2), 0x8000) != 0 && And(Word(m, 2), 0x000f) == 0
  }

  function ParseResponse(m: Bytes, id: nat): Result<seq<Ipv4>, DnsError>
    requires id < 0x1_0000
  {
    if !IsSuccessful(m, id) then Failure(InvalidData)
    else
      var questions, answers := Word(m, 4), Word(m, 6);
      if questions > MAX_QUESTIONS || answers > MAX_ANSWERS then Failure(InvalidData)
      else
        var offset :- SkipQuestions(m, HEADER_BYTES, questions);
        var addresses :- ReadAnswers(m, offset, answers);
        if addresses == [] then Failure(NotFound) else Success(addresses)
  }

  method ParseDnsAResponse(m: Bytes, id: nat) returns (r: Result<seq<Ipv4>, DnsError>)
    requires id < 0x1_0000
    ensures r == ParseResponse(m, id)
  {
    if !IsSuccessful(m, id) { return Failure(InvalidData); }
    var questions, answers := Word(m, 4), Word(m, 6);
    if questions > MAX_QUESTIONS || answers > MAX_ANSWERS { return Failure(InvalidData); }
    var offset :- SkipAllQuestions(m, questions);
    var addresses :- ReadAllAnswers(m, offset, answers);
    r := if addresses == [] then Failure(NotFound) else Success(addresses);
  }

  method SkipAllQuestions(m: Bytes, n: nat) returns (r: Result<nat, DnsError>)
    ensures r == SkipQuestions(m, HEADER_BYTES, n)
  {
    var offset: nat := HEADER_BYTES;
    for i := 0 to n
      invariant SkipQuestions(m, offset, n - i) == SkipQuestions(m, HEADER_BYTES, n)
    {
      offset :- SkipDnsName(m, offset);
      if offset + 4 > |m| { return Failure(InvalidData); }
      offset := offset + 4;
    }
    r := Success(offset);
  }

  method ReadRecord(m: Bytes, offset: nat) returns (r: Result<(seq<Ipv4>, nat), DnsError>)
    ensures r == ReadFields(m, offset)
  {
    var headerEnd := offset + 10;
    if headerEnd > |m| { return Failure(InvalidData); }
    var length := Word(m, offset + 8);
    var dataEnd := headerEnd + length;
    if dataEnd > |m| { return Failure(InvalidData); }
    var addresses: seq<Ipv4> := [];
    if Word(m, offset) == 1 && Word(m, offset + 2) == 1 && length == 4 {
      addresses := [Ipv4(m[headerEnd], m[headerEnd + 1], m[headerEnd + 2], m[headerEnd + 3])];
    }
    r := Success((addresses, dataEnd));
  }

  method ReadOneAnswer(m: Bytes, start: nat) returns (r: Result<(seq<Ipv4>, nat), DnsError>)
    ensures r == ReadAnswer(m, start)
  {
    var offset :- SkipDnsName(m, start);
    r := ReadRecord(m, offset);
  }

  /** `rest` read after `done`. */
  function After(done: seq<Ipv4>, rest: Result<seq<Ipv4>, DnsError>): Result<seq<Ipv4>, DnsError> {
    if rest.Success? then Success(done + rest.value) else rest
  }

  lemma AfterAppend(done: seq<Ipv4>, first: seq<Ipv4>, rest: Result<seq<Ipv4>, DnsError>)
    ensures After(done, After(first, rest)) == After(done + first, rest) && After([], rest) == rest
    ensures After(done, Success([])) == Success(done)
  {
    assert done + [] == done;
    if rest.Success? {
      assert done + (first + rest.value) == done + first + rest.value;
      assert [] + rest.value == rest.value;
    }
  }

  lemma AnswersStep(m: Bytes, offset: nat, n: nat)
    requires n > 0
    ensures var first := ReadAnswer(m, offset);
            ReadAnswers(m, offset, n)
            == if first.Failure? then Failure(first.error) else After(first.value.0, ReadAnswers(m, first.value.1, n - 1))
  {
  }

  method ReadAllAnswers(m: Bytes, start: nat, n: nat) returns (r: Result<seq<Ipv4>, DnsError>)
    ensures r == ReadAnswers(m, start, n)
  {
    var offset: nat, addresses: seq<Ipv4> := start, [];
    AfterAppend([], [], ReadAnswers(m, start, n));
    for i := 0 to n
      invariant ReadAnswers(m, start, n) == After(addresses, ReadAnswers(m, offset, n - i))
    {
      AnswersStep(m, offset, n - i);
      var answer :- ReadOneAnswer(m, offset);
      AfterAppend(addresses, answer.0, ReadAnswers(m, answer.1, n - i - 1));
      addresses, offset := addresses + answer.0, answer.1;
    }
    AfterAppend(addresses, [], Success([]));
    r := Success(addresses);
  }

  // ----- well-formed responses -----

  type Word16 = w: nat | w < 0x1_0000

  datatype Question = Question(name: Name, qtype: Word16, qclass: Word16)

  datatype Answer = Answer(name: Name, rtype: Word16, class_: Word16, ttlHigh: Word16, ttlLow: Word16, data: Bytes)

  predicate AreQuestions(qs: seq<Question>) { forall i :: 0 <= i < |qs| ==> IsName(qs[i].name) }

  predicate QuestionsPointInto(qs: seq<Question>, size: nat) { forall i :: 0 <= i < |qs| ==> PointsInto(qs[i].name, size) }

  predicate IsAnswer(r: Answer) { IsName(r.name) && |r.data| < 0x1_0000 }

  predicate AreAnswers(rs: seq<Answer>) { forall i :: 0 <= i < |rs| ==> IsAnswer(rs[i]) }

  predicate AnswersPointInto(rs: seq<Answer>, size: nat) { forall i :: 0 <= i < |rs| ==> PointsInto(rs[i].name, size) }

  function EncodeQuestion(q: Question): Bytes
    requires IsName(q.name)
  {
    EncodeName(q.name) + (BigEndian(q.qtype) + BigEndian(q.qclass))
  }

  function EncodeQuestions(qs: seq<Question>): Bytes
    requires AreQuestions(qs)
  {
    if qs == [] then [] else EncodeQuestion(qs[0]) + EncodeQuestions(qs[1..])
  }

  function AnswerHeader(r: Answer): (h: Bytes)
    requires |r.data| < 0x1_0000
    ensures |h| == 10
  {
    BigEndian(r.rtype) + BigEndian(r.class_) + BigEndian(r.ttlHigh) + BigEndian(r.ttlLow) + BigEndian(|r.data|)
  }

  function EncodeAnswer(r: Answer): Bytes
    requires IsAnswer(r)
  {
    EncodeName(r.name) + (AnswerHeader(r) + r.data)
  }

  function EncodeAnswers(rs: seq<Answer>): Bytes
    requires AreAnswers(rs)
  {
    if rs == [] then [] else EncodeAnswer(rs[0]) + EncodeAnswers(rs[1..])
  }

  /** The addresses among the answers: class IN, type A, four bytes. */
  function AddressOf(r: Answer): seq<Ipv4> {
    if r.rtype == 1 && r.class_ == 1 && |r.data| == 4 then [Ipv4(r.data[0], r.data[1], r.data[2], r.data[3])] else []
  }

  function AddressesOf(rs: seq<Answer>): seq<Ipv4> {
    if rs == [] then [] else AddressOf(rs[0]) + AddressesOf(rs[1..])
  }

  lemma WordAt(m: Bytes, offset: nat, w: Word16)
    requires At(m, offset, BigEndian(w))
    ensures Word(m, offset) == w
  {
    var bytes := BigEndian(w);
    assert bytes[0] == m[offset] && bytes[1] == m[offset + 1];
  }

  lemma {:induction false} QuestionIsSkipped(m: Bytes, offset: nat, q: Question)
    requires IsName(q.name) && PointsInto(q.name, |m|) && At(m, offset, EncodeQuestion(q))
    ensures SkipName(m, offset, MAX_LABEL_STEPS) == Success(offset + |EncodeQuestion(q)| - 4)
  {
    AtFirst(m, offset, EncodeName(q.name), BigEndian(q.qtype) + BigEndian(q.qclass));
    NameIsSkipped(m, offset, q.name);
  }

  lemma {:induction false} QuestionsParts(m: Bytes, offset: nat, qs: seq<Question>)
    requires qs != [] && AreQuestions(qs) && At(m, offset, EncodeQuestions(qs))
    ensures At(m, offset, EncodeQuestion(qs[0])) && At(m, offset + |EncodeQuestion(qs[0])|, EncodeQuestions(qs[1..]))
    ensures |EncodeQuestions(qs)| == |EncodeQuestion(qs[0])| + |EncodeQuestions(qs[1..])|
  {
    AtFirst(m, offset, EncodeQuestion(qs[0]), EncodeQuestions(qs[1..]));
  }

  lemma {:induction false} QuestionsAreSkipped(m: Bytes, offset: nat, qs: seq<Question>)
    requires AreQuestions(qs) && QuestionsPointInto(qs, |m|) && At(m, offset, EncodeQuestions(qs))
    ensures SkipQuestions(m, offset, |qs|) == Success(offset + |EncodeQuestions(qs)|)
    decreases |qs|
  {
    if qs != [] {
      QuestionsParts(m, offset, qs);
      QuestionIsSkipped(m, offset, qs[0]);
      QuestionsAreSkipped(m, offset + |EncodeQuestion(qs[0])|, qs[1..]);
    }
  }

  lemma HeaderIsRead(m: Bytes, offset: nat, r: Answer)
    requires |r.data| < 0x1_0000 && At(m, offset, AnswerHeader(r))
    ensures Word(m, offset) == r.rtype && Word(m, offset + 2) == r.class_ && Word(m, offset + 8) == |r.data|
  {
    var types := BigEndian(r.rtype) + BigEndian(r.class_);
    var times := BigEndian(r.ttlHigh) + BigEndian(r.ttlLow);
    assert AnswerHeader(r) == types + (times + BigEndian(|r.data|));
    AtFirst(m, offset, types, times + BigEndian(|r.data|));
    AtFirst(m, offset, BigEndian(r.rtype), BigEndian(r.class_));
    AtFirst(m, offset + 4, times, BigEndian(|r.data|));
    WordAt(m, offset, r.rtype);
    WordAt(m, offset + 2, r.class_);
    WordAt(m, offset + 8, |r.data|);
  }

  lemma DataIsAt(m: Bytes, offset: nat, data: Bytes)
    requires At(m, offset, data) && |data| == 4
    ensures data == [m[offset], m[offset + 1], m[offset + 2], m[offset + 3]]
  {
  }

  lemma AnswerParts(m: Bytes, offset: nat, r: Answer)
    requires IsAnswer(r) && At(m, offset, EncodeAnswer(r))
    ensures var end := offset + |EncodeName(r.name)|;
            && At(m, offset, EncodeName(r.name)) && At(m, end, AnswerHeader(r)) && At(m, end + 10, r.data)
            && |EncodeAnswer(r)| == |EncodeName(r.name)| + 10 + |r.data|
  {
    AtFirst(m, offset, EncodeName(r.name), AnswerHeader(r) + r.data);
    AtFirst(m, offset + |EncodeName(r.name)|, AnswerHeader(r), r.data);
  }

  lemma FieldsAreRead(m: Bytes, end: nat, r: Answer)
    requires |r.data| < 0x1_0000 && At(m, end, AnswerHeader(r)) && At(m, end + 10, r.data)
    ensures ReadFields(m, end) == Success((AddressOf(r), end + 10 + |r.data|))
  {
    HeaderIsRead(m, end, r);
    if |r.data| == 4 { DataIsAt(m, end + 10, r.data); }
  }

  lemma AnswerIsRead(m: Bytes, offset: nat, r: Answer)
    requires IsAnswer(r) && PointsInto(r.name, |m|) && At(m, offset, EncodeAnswer(r))
    ensures ReadAnswer(m, offset) == Success((AddressOf(r), offset + |EncodeAnswer(r)|))
  {
    AnswerParts(m, offset, r);
    NameIsSkipped(m, offset, r.name);
    FieldsAreRead(m, offset + |EncodeName(r.name)|, r);
  }

  lemma {:induction false} AnswersParts(m: Bytes, offset: nat, rs: seq<Answer>)
    requires rs != [] && AreAnswers(rs) && At(m, offset, EncodeAnswers(rs))
    ensures At(m, offset, EncodeAnswer(rs[0])) && At(m, offset + |EncodeAnswer(rs[0])|, EncodeAnswers(rs[1..]))
  {
    AtFirst(m, offset, EncodeAnswer(rs[0]), EncodeAnswers(rs[1..]));
  }

  /** Each answer in turn is read as itself. */
  predicate ReadsEach(m: Bytes, offset: nat, rs: seq<Answer>)
    decreases |rs|
  {
    rs == [] ||
    (var answer := ReadAnswer(m, offset);
     answer.Success? && answer.value.0 == AddressOf(rs[0]) && ReadsEach(m, answer.value.1, rs[1..]))
  }

  lemma {:induction false} FirstIsRead(m: Bytes, offset: nat, rs: seq<Answer>) returns (next: nat)
    requires rs != [] && AreAnswers(rs) && AnswersPointInto(rs, |m|) && At(m, offset, EncodeAnswers(rs))
    ensures ReadAnswer(m, offset) == Success((AddressOf(rs[0]), next)) && At(m, next, EncodeAnswers(rs[1..]))
  {
    next := offset + |EncodeAnswer(rs[0])|;
    AnswersParts(m, offset, rs);
    AnswerIsRead(m, offset, rs[0]);
  }

  lemma {:induction false} EachIsRead(m: Bytes, offset: nat, rs: seq<Answer>)
    requires AreAnswers(rs) && AnswersPointInto(rs, |m|) && At(m, offset, EncodeAnswers(rs))
    ensures ReadsEach(m, offset, rs)
    decreases |rs|
  {
    if rs != [] {
      var next := FirstIsRead(m, offset, rs);
      EachIsRead(m, next, rs[1..]);
    }
  }

  lemma AnswersCompose(m: Bytes, offset: nat, n: nat, rest: seq<Ipv4>)
    requires n > 0 && ReadAnswer(m, offset).Success?
    requires ReadAnswers(m, ReadAnswer(m, offset).value.1, n - 1) == Success(rest)
    ensures ReadAnswers(m, offset, n) == Success(ReadAnswer(m, offset).value.0 + rest)
  {
  }

  lemma {:induction false} EachIsCollected(m: Bytes, offset: nat, rs: seq<Answer>)
    requires ReadsEach(m, offset, rs)
    ensures ReadAnswers(m, offset, |rs|) == Success(AddressesOf(rs))
    decreases |rs|
  {
    if rs != [] {
      EachIsCollected(m, ReadAnswer(m, offset).value.1, rs[1..]);
      AnswersCompose(m, offset, |rs|, AddressesOf(rs[1..]));
    }
  }

  lemma {:induction false} AnswersAreRead(m: Bytes, offset: nat, rs: seq<Answer>)
    requires AreAnswers(rs) && AnswersPointInto(rs, |m|) && At(m, offset, EncodeAnswers(rs))
    ensures ReadAnswers(m, offset, |rs|) == Success(AddressesOf(rs))
  {
    EachIsRead(m, offset, rs);
    EachIsCollected(m, offset, rs);
  }

  function EncodeHeader(id: Word16, flags: Word16, questions: Word16, answers: Word16, authority: Word16, additional: Word16): (h: Bytes)
    ensures |h| == HEADER_BYTES
  {
    [id / 256, id % 256, flags / 256, flags % 256, questions / 256, questions % 256, answers / 256, answers % 256,
     authority / 256, authority % 256, additional / 256, additional % 256]
  }

  /** A response: the header, the two sections, and anything after them. */
  function EncodeResponse(id: Word16, flags: Word16, authority: Word16, additional: Word16,
                          qs: seq<Question>, rs: seq<Answer>, tail: Bytes): Bytes
    requires |qs| < 0x1_0000 && |rs| < 0x1_0000 && AreQuestions(qs) && AreAnswers(rs)
  {
    EncodeHeader(id, flags, |qs|, |rs|, authority, additional) + (EncodeQuestions(qs) + (EncodeAnswers(rs) + tail))
  }

  lemma HeaderParts(m: Bytes, id: Word16, flags: Word16, questions: Word16, answers: Word16, authority: Word16,
                    additional: Word16, sections: Bytes)
    requires m == EncodeHeader(id, flags, questions, answers, authority, additional) + sections
    ensures |m| >= HEADER_BYTES && m[..2] == BigEndian(id)
    ensures Word(m, 2) == flags && Word(m, 4) == questions && Word(m, 6) == answers && At(m, HEADER_BYTES, sections)
  {
    var h := EncodeHeader(id, flags, questions, answers, authority, additional);
    assert forall i :: 0 <= i < HEADER_BYTES ==> m[i] == h[i];
  }

  lemma {:induction false} SectionParts(m: Bytes, qs: seq<Question>, rs: seq<Answer>, tail: Bytes)
    requires AreQuestions(qs) && AreAnswers(rs)
    requires At(m, HEADER_BYTES, EncodeQuestions(qs) + (EncodeAnswers(rs) + tail))
    ensures At(m, HEADER_BYTES, EncodeQuestions(qs)) && At(m, HEADER_BYTES + |EncodeQuestions(qs)|, EncodeAnswers(rs))
  {
    AtFirst(m, HEADER_BYTES, EncodeQuestions(qs), EncodeAnswers(rs) + tail);
    AtFirst(m, HEADER_BYTES + |EncodeQuestions(qs)|, EncodeAnswers(rs), tail);
  }

  lemma {:induction false} SectionsAreParsed(m: Bytes, qs: seq<Question>, rs: seq<Answer>, offset: nat)
    requires AreQuestions(qs) && AreAnswers(rs) && QuestionsPointInto(qs, |m|) && AnswersPointInto(rs, |m|)
    requires At(m, HEADER_BYTES, EncodeQuestions(qs)) && offset == HEADER_BYTES + |EncodeQuestions(qs)|
    requires At(m, offset, EncodeAnswers(rs))
    ensures SkipQuestions(m, HEADER_BYTES, |qs|) == Success(offset)
    ensures ReadAnswers(m, offset, |rs|) == Success(AddressesOf(rs))
  {
    QuestionsAreSkipped(m, HEADER_BYTES, qs);
    AnswersAreRead(m, offset, rs);
  }

  lemma {:induction false} ResultOfSections(m: Bytes, id: Word16, questions: nat, answers: nat, offset: nat, addresses: seq<Ipv4>)
    requires IsSuccessful(m, id) && Word(m, 4) == questions <= MAX_QUESTIONS && Word(m, 6) == answers <= MAX_ANSWERS
    requires SkipQuestions(m, HEADER_BYTES, questions) == Success(offset)
    requires ReadAnswers(m, offset, answers) == Success(addresses)
    ensures ParseResponse(m, id) == if addresses == [] then Failure(NotFound) else Success(addresses)
  {
  }

  lemma ResponsePowers()
    ensures Pow2(4) == 16 && Pow2(15) == 0x8000 && Pow2(16) == 0x1_0000
  {
    assert Pow2(8) == 256;
    assert Pow2(12) == 4096;
  }

  lemma HighBit(v: nat, high: nat)
    requires high > 0 && v < 2 * high
    ensures v - v % high != 0 <==> v >= high
  {
    if v >= high { QuotientIsUnique(v, high, 1, v - high); } else { QuotientIsUnique(v, high, 0, v); }
  }

  lemma {:induction false} FlagBits(flags: Word16)
    ensures And(flags, 0x8000) != 0 <==> flags >= 0x8000
    ensures And(flags, 0x000f) == flags % 16
  {
    ResponsePowers();
    AndPrefix(flags, 16, 15);
    HighBit(flags, Pow2(15));
    AndOnes(flags, 4);
  }

  lemma HeaderIsSuccessful(m: Bytes, id: Word16)
    requires |m| >= HEADER_BYTES && m[..2] == BigEndian(id) && Word(m, 2) >= 0x8000 && Word(m, 2) % 16 == 0
    ensures IsSuccessful(m, id)
  {
    FlagBits(Word(m, 2));
  }

  /** For every list of questions and answers within the limits, with plain or pointer-ended names,
      the parser returns exactly the IPv4 data in order, or an error when there is none. */
  lemma {:induction false} ResponseIsParsed(m: Bytes, id: Word16, flags: Word16, authority: Word16, additional: Word16,
                         qs: seq<Question>, rs: seq<Answer>, tail: Bytes)
    requires |qs| <= MAX_QUESTIONS && |rs| <= MAX_ANSWERS && AreQuestions(qs) && AreAnswers(rs)
    requires m == EncodeResponse(id, flags, authority, additional, qs, rs, tail)
    requires QuestionsPointInto(qs, |m|) && AnswersPointInto(rs, |m|) && flags >= 0x8000 && flags % 16 == 0
    ensures ParseResponse(m, id) == if AddressesOf(rs) == [] then Failure(NotFound) else Success(AddressesOf(rs))
  {
    HeaderParts(m, id, flags, |qs|, |rs|, authority, additional, EncodeQuestions(qs) + (EncodeAnswers(rs) + tail));
    HeaderIsSuccessful(m, id);
    var offset := HEADER_BYTES + |EncodeQuestions(qs)|;
    SectionParts(m, qs, rs, tail);
    SectionsAreParsed(m, qs, rs, offset);
    ResultOfSections(m, id, |qs|, |rs|, offset, AddressesOf(rs));
  }

  // ----- resolving a target -----

  /** What one server sends back to query `id`, if anything: a datagram, and a TCP response for the
      case that the datagram is cut short. */
  datatype Reply = Reply(id: Word16, udp: Option<Bytes>, tcp: Option<Bytes>)

  predicate IsTruncated(m: Bytes, id: Word16) { |m| >= 4 && m[..2] == BigEndian(id) && And(m[2], 0x02) != 0 }

  function Received(datagram: Bytes): Bytes {
    if |datagram| > MAX_DNS_MESSAGE_BYTES then datagram[..MAX_DNS_MESSAGE_BYTES] else datagram
  }

  function QueryA(domain: Bytes, reply: Reply): Result<seq<Ipv4>, DnsError> {
    var _ :- EncodeQuery(domain, reply.id);
    if reply.udp.None? then Failure(Unanswered)
    else
      var response := Received(reply.udp.value);
      if !IsTruncated(response, reply.id) then ParseResponse(response, reply.id)
      else if reply.tcp.None? then Failure(Unanswered)
      else if reply.tcp.value == [] || |reply.tcp.value| > MAX_DNS_MESSAGE_BYTES then Failure(InvalidData)
      else ParseResponse(reply.tcp.value, reply.id)
  }

  /** The first public address of a list. */
  function FirstPublic(ips: seq<Ipv4>): (r: Option<Ipv4>)
    ensures r.None? <==> forall i :: 0 <= i < |ips| ==> !IsPublic(ips[i])
    ensures r.Some? ==> IsPublic(r.value) && r.value in ips
  {
    if ips == [] then None else if IsPublic(ips[0]) then Some(ips[0]) else FirstPublic(ips[1..])
  }

  function PublicAnswer(domain: Bytes, reply: Reply): (r: Option<Ipv4>)
    ensures r.Some? ==> IsPublic(r.value)
  {
    var addresses := QueryA(domain, reply);
    if addresses.Failure? then None else FirstPublic(addresses.value)
  }

  /** The answer of the first server that names a public address. */
  function FirstAnswer(domain: Bytes, replies: seq<Reply>): (r: Option<Ipv4>)
    ensures r.Some? ==> IsPublic(r.value)
    ensures r.None? <==> forall i :: 0 <= i < |replies| ==> PublicAnswer(domain, replies[i]).None?
  {
    if replies == [] then None
    else if PublicAnswer(domain, replies[0]).Some? then PublicAnswer(domain, replies[0])
    else FirstAnswer(domain, replies[1..])
  }

  function WithPort(ip: Option<Ipv4>, port: Port): Option<Endpoint> {
    if ip.None? then None else Some(Endpoint(ip.value, port))
  }

  method ResolvePublicTarget(t: Target, replies: seq<Reply>) returns (r: Option<Endpoint>)
    ensures t.Address? ==> r == Some(Endpoint(t.ip, t.port))
    ensures t.Domain? ==> r == WithPort(FirstAnswer(t.name, replies), t.port)
  {
    if t.Address? { return Some(Endpoint(t.ip, t.port)); }
    for k := 0 to |replies|
      invariant FirstAnswer(t.name, replies[k..]) == FirstAnswer(t.name, replies)
    {
      assert replies[k..][0] == replies[k] && replies[k..][1..] == replies[k + 1..];
      var public := PublicAnswer(t.name, replies[k]);
      if public.Some? { return Some(Endpoint(public.value, t.port)); }
    }
    r := None;
  }

  /** Whatever a client sends and whatever the servers answer, the worker dials only a globally
      routable address with a port. */
  method DialTarget(request: Bytes, replies: seq<Reply>) returns (r: Result<Endpoint, Error>)
    ensures r.Success? ==> !IsReserved(r.value.ip) && r.value.port != 0
    ensures r.Success? ==> DecodeRequest(request).Success? && r.value.port == DecodeRequest(request).value.0.port
  {
    var stream := new ByteStream(request);
    var target :- ReadRequest(stream);
    var resolved := ResolvePublicTarget(target, replies);
    if resolved.None? { return Failure(ForbiddenTarget); }
    PublicIsNotReserved(resolved.value.ip);
    r := Success(resolved.value);
  }
}
