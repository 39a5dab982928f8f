/** Node records and the three places that rank them: the automatic connection policy, the
    automatic test policy and the paged node list of the Web API. */
module Nodes {
  import opened Wrappers
  import opened Sorting

  /** A 64-digit hexadecimal digest, ordered like the number it writes. */
  type NodeId = nat

  datatype Availability = Available | UnsupportedProtocol | InvalidConfig

  datatype Node = Node(
    id: NodeId,
    score: nat,
    ping: Option<nat>,
    speed: nat,
    sessions: nat,
    country: string,
    availability: Availability,
    hasProfile: bool)

  /** `fraud` stands for the position of the `f64` score in its total order. */
  datatype IpPureResult = IpPureResult(fraud: int, residential: bool, broadcast: bool)

  datatype TestRecord = TestRecord(result: Option<IpPureResult>)

  datatype IpTypeFilter = AnyIpType | Native | Broadcast
  datatype ResidentialFilter = AnyResidential | Residential | NonResidential

  datatype AutoConnectConfig = AutoConnectConfig(
    enabled: bool,
    region: Option<string>,
    ipType: IpTypeFilter,
    residential: ResidentialFilter)

  const U32_MAX := 0xffff_ffff

  function Filter<T(!new)>(p: T -> bool, xs: seq<T>): (r: seq<T>)
    ensures forall x :: x in r <==> x in xs && p(x)
  {
    if xs == [] then []
    else
      var front := Filter(p, xs[..|xs| - 1]);
      if p(xs[|xs| - 1]) then front + [xs[|xs| - 1]] else front
  }

  lemma {:induction false} FilterMultiset<T(!new)>(p: T -> bool, xs: seq<T>)
    ensures forall x :: multiset(Filter(p, xs))[x] == if p(x) then multiset(xs)[x] else 0
    decreases |xs|
  {
    if xs != [] {
      FilterMultiset(p, xs[..|xs| - 1]);
      assert xs == xs[..|xs| - 1] + [xs[|xs| - 1]];
    }
  }

  /** Filtering commutes with reordering. */
  lemma {:induction false} FilterIgnoresOrder<T(!new)>(p: T -> bool, xs: seq<T>, ys: seq<T>)
    requires multiset(xs) == multiset(ys)
    ensures multiset(Filter(p, xs)) == multiset(Filter(p, ys))
  {
    FilterMultiset(p, xs);
    FilterMultiset(p, ys);
  }

  function LowerAscii(c: char): char {
    if 'A' <= c <= 'Z' then (c as int + 32) as char else c
  }

  predicate EqIgnoreCase(a: string, b: string) {
    |a| == |b| && forall i :: 0 <= i < |a| ==> LowerAscii(a[i]) == LowerAscii(b[i])
  }

  predicate MatchesRegion(n: Node, region: Option<string>) {
    region.Some? ==> EqIgnoreCase(n.country, region.value)
  }

  predicate MatchesIpTraits(record: Option<TestRecord>, ipType: IpTypeFilter, residential: ResidentialFilter) {
    || (ipType == AnyIpType && residential == AnyResidential)
    || (record.Some? && record.value.result.Some? &&
        var result := record.value.result.value;
        && (ipType == AnyIpType || (ipType == Broadcast <==> result.broadcast))
        && (residential == AnyResidential || (residential == Residential <==> result.residential)))
  }

  function Lookup(tests: map<NodeId, TestRecord>, id: NodeId): Option<TestRecord> {
    if id in tests then Some(tests[id]) else None
  }

  // ----- automatic connection -----

  function PingOrMax(n: Node): nat { if n.ping.Some? then n.ping.value else U32_MAX }

  /** Bandwidth, then score, then low ping, then low id. */
  function SelectOrder(a: Node, b: Node): Ordering {
    Compare(a.speed, b.speed)
    .Then(Compare(a.score, b.score))
    .Then(Compare(PingOrMax(b), PingOrMax(a)))
    .Then(Compare(b.id, a.id))
  }

  predicate Usable(n: Node, tests: map<NodeId, TestRecord>, config: AutoConnectConfig, excluded: set<NodeId>) {
    && n.availability == Available && n.id !in excluded
    && MatchesRegion(n, config.region)
    && MatchesIpTraits(Lookup(tests, n.id), config.ipType, config.residential)
  }

  function Candidates(nodes: seq<Node>, tests: map<NodeId, TestRecord>, config: AutoConnectConfig,
                      excluded: set<NodeId>): (r: seq<Node>)
    ensures forall n :: n in r <==> n in nodes && Usable(n, tests, config, excluded)
  {
    Filter((n: Node) => Usable(n, tests, config, excluded), nodes)
  }

  function SelectNode(nodes: seq<Node>, tests: map<NodeId, TestRecord>, config: AutoConnectConfig,
                      excluded: set<NodeId>): Option<NodeId>
  {
    var candidates := Candidates(nodes, tests, config, excluded);
    if candidates == [] then None else Some(MaxBy(SelectOrder, candidates).id)
  }

  lemma SelectOrderIsTotal()
    ensures IsTotalOrder(SelectOrder)
    ensures forall a, b :: SelectOrder(a, b) == Equal ==> a.id == b.id
  {
  }

  /** `best` is usable and no usable node ranks above it. */
  ghost predicate IsBest(best: Node, nodes: seq<Node>, tests: map<NodeId, TestRecord>, config: AutoConnectConfig,
                         excluded: set<NodeId>)
  {
    && best in nodes && Usable(best, tests, config, excluded)
    && forall n :: n in nodes && Usable(n, tests, config, excluded) ==> SelectOrder(n, best) != Greater
  }

  lemma SelectNodeIsBest(nodes: seq<Node>, tests: map<NodeId, TestRecord>, config: AutoConnectConfig,
                         excluded: set<NodeId>)
    ensures SelectNode(nodes, tests, config, excluded).None? <==>
            !exists n :: n in nodes && Usable(n, tests, config, excluded)
    ensures SelectNode(nodes, tests, config, excluded).Some? ==>
              exists best :: IsBest(best, nodes, tests, config, excluded)
                             && best.id == SelectNode(nodes, tests, config, excluded).value
  {
    var candidates := Candidates(nodes, tests, config, excluded);
    if candidates == [] {
      forall n | n in nodes ensures !Usable(n, tests, config, excluded) { assert n !in candidates; }
    } else {
      SelectOrderIsTotal();
      MaxByIsGreatest(SelectOrder, candidates);
      var best := MaxBy(SelectOrder, candidates);
      assert IsBest(best, nodes, tests, config, excluded);
    }
  }

  /** The chosen node in the policy's own words: available, not excluded, with the wanted traits on
      record, and no other such node is faster, or as fast with a higher score, and so on. */
  lemma ChosenNodeIsFastest(nodes: seq<Node>, tests: map<NodeId, TestRecord>, config: AutoConnectConfig,
                            excluded: set<NodeId>) returns (best: Node)
    requires SelectNode(nodes, tests, config, excluded).Some?
    ensures best in nodes && best.id == SelectNode(nodes, tests, config, excluded).value
    ensures best.availability == Available && best.id !in excluded
    ensures config.ipType != AnyIpType || config.residential != AnyResidential ==>
              best.id in tests && tests[best.id].result.Some?
    ensures config.ipType == Native ==> !tests[best.id].result.value.broadcast
    ensures config.ipType == Broadcast ==> tests[best.id].result.value.broadcast
    ensures config.residential == Residential ==> tests[best.id].result.value.residential
    ensures config.residential == NonResidential ==> !tests[best.id].result.value.residential
    ensures forall n :: n in nodes && Usable(n, tests, config, excluded) ==>
                          && n.speed <= best.speed
                          && (n.speed == best.speed ==> n.score <= best.score)
                          && (n.speed == best.speed && n.score == best.score && n.ping.Some? && best.ping.Some? ==>
                                best.ping.value <= n.ping.value)
  {
    SelectNodeIsBest(nodes, tests, config, excluded);
    best :| IsBest(best, nodes, tests, config, excluded) && best.id == SelectNode(nodes, tests, config, excluded).value;
  }

  /** Two best nodes have the same id, so the choice depends only on which nodes there are. */
  lemma SelectionIgnoresSnapshotOrder(xs: seq<Node>, ys: seq<Node>, tests: map<NodeId, TestRecord>,
                                      config: AutoConnectConfig, excluded: set<NodeId>)
    requires forall n :: n in xs <==> n in ys
    ensures SelectNode(xs, tests, config, excluded) == SelectNode(ys, tests, config, excluded)
  {
    SelectNodeIsBest(xs, tests, config, excluded);
    SelectNodeIsBest(ys, tests, config, excluded);
    SelectOrderIsTotal();
    if SelectNode(xs, tests, config, excluded).Some? {
      var a :| IsBest(a, xs, tests, config, excluded) && a.id == SelectNode(xs, tests, config, excluded).value;
      var b :| IsBest(b, ys, tests, config, excluded) && b.id == SelectNode(ys, tests, config, excluded).value;
      assert SelectOrder(a, b) != Greater && SelectOrder(b, a) != Greater;
    }
  }

  // ----- automatic tests -----

  /** High score, then known low ping, then low id. */
  function TestOrder(a: Node, b: Node): Ordering {
    Compare(b.score, a.score)
    .Then(match (a.ping, b.ping)
          case (Some(x), Some(y)) => Compare(x, y)
          case (Some(_), None) => Less
          case (None, Some(_)) => Greater
          case (None, None) => Equal)
    .Then(Compare(a.id, b.id))
  }

  predicate Eligible(n: Node, tested: set<NodeId>, known: set<NodeId>) {
    n.availability == Available && n.hasProfile && n.id !in tested && n.id !in known
  }

  function Take<T>(xs: seq<T>, limit: nat): seq<T> { if limit < |xs| then xs[..limit] else xs }

  function Ids(xs: seq<Node>): (r: seq<NodeId>)
    ensures |r| == |xs| && forall i :: 0 <= i < |xs| ==> r[i] == xs[i].id
  {
    seq(|xs|, i requires 0 <= i < |xs| => xs[i].id)
  }

  function TestQueue(nodes: seq<Node>, tested: set<NodeId>, known: set<NodeId>): seq<Node> {
    SortBy(TestOrder, Filter((n: Node) => Eligible(n, tested, known), nodes))
  }

  function SelectAutomaticTests(nodes: seq<Node>, tested: set<NodeId>, known: set<NodeId>, limit: nat): seq<NodeId> {
    Ids(Take(TestQueue(nodes, tested, known), limit))
  }

  lemma TestOrderIsTotal()
    ensures IsTotalOrder(TestOrder)
    ensures forall a, b :: TestOrder(a, b) == Equal ==> a.id == b.id
  {
  }

  /** Node ids identify the nodes of a snapshot. */
  ghost predicate DistinctIds(nodes: seq<Node>) {
    forall i, j :: 0 <= i < j < |nodes| ==> nodes[i].id != nodes[j].id
  }

  lemma DistinctIdsDistinguish(cmp: (Node, Node) -> Ordering, xs: seq<Node>)
    requires DistinctIds(xs) && forall a, b :: cmp(a, b) == Equal ==> a.id == b.id
    ensures Distinguishes(cmp, xs)
  {
  }

  lemma {:induction false} FilterKeepsDistinct(p: Node -> bool, xs: seq<Node>)
    requires DistinctIds(xs)
    ensures DistinctIds(Filter(p, xs))
    decreases |xs|
  {
    if xs != [] {
      var front, last := xs[..|xs| - 1], xs[|xs| - 1];
      FilterKeepsDistinct(p, front);
      forall n | n in Filter(p, front) ensures n.id != last.id {
        var k :| 0 <= k < |front| && front[k] == n;
        assert xs[k].id != xs[|xs| - 1].id;
      }
    }
  }

  /** The chosen list does not depend on the order of the snapshot. */
  lemma TestQueueIgnoresSnapshotOrder(xs: seq<Node>, ys: seq<Node>, tested: set<NodeId>, known: set<NodeId>, limit: nat)
    requires DistinctIds(xs) && multiset(xs) == multiset(ys)
    ensures SelectAutomaticTests(xs, tested, known, limit) == SelectAutomaticTests(ys, tested, known, limit)
  {
    var p := (n: Node) => Eligible(n, tested, known);
    FilterIgnoresOrder(p, xs, ys);
    FilterKeepsDistinct(p, xs);
    TestOrderIsTotal();
    DistinctIdsDistinguish(TestOrder, Filter(p, xs));
    SortIgnoresOrder(TestOrder, Filter(p, xs), Filter(p, ys));
  }

  lemma MultisetOfDistinct(xs: seq<Node>, ys: seq<Node>)
    requires DistinctIds(xs) && multiset(ys) == multiset(xs)
    ensures DistinctIds(ys)
  {
    forall i, j | 0 <= i < j < |ys| ensures ys[i].id != ys[j].id {
      if ys[i].id == ys[j].id {
        assert ys[i] in multiset(xs) && ys[j] in multiset(xs);
        assert ys[i] == ys[j];
        TwicePresent(ys, i, j);
        OncePresent(xs, ys[i]);
      }
    }
  }

  lemma TwicePresent(xs: seq<Node>, i: nat, j: nat)
    requires i < j < |xs| && xs[i] == xs[j]
    ensures multiset(xs)[xs[i]] >= 2
  {
    assert xs == xs[..j] + [xs[j]] + xs[j + 1..];
    assert xs[..j][i] == xs[i];
    assert xs[i] in multiset(xs[..j]);
  }

  lemma {:induction false} OncePresent(xs: seq<Node>, x: Node)
    requires DistinctIds(xs)
    ensures multiset(xs)[x] <= 1
    decreases |xs|
  {
    if xs != [] {
      var front, last := xs[..|xs| - 1], xs[|xs| - 1];
      assert xs == front + [last];
      OncePresent(front, x);
      if x == last { assert last !in front; assert multiset(front)[x] == 0; }
    }
  }

  lemma TestQueueContents(nodes: seq<Node>, tested: set<NodeId>, known: set<NodeId>)
    ensures forall n :: n in TestQueue(nodes, tested, known) <==> n in nodes && Eligible(n, tested, known)
    ensures Sorted(TestOrder, TestQueue(nodes, tested, known))
    ensures DistinctIds(nodes) ==> DistinctIds(TestQueue(nodes, tested, known))
  {
    var p := (n: Node) => Eligible(n, tested, known);
    var eligible, queue := Filter(p, nodes), TestQueue(nodes, tested, known);
    SortByIsPermutation(TestOrder, eligible);
    TestOrderIsTotal();
    SortByIsSorted(TestOrder, eligible);
    forall n ensures n in queue <==> n in nodes && p(n) {
      assert n in queue <==> n in multiset(queue);
      assert n in eligible <==> n in multiset(eligible);
    }
    if DistinctIds(nodes) {
      FilterKeepsDistinct(p, nodes);
      MultisetOfDistinct(eligible, queue);
    }
  }

  /** Every chosen node is available, untested and unknown, and the list has no repeats when the
      snapshot has none. */
  lemma ChosenTestsAreEligible(nodes: seq<Node>, tested: set<NodeId>, known: set<NodeId>, limit: nat)
    ensures var r := SelectAutomaticTests(nodes, tested, known, limit);
            && |r| <= limit
            && (forall id :: id in r ==> exists n :: n in nodes && n.id == id && Eligible(n, tested, known))
            && (DistinctIds(nodes) ==> forall i, j :: 0 <= i < j < |r| ==> r[i] != r[j])
  {
    var queue := TestQueue(nodes, tested, known);
    var chosen, r := Take(queue, limit), SelectAutomaticTests(nodes, tested, known, limit);
    TestQueueContents(nodes, tested, known);
    forall id | id in r ensures exists n :: n in nodes && n.id == id && Eligible(n, tested, known) {
      var k :| 0 <= k < |r| && r[k] == id;
      assert queue[k] in queue && queue[k].id == id;
    }
  }

  /** Tests go to high scores first; among equal scores a known low ping goes first. */
  lemma TestsGoToHighScores(nodes: seq<Node>, tested: set<NodeId>, known: set<NodeId>, i: nat, j: nat)
    requires i < j < |TestQueue(nodes, tested, known)|
    ensures var a, b := TestQueue(nodes, tested, known)[i], TestQueue(nodes, tested, known)[j];
            && a.score >= b.score
            && (a.score == b.score && b.ping.Some? ==> a.ping.Some? && a.ping.value <= b.ping.value)
  {
    TestQueueContents(nodes, tested, known);
    var queue := TestQueue(nodes, tested, known);
    assert TestOrder(queue[i], queue[j]) != Greater;
  }

  /** An eligible node is left out only when the limit is used up by nodes that rank no lower. */
  lemma LeftOutTestsRankLower(nodes: seq<Node>, tested: set<NodeId>, known: set<NodeId>, limit: nat, n: Node, m: Node)
    requires n in nodes && Eligible(n, tested, known) && n.id !in SelectAutomaticTests(nodes, tested, known, limit)
    requires m in Take(TestQueue(nodes, tested, known), limit)
    ensures |SelectAutomaticTests(nodes, tested, known, limit)| == limit
    ensures TestOrder(m, n) != Greater
  {
    var queue := TestQueue(nodes, tested, known);
    var chosen := Take(queue, limit);
    TestQueueContents(nodes, tested, known);
    var k :| 0 <= k < |queue| && queue[k] == n;
    assert forall j :: 0 <= j < |chosen| ==> queue[j] == chosen[j] && Ids(chosen)[j] == chosen[j].id && chosen[j].id != n.id;
    var i :| 0 <= i < |chosen| && chosen[i] == m;
    assert queue[i] == m;
  }

  // ----- the paged node list -----

  datatype SortKey = ByScore | ByPing | BySpeed | BySessions | ByFraud
  datatype SortOrder = Ascending | Descending

  function FraudScore(tests: map<NodeId, TestRecord>, id: NodeId): Option<int> {
    if id in tests && tests[id].result.Some? then Some(tests[id].result.value.fraud) else None
  }

  /** The measurement a key sorts by, `None` when it is missing. */
  function Measurement(n: Node, tests: map<NodeId, TestRecord>, key: SortKey): Option<int> {
    match key
    case ByScore => Some(n.score)
    case ByPing => if n.ping.Some? then Some(n.ping.value) else None
    case BySpeed => Some(n.speed)
    case BySessions => Some(n.sessions)
    case ByFraud => FraudScore(tests, n.id)
  }

  /** Missing measurements go last in both directions; ties are broken by id. */
  function CompareMeasured(x: Option<int>, i: NodeId, y: Option<int>, j: NodeId, order: SortOrder): Ordering {
    if x.Some? && y.None? then Less
    else if x.None? && y.Some? then Greater
    else
      var ordering := if x.Some? && y.Some? then Compare(x.value, y.value) else Equal;
      (if order == Ascending then ordering else ordering.Reverse()).Then(Compare(i, j))
  }

  function CompareNodes(a: Node, b: Node, tests: map<NodeId, TestRecord>, key: SortKey, order: SortOrder): Ordering {
    CompareMeasured(Measurement(a, tests, key), a.id, Measurement(b, tests, key), b.id, order)
  }

  function Comparator(tests: map<NodeId, TestRecord>, key: SortKey, order: SortOrder): (Node, Node) -> Ordering {
    (a, b) => CompareNodes(a, b, tests, key, order)
  }

  lemma MeasuredIsTransitive(x: Option<int>, i: NodeId, y: Option<int>, j: NodeId, z: Option<int>, k: NodeId, order: SortOrder)
    requires CompareMeasured(x, i, y, j, order) != Greater && CompareMeasured(y, j, z, k, order) != Greater
    ensures CompareMeasured(x, i, z, k, order) != Greater
  {
  }

  lemma MeasuredIsAntisymmetric(x: Option<int>, i: NodeId, y: Option<int>, j: NodeId, order: SortOrder)
    ensures CompareMeasured(x, i, y, j, order) == CompareMeasured(y, j, x, i, order).Reverse()
    ensures CompareMeasured(x, i, y, j, order) == Equal ==> i == j
  {
  }

  lemma ComparatorIsTotal(tests: map<NodeId, TestRecord>, key: SortKey, order: SortOrder)
    ensures IsTotalOrder(Comparator(tests, key, order))
    ensures forall a, b :: CompareNodes(a, b, tests, key, order) == Equal ==> a.id == b.id
  {
    var cmp := Comparator(tests, key, order);
    forall a, b ensures cmp(a, b) == cmp(b, a).Reverse() && (cmp(a, b) == Equal ==> a.id == b.id) {
      MeasuredIsAntisymmetric(Measurement(a, tests, key), a.id, Measurement(b, tests, key), b.id, order);
    }
    forall a, b, c | cmp(a, b) != Greater && cmp(b, c) != Greater ensures cmp(a, c) != Greater {
      MeasuredIsTransitive(Measurement(a, tests, key), a.id, Measurement(b, tests, key), b.id,
                           Measurement(c, tests, key), c.id, order);
    }
  }

  /** Filtered and sorted nodes of one request. */
  function Listing(nodes: seq<Node>, wanted: Node -> bool, cmp: (Node, Node) -> Ordering): seq<Node> {
    SortBy(cmp, Filter(wanted, nodes))
  }

  /** `skip(offset).take(page_size)` with the saturating offset of the handler. */
  const USIZE_MAX := 0xffff_ffff_ffff_ffff

  function Page(xs: seq<Node>, page: nat, pageSize: nat): seq<Node>
    requires page >= 1
  {
    var product := (page - 1) * pageSize;
    var offset := if product > USIZE_MAX then USIZE_MAX else product;
    if offset >= |xs| then [] else Take(xs[offset..], pageSize)
  }

  function Pages(xs: seq<Node>, count: nat, pageSize: nat): seq<Node> {
    if count == 0 then [] else Pages(xs, count - 1, pageSize) + Page(xs, count, pageSize)
  }

  lemma TakeMore(xs: seq<Node>, start: nat, size: nat)
    ensures Take(xs, start) + (if start >= |xs| then [] else Take(xs[start..], size)) == Take(xs, start + size)
  {
    if start + size < |xs| {
      assert xs[..start] + xs[start..][..size] == xs[..start + size];
    } else if start < |xs| {
      assert xs[..start] + xs[start..] == xs;
    }
  }

  /** An offset that saturates lies behind the end. */
  lemma PageStartsAt(xs: seq<Node>, page: nat, pageSize: nat, start: nat)
    requires page >= 1 && start == (page - 1) * pageSize && |xs| <= USIZE_MAX
    ensures Page(xs, page, pageSize) == if start >= |xs| then [] else Take(xs[start..], pageSize)
  {
  }

  lemma OneMorePage(count: nat, pageSize: nat)
    requires count >= 1
    ensures count * pageSize == (count - 1) * pageSize + pageSize
  {
  }

  lemma {:induction false} PagesArePrefix(xs: seq<Node>, count: nat, pageSize: nat)
    requires |xs| <= USIZE_MAX
    ensures Pages(xs, count, pageSize) == Take(xs, count * pageSize)
  {
    if count > 0 {
      PagesArePrefix(xs, count - 1, pageSize);
      var start := (count - 1) * pageSize;
      PageStartsAt(xs, count, pageSize, start);
      TakeMore(xs, start, pageSize);
      OneMorePage(count, pageSize);
    }
  }

  /** A known measurement is preceded by known ones that go up or down as asked. */
  predicate InDirection(x: Option<int>, y: Option<int>, order: SortOrder) {
    x.Some? && y.Some? && if order == Ascending then x.value <= y.value else x.value >= y.value
  }

  /** In the listing measurements go as asked, and missing ones come last in both directions. */
  lemma {:induction false} ListingIsOrdered(nodes: seq<Node>, wanted: Node -> bool, tests: map<NodeId, TestRecord>,
                                            key: SortKey, order: SortOrder, i: nat, j: nat)
    requires i < j < |Listing(nodes, wanted, Comparator(tests, key, order))|
    ensures var listing := Listing(nodes, wanted, Comparator(tests, key, order));
            var x, y := Measurement(listing[i], tests, key), Measurement(listing[j], tests, key);
            (x.None? ==> y.None?) && (y.Some? ==> InDirection(x, y, order))
  {
    var cmp := Comparator(tests, key, order);
    var listing := Listing(nodes, wanted, cmp);
    ComparatorIsTotal(tests, key, order);
    SortByIsSorted(cmp, Filter(wanted, nodes));
    assert cmp(listing[i], listing[j]) != Greater;
  }

  /** Reading enough pages, each answered from its own reordering of the same snapshot, yields
      every wanted node exactly once, in comparator order. */
  lemma {:induction false} PagesCoverListing(nodes: seq<Node>, again: seq<Node>, wanted: Node -> bool,
                                             tests: map<NodeId, TestRecord>, key: SortKey, order: SortOrder,
                                             pageSize: nat, count: nat)
    requires DistinctIds(nodes) && multiset(again) == multiset(nodes)
    requires 1 <= pageSize <= 200 && |nodes| <= USIZE_MAX && |nodes| <= count * pageSize
    ensures var listing := Listing(again, wanted, Comparator(tests, key, order));
            && listing == Listing(nodes, wanted, Comparator(tests, key, order))
            && Pages(listing, count, pageSize) == listing
            && multiset(listing) == multiset(Filter(wanted, nodes))
            && DistinctIds(listing)
  {
    var cmp := Comparator(tests, key, order);
    var kept := Filter(wanted, nodes);
    ComparatorIsTotal(tests, key, order);
    FilterIgnoresOrder(wanted, again, nodes);
    FilterKeepsDistinct(wanted, nodes);
    DistinctIdsDistinguish(cmp, kept);
    SortIgnoresOrder(cmp, kept, Filter(wanted, again));
    SortByIsPermutation(cmp, kept);
    var listing := SortBy(cmp, kept);
    MultisetOfDistinct(kept, listing);
    FilterShortens(wanted, nodes);
    assert |multiset(listing)| == |listing| && |multiset(kept)| == |kept|;
    PagesArePrefix(listing, count, pageSize);
  }

  lemma {:induction false} FilterShortens<T(!new)>(p: T -> bool, xs: seq<T>)
    ensures |Filter(p, xs)| <= |xs|
    decreases |xs|
  {
    if xs != [] { FilterShortens(p, xs[..|xs| - 1]); }
  }
}
