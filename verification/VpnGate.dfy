/** Rows of the node list become nodes; an available node carries a profile the helper accepts. */
module VpnGate {
  import opened Wrappers
  import opened Texts
  import opened Addresses
  import opened AddressTexts
  import opened OpenVpn
  import opened ProfileTheorems
  import opened NodeColumns
  import Nodes

  /** What the digest inside the node id is taken of. */
  datatype Hashed = OfText(text: string) | OfBytes(raw: seq<nat>)

  /** The node id is a digest of this; a missing port counts as 0. */
  datatype NodeKey = NodeKey(hostname: string, ip: Ipv4, port: nat, profile: Hashed)

  datatype Listed = Listed(
    key: NodeKey,
    labels: Labels,
    figures: Figures,
    ip: Ipv4,
    availability: Nodes.Availability,
    openvpn: Option<Sanitized>,
    tcpPort: Option<Port>)

  // ----- the node -----

  function Key(l: Labels, ip: Ipv4, port: Option<Port>, profile: Hashed): NodeKey {
    NodeKey(l.hostname, ip, if port.Some? then port.value else 0, profile)
  }

  function Raw(profile: Column): Hashed
    requires !profile.Undecodable?
  {
    if profile.NotUtf8? then OfBytes(profile.raw) else OfText(profile.text)
  }

  function Unusable(l: Labels, f: Figures, ip: Ipv4, availability: Nodes.Availability, profile: Column): Listed
    requires !profile.Undecodable?
  {
    Listed(Key(l, ip, None, Raw(profile)), l, f, ip, availability, None, None)
  }

  function Usable(l: Labels, f: Figures, ip: Ipv4, p: Sanitized): Listed {
    var port := if p.remote.port == 0 then None else Some(p.remote.port);
    Listed(Key(l, ip, port, OfText(p.rendered)), l, f, ip, Nodes.Available, Some(p), port)
  }

  ghost function Classified(l: Labels, f: Figures, ip: Ipv4, profile: Column): (n: Listed)
    requires !profile.Undecodable?
    ensures n.ip == ip && (n.availability == Nodes.Available <==> n.openvpn.Some?)
  {
    if profile.NotUtf8? then Unusable(l, f, ip, Nodes.InvalidConfig, profile)
    else
      match Sanitize(profile.text, ip)
      case Success(p) => Usable(l, f, ip, p)
      case Failure(UnsupportedProtocol) => Unusable(l, f, ip, Nodes.UnsupportedProtocol, profile)
      case Failure(_) => Unusable(l, f, ip, Nodes.InvalidConfig, profile)
  }

  ghost function ParseNode(r: Record): (n: Option<Listed>)
    ensures n.Some? ==> (n.value.availability == Nodes.Available <==> n.value.openvpn.Some?)
  {
    if r.ip.None? || !IsPublic(r.ip.value) || r.labels.None? || r.figures.None? || r.profile.Undecodable? then None
    else Some(Classified(r.labels.value, r.figures.value, r.ip.value, r.profile))
  }

  method ParseRecord(r: Record) returns (node: Option<Listed>)
    ensures node == ParseNode(r)
  {
    if r.ip.None? || !IsPublic(r.ip.value) || r.labels.None? || r.figures.None? || r.profile.Undecodable? { return None; }
    var ip, l, f := r.ip.value, r.labels.value, r.figures.value;
    if r.profile.NotUtf8? { return Some(Unusable(l, f, ip, Nodes.InvalidConfig, r.profile)); }
    var sanitized := SanitizeOpenVpn(r.profile.text, ip);
    match sanitized
    case Success(p) => node := Some(Usable(l, f, ip, p));
    case Failure(e) =>
      var availability := if e.UnsupportedProtocol? then Nodes.UnsupportedProtocol else Nodes.InvalidConfig;
      node := Some(Unusable(l, f, ip, availability, r.profile));
  }

  lemma ClassifiedIsConsistent(l: Labels, f: Figures, ip: Ipv4, profile: Column)
    requires !profile.Undecodable?
    ensures var n := Classified(l, f, ip, profile);
            && (n.openvpn.Some? <==> n.tcpPort.Some?)
            && (n.openvpn.Some? ==> n.openvpn.value.remote == Endpoint(ip, n.tcpPort.value) && n.tcpPort.value > 0)
  {
    if profile.Decoded? && Sanitize(profile.text, ip).Success? { AcceptedIsWellFormed(profile.text, ip); }
  }

  /** Availability, profile and port appear together, and they agree on a public endpoint. */
  lemma AvailabilityMeansProfile(r: Record)
    requires ParseNode(r).Some?
    ensures var n := ParseNode(r).value;
            && IsPublic(n.ip)
            && (n.availability == Nodes.Available <==> n.openvpn.Some?)
            && (n.availability == Nodes.Available <==> n.tcpPort.Some?)
            && (n.openvpn.Some? ==> n.openvpn.value.remote == Endpoint(n.ip, n.tcpPort.value) && n.tcpPort.value > 0)
  {
    ClassifiedIsConsistent(r.labels.value, r.figures.value, r.ip.value, r.profile);
  }

  /** The key of an available node is made of its host name and its profile. */
  predicate IsKeyed(n: Listed) {
    && n.openvpn.Some?
    && n.key == NodeKey(n.labels.hostname, n.openvpn.value.remote.ip, n.openvpn.value.remote.port,
                        OfText(n.openvpn.value.rendered))
  }

  lemma AvailableIsKeyed(r: Record)
    requires ParseNode(r).Some? && ParseNode(r).value.availability == Nodes.Available
    ensures IsKeyed(ParseNode(r).value)
  {
    AvailabilityMeansProfile(r);
  }

  lemma KeysAgree(n: Listed, m: Listed)
    requires IsKeyed(n) && IsKeyed(m)
    ensures n.key == m.key <==> n.labels.hostname == m.labels.hostname && n.openvpn == m.openvpn
  {
  }

  /** Two available rows get the same id exactly if they have the same host name and the same
      sanitized profile, whatever their other columns and their original profiles say. */
  lemma NodeIdentity(r: Record, q: Record)
    requires ParseNode(r).Some? && ParseNode(r).value.availability == Nodes.Available
    requires ParseNode(q).Some? && ParseNode(q).value.availability == Nodes.Available
    ensures var n, m := ParseNode(r).value, ParseNode(q).value;
            n.key == m.key <==> n.labels.hostname == m.labels.hostname && n.openvpn == m.openvpn
  {
    AvailableIsKeyed(r);
    AvailableIsKeyed(q);
    KeysAgree(ParseNode(r).value, ParseNode(q).value);
  }

  /** The helper's checks before it allocates anything: a public address, a profile that sanitizes
      for it, and the expected endpoint in that profile. */
  ghost predicate HelperAccepts(expected: Endpoint, profile: string) {
    && IsPublic(expected.ip)
    && Sanitize(profile, expected.ip).Success?
    && Sanitize(profile, expected.ip).value.remote == expected
  }

  /** The profile of an available node passes the helper's checks exactly when its text is within
      the size limit. */
  lemma AvailablePassesHelper(r: Record)
    requires ParseNode(r).Some? && ParseNode(r).value.availability == Nodes.Available
    ensures var profile := ParseNode(r).value.openvpn.value;
            HelperAccepts(profile.remote, profile.rendered) <==> Bytes(profile.rendered) <= MAX_PROFILE_BYTES
  {
    AvailabilityMeansProfile(r);
    ResanitizingIsStable(r.profile.text, ParseNode(r).value.ip);
  }

  // ----- the whole snapshot -----

  /** A marker row, a row the CSV reader rejects or that has the wrong width, or a full row. */
  datatype Row = EndMarker | Malformed | Full(record: Record)

  datatype Stats = Stats(rowsSeen: nat, accepted: nat, rejected: nat, unsupported: nat)

  function DataRows(rows: seq<Row>): seq<Row> {
    if rows == [] || rows[0].EndMarker? then [] else [rows[0]] + DataRows(rows[1..])
  }

  ghost function NodesOf(row: Row): seq<Listed> {
    if row.Full? && ParseNode(row.record).Some? then [ParseNode(row.record).value] else []
  }

  ghost function Accepted(rows: seq<Row>): seq<Listed> {
    if rows == [] then [] else NodesOf(rows[0]) + Accepted(rows[1..])
  }

  function Unavailable(nodes: seq<Listed>): nat {
    if nodes == [] then 0
    else Unavailable(nodes[..|nodes| - 1]) + if nodes[|nodes| - 1].availability == Nodes.Available then 0 else 1
  }

  lemma {:induction false} DataRowsStep(rows: seq<Row>)
    requires rows != [] && !rows[0].EndMarker?
    ensures DataRows(rows) != [] && DataRows(rows)[0] == rows[0] && DataRows(rows)[1..] == DataRows(rows[1..])
  {
  }

  lemma AppendsAssociate(a: seq<Listed>, b: seq<Listed>, c: seq<Listed>)
    ensures a + (b + c) == a + b + c
  {
  }

  lemma {:induction false} NextDataRow(rows: seq<Row>, nodes: seq<Listed>)
    requires rows != [] && !rows[0].EndMarker?
    ensures |DataRows(rows)| == 1 + |DataRows(rows[1..])|
    ensures nodes + Accepted(DataRows(rows)) == nodes + NodesOf(rows[0]) + Accepted(DataRows(rows[1..]))
  {
    DataRowsStep(rows);
    AppendsAssociate(nodes, NodesOf(rows[0]), Accepted(DataRows(rows[1..])));
  }

  predicate AreCounted(stats: Stats, nodes: seq<Listed>, rows: nat) {
    && stats.rowsSeen == rows == stats.accepted + stats.rejected
    && stats.accepted == |nodes| && stats.unsupported == Unavailable(nodes)
  }

  /** One row after the limit check: `rowsSeen` and one of the other counters move. */
  method CountRow(row: Row, nodes: seq<Listed>, stats: Stats, ghost rows: nat)
    returns (nodes': seq<Listed>, stats': Stats)
    requires AreCounted(stats, nodes, rows)
    ensures nodes' == nodes + NodesOf(row) && AreCounted(stats', nodes', rows + 1)
  {
    nodes', stats' := nodes, stats.(rowsSeen := stats.rowsSeen + 1);
    var node: Option<Listed> := None;
    if row.Full? { node := ParseRecord(row.record); }
    if node.None? {
      stats' := stats'.(rejected := stats'.rejected + 1);
      return;
    }
    if node.value.availability != Nodes.Available { stats' := stats'.(unsupported := stats'.unsupported + 1); }
    stats' := stats'.(accepted := stats'.accepted + 1);
    nodes' := nodes + [node.value];
    assert nodes'[..|nodes'| - 1] == nodes;
  }

  /** Every data row is counted once, as accepted or as rejected, and the nodes are the accepted
      rows in order; more than `maxRows` data rows are refused. */
  method ParseSnapshot(rows: seq<Row>, maxRows: nat) returns (r: Option<(seq<Listed>, Stats)>)
    ensures r.None? <==> |DataRows(rows)| > maxRows
    ensures r.Some? ==> r.value.0 == Accepted(DataRows(rows)) && AreCounted(r.value.1, r.value.0, |DataRows(rows)|)
  {
    var nodes: seq<Listed>, stats, rest := [], Stats(0, 0, 0, 0), rows;
    while rest != [] && !rest[0].EndMarker?
      invariant AreCounted(stats, nodes, stats.rowsSeen) && stats.rowsSeen <= maxRows
      invariant stats.rowsSeen + |DataRows(rest)| == |DataRows(rows)|
      invariant nodes + Accepted(DataRows(rest)) == Accepted(DataRows(rows))
      decreases |rest|
    {
      NextDataRow(rest, nodes);
      if stats.rowsSeen >= maxRows { return None; }
      nodes, stats := CountRow(rest[0], nodes, stats, stats.rowsSeen);
      rest := rest[1..];
    }
    assert DataRows(rest) == [] && nodes + [] == nodes;
    r := Some((nodes, stats));
  }
}
