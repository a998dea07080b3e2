/**
  The tfvars generator of scripts/generate_terraform_config.py: the key maps it
  builds from the inventory, the entries of each variable map, and which optional
  attributes each entry prints.

  A printed entry is an ordered map from attribute name to value; the HCL layout
  around it (indentation, alignment, braces) is not modelled.
 */
module TerraformConfig {
  import opened Wrappers
  import opened Strings
  import opened Seqs
  import opened OrderedMap
  import opened Tags
  import opened Sanitize
  import opened Inventory

  // ---------------------------------------------------------------------------
  // Route tables (rt_id_to_key and route_tables)
  // ---------------------------------------------------------------------------

  function RouteTableName(rt: TgwRouteTable): string {
    GetTagValue(rt.tags, "Name", rt.id)
  }

  /** A route table's key: its sanitized `Name` tag, or its sanitized id without one. */
  function KeyOfRouteTable(rt: TgwRouteTable): string {
    SanitizeKey(RouteTableName(rt))
  }

  function RouteTableKeyEntry(rt: TgwRouteTable): Option<(string, string)> {
    Some((rt.id, KeyOfRouteTable(rt)))
  }

  /** rt_id_to_key: route-table id to key, in file order. */
  function RouteTableKeys(tables: seq<TgwRouteTable>): OMap<string, string> {
    PutAll([], Collect(tables, RouteTableKeyEntry))
  }

  datatype RouteTableConfig = RouteTableConfig(name: string, tags: OMap<string, string>)

  function RouteTableConfigEntry(rt: TgwRouteTable): Option<(string, RouteTableConfig)> {
    Some((KeyOfRouteTable(rt), RouteTableConfig(RouteTableName(rt), TagsToMap(rt.tags))))
  }

  /** route_tables: key to name and tags; of two tables with one key, the later one's entry is kept. */
  function RouteTableConfigs(tables: seq<TgwRouteTable>): OMap<string, RouteTableConfig> {
    PutAll([], Collect(tables, RouteTableConfigEntry))
  }

  /** Every route-table id of the file is mapped, once, and no other id is. */
  lemma RouteTableKeysMembers(tables: seq<TgwRouteTable>, id: string)
    ensures Distinct(Keys(RouteTableKeys(tables)))
    ensures id in Keys(RouteTableKeys(tables)) <==> exists rt | rt in tables :: rt.id == id
  {
    CollectedKey(tables, RouteTableKeyEntry, id);
    if rt :| rt in tables && rt.id == id {
      var i :| 0 <= i < |tables| && tables[i] == rt;
      assert Emits(RouteTableKeyEntry, tables[i], id);
    }
  }

  /** An id shared by several tables is mapped to the key of the last of them. */
  lemma RouteTableKeysLast(tables: seq<TgwRouteTable>, id: string, i: int)
    requires 0 <= i < |tables| && tables[i].id == id
    requires forall j | i < j < |tables| :: tables[j].id != id
    ensures Get(RouteTableKeys(tables), id) == Some(KeyOfRouteTable(tables[i]))
  {
    assert IsLastEmitter(tables, RouteTableKeyEntry, id, i);
    CollectedMap(tables, RouteTableKeyEntry, id);
  }

  /** route_tables has each key once, and every entry is keyed by the sanitized name it records. */
  lemma RouteTableConfigsKeyed(tables: seq<TgwRouteTable>)
    ensures Distinct(Keys(RouteTableConfigs(tables)))
    ensures forall e | e in RouteTableConfigs(tables) :: e.0 == SanitizeKey(e.1.name)
  {
    forall e | e in RouteTableConfigs(tables) ensures e.0 == SanitizeKey(e.1.name) {
      CollectedEntry(tables, RouteTableConfigEntry, e);
    }
    CollectedKey(tables, RouteTableConfigEntry, "");
  }

  // ---------------------------------------------------------------------------
  // Attachments (attachment_id_to_key, vpc_attachments, peering_attachments)
  // ---------------------------------------------------------------------------

  function AttachmentName(a: Attachment): string {
    GetTagValue(a.tags, "Name", a.id)
  }

  function KeyOfAttachment(a: Attachment): string {
    SanitizeKey(AttachmentName(a))
  }

  /** The two attachment loops in order: every attachment on the `vpc` pass, then every attachment on the `peering` pass. */
  function AttachmentPasses(atts: seq<Attachment>): seq<(string, Attachment)> {
    seq(|atts|, i requires 0 <= i < |atts| => ("vpc", atts[i]))
    + seq(|atts|, i requires 0 <= i < |atts| => ("peering", atts[i]))
  }

  /** What one pass registers for an attachment of its own type: the key and the type. */
  function AttachmentKeyEntry(pass: (string, Attachment)): Option<(string, (string, string))> {
    if pass.1.resourceType == pass.0 then Some((pass.1.id, (KeyOfAttachment(pass.1), pass.0))) else None
  }

  /** attachment_id_to_key: attachment id to (key, type), VPC attachments first, then peering attachments. */
  function AttachmentKeys(atts: seq<Attachment>): OMap<string, (string, string)> {
    PutAll([], Collect(AttachmentPasses(atts), AttachmentKeyEntry))
  }

  predicate IsVpcOrPeering(a: Attachment) {
    a.resourceType == "vpc" || a.resourceType == "peering"
  }

  /**
    Exactly the VPC and peering attachments are registered, each id once; peering
    attachments are registered whether or not their entry is printed.
   */
  lemma AttachmentKeysMembers(atts: seq<Attachment>, id: string)
    ensures Distinct(Keys(AttachmentKeys(atts)))
    ensures id in Keys(AttachmentKeys(atts)) <==> exists a | a in atts :: a.id == id && IsVpcOrPeering(a)
  {
    CollectedKey(AttachmentPasses(atts), AttachmentKeyEntry, id);
    AttachmentPassesEmit(atts, id);
  }

  /** Some pass registers `id` exactly when a VPC or peering attachment has that id. */
  lemma AttachmentPassesEmit(atts: seq<Attachment>, id: string)
    ensures SomeEmitter(AttachmentPasses(atts), AttachmentKeyEntry, id)
            <==> exists a | a in atts :: a.id == id && IsVpcOrPeering(a)
  {
    var passes := AttachmentPasses(atts);
    if a :| a in atts && a.id == id && IsVpcOrPeering(a) {
      var i :| 0 <= i < |atts| && atts[i] == a;
      var j := if a.resourceType == "vpc" then i else |atts| + i;
      AttachmentPassAt(atts, j);
      assert Emits(AttachmentKeyEntry, passes[j], id);
    }
    if i :| 0 <= i < |passes| && Emits(AttachmentKeyEntry, passes[i], id) {
      AttachmentPassAt(atts, i);
      var a := passes[i].1;
      assert a in atts && a.id == id && IsVpcOrPeering(a);
    }
  }

  /** Pass element `i`: the `vpc` pass over every attachment, then the `peering` pass. */
  lemma AttachmentPassAt(atts: seq<Attachment>, i: int)
    requires 0 <= i < |AttachmentPasses(atts)|
    ensures AttachmentPasses(atts)[i] == if i < |atts| then ("vpc", atts[i]) else ("peering", atts[i - |atts|])
    ensures AttachmentPasses(atts)[i].1 in atts
  {
  }

  /** Every registered id maps to the key and type of a VPC or peering attachment carrying that id. */
  lemma AttachmentKeysEntry(atts: seq<Attachment>, e: (string, (string, string)))
    requires e in AttachmentKeys(atts)
    ensures exists a | a in atts :: a.id == e.0 && IsVpcOrPeering(a) && e.1 == (KeyOfAttachment(a), a.resourceType)
  {
    var passes := AttachmentPasses(atts);
    CollectedEntry(passes, AttachmentKeyEntry, e);
    var i :| 0 <= i < |passes| && AttachmentKeyEntry(passes[i]) == Some(e);
    AttachmentPassAt(atts, i);
    var a := passes[i].1;
    assert a.id == e.0 && IsVpcOrPeering(a) && e.1 == (KeyOfAttachment(a), a.resourceType);
  }

  /** The entry of a VPC attachment in vpc_attachments. */
  datatype VpcAttachmentConfig = VpcAttachmentConfig(
    name: string,
    vpcId: string,
    subnetIds: seq<string>,
    applianceModeSupport: string,
    dnsSupport: string,
    ipv6Support: string,
    tags: OMap<string, string>)

  const ApplianceModeDefault := "disable"
  const DnsSupportDefault := "enable"
  const Ipv6SupportDefault := "disable"

  /** The subnet ids of the first element of the detail file, or none when the file is missing or empty. */
  function DetailSubnetIds(details: seq<VpcAttachmentDetail>): seq<string> {
    if |details| == 0 then [] else details[0].subnetIds
  }

  function VpcAttachmentConfigOf(a: Attachment, details: map<string, seq<VpcAttachmentDetail>>): VpcAttachmentConfig {
    VpcAttachmentConfig(
      AttachmentName(a), a.resourceId, DetailSubnetIds(FileOf(details, a.id)),
      Field(a.options, "ApplianceModeSupport", ApplianceModeDefault),
      Field(a.options, "DnsSupport", DnsSupportDefault),
      Field(a.options, "Ipv6Support", Ipv6SupportDefault),
      TagsToMap(a.tags))
  }

  function VpcAttachmentEntry(details: map<string, seq<VpcAttachmentDetail>>): Attachment -> Option<(string, VpcAttachmentConfig)> {
    (a: Attachment) => if a.resourceType == "vpc" then Some((KeyOfAttachment(a), VpcAttachmentConfigOf(a, details))) else None
  }

  /** vpc_attachments: key to configuration, for the attachments of type `vpc`. */
  function VpcAttachmentConfigs(atts: seq<Attachment>, details: map<string, seq<VpcAttachmentDetail>>): OMap<string, VpcAttachmentConfig> {
    PutAll([], Collect(atts, VpcAttachmentEntry(details)))
  }

  /** The entry of a peering attachment in peering_attachments. */
  datatype PeeringConfig = PeeringConfig(
    name: string,
    peerGatewayId: string,
    peerRegion: string,
    peerAccountId: string,
    tags: OMap<string, string>)

  /** The accepter side from the first element of the detail file; every field empty when there is none. */
  function AccepterOf(details: seq<PeeringDetail>): PeeringDetail {
    if |details| == 0 then PeeringDetail("", "", "") else details[0]
  }

  /** A peering attachment is printed only when its accepter gateway id and region are both known. */
  predicate HasPeer(a: Attachment, details: map<string, seq<PeeringDetail>>) {
    var peer := AccepterOf(FileOf(details, a.id));
    peer.accepterGatewayId != "" && peer.accepterRegion != ""
  }

  function PeeringEntry(details: map<string, seq<PeeringDetail>>): Attachment -> Option<(string, PeeringConfig)> {
    (a: Attachment) =>
      var peer := AccepterOf(FileOf(details, a.id));
      if a.resourceType == "peering" && HasPeer(a, details)
      then Some((KeyOfAttachment(a), PeeringConfig(AttachmentName(a), peer.accepterGatewayId, peer.accepterRegion, peer.accepterOwnerId, TagsToMap(a.tags))))
      else None
  }

  /** peering_attachments: key to configuration, for the peering attachments whose accepter side is known. */
  function PeeringConfigs(atts: seq<Attachment>, details: map<string, seq<PeeringDetail>>): OMap<string, PeeringConfig> {
    PutAll([], Collect(atts, PeeringEntry(details)))
  }

  /** vpc_attachments has a key exactly for the sanitized names of the attachments of type `vpc`. */
  lemma VpcAttachmentConfigsMembers(atts: seq<Attachment>, details: map<string, seq<VpcAttachmentDetail>>, key: string)
    ensures Distinct(Keys(VpcAttachmentConfigs(atts, details)))
    ensures key in Keys(VpcAttachmentConfigs(atts, details)) <==>
            exists a | a in atts :: a.resourceType == "vpc" && KeyOfAttachment(a) == key
  {
    var f := VpcAttachmentEntry(details);
    CollectedKey(atts, f, key);
    if exists a | a in atts :: a.resourceType == "vpc" && KeyOfAttachment(a) == key {
      var a :| a in atts && a.resourceType == "vpc" && KeyOfAttachment(a) == key;
      var i :| 0 <= i < |atts| && atts[i] == a;
      assert Emits(f, atts[i], key);
    }
  }

  /**
    peering_attachments has a key exactly for the sanitized names of the peering
    attachments whose accepter gateway and region are known.
   */
  lemma PeeringConfigsMembers(atts: seq<Attachment>, details: map<string, seq<PeeringDetail>>, key: string)
    ensures Distinct(Keys(PeeringConfigs(atts, details)))
    ensures key in Keys(PeeringConfigs(atts, details)) <==>
            exists a | a in atts :: a.resourceType == "peering" && HasPeer(a, details) && KeyOfAttachment(a) == key
  {
    var f := PeeringEntry(details);
    CollectedKey(atts, f, key);
    if exists a | a in atts :: a.resourceType == "peering" && HasPeer(a, details) && KeyOfAttachment(a) == key {
      var a :| a in atts && a.resourceType == "peering" && HasPeer(a, details) && KeyOfAttachment(a) == key;
      var i :| 0 <= i < |atts| && atts[i] == a;
      assert Emits(f, atts[i], key);
    }
  }

  /** A printed peering entry always names the accepter gateway and region. */
  lemma PeeringConfigsEntry(atts: seq<Attachment>, details: map<string, seq<PeeringDetail>>, e: (string, PeeringConfig))
    requires e in PeeringConfigs(atts, details)
    ensures e.1.peerGatewayId != "" && e.1.peerRegion != ""
    ensures exists a | a in atts :: a.resourceType == "peering" && KeyOfAttachment(a) == e.0 && AttachmentName(a) == e.1.name
  {
    CollectedEntry(atts, PeeringEntry(details), e);
  }

  // ---------------------------------------------------------------------------
  // Per-route-table files
  // ---------------------------------------------------------------------------

  /**
    The nested loop `for rt_id, rt_key in rt_id_to_key.items()` over the records
    of each route table's file: each record paired with its table's key.
   */
  function PerRouteTable<T>(rtKeys: OMap<string, string>, files: map<string, seq<T>>): seq<(string, T)>
    decreases |rtKeys|
  {
    if |rtKeys| == 0 then []
    else
      var file := FileOf(files, rtKeys[0].0);
      seq(|file|, i requires 0 <= i < |file| => (rtKeys[0].1, file[i])) + PerRouteTable(rtKeys[1..], files)
  }

  lemma {:induction false} PerRouteTableMembers<T>(rtKeys: OMap<string, string>, files: map<string, seq<T>>, x: (string, T))
    ensures x in PerRouteTable(rtKeys, files) <==> exists r | r in rtKeys :: x.0 == r.1 && x.1 in FileOf(files, r.0)
    decreases |rtKeys|
  {
    if |rtKeys| > 0 {
      PerRouteTableMembers(rtKeys[1..], files, x);
      var file := FileOf(files, rtKeys[0].0);
      var head := seq(|file|, i requires 0 <= i < |file| => (rtKeys[0].1, file[i]));
      assert x in head <==> x.0 == rtKeys[0].1 && x.1 in file by {
        if x.0 == rtKeys[0].1 && x.1 in file {
          var i :| 0 <= i < |file| && file[i] == x.1;
          assert head[i] == x;
        }
      }
      assert forall r | r in rtKeys :: r == rtKeys[0] || r in rtKeys[1..];
    }
  }

  // ---------------------------------------------------------------------------
  // Associations and propagations
  // ---------------------------------------------------------------------------

  /** A link the generator keeps: in `state`, with a registered attachment id. */
  predicate Resolves(link: Link, state: string, attKeys: OMap<string, (string, string)>) {
    link.state == state && link.attachmentId.Some? && link.attachmentId.value in Keys(attKeys)
  }

  /** The (key, type) registered for a kept link's attachment. */
  function LinkTarget(link: Link, state: string, attKeys: OMap<string, (string, string)>): (string, string)
    requires Resolves(link, state, attKeys)
  {
    Get(attKeys, link.attachmentId.value).value
  }

  /** An association or propagation entry. */
  datatype LinkConfig = LinkConfig(routeTableKey: string, attachmentKey: string, attachmentType: string)

  function LinkEntry(state: string, attKeys: OMap<string, (string, string)>): ((string, Link)) -> Option<(string, LinkConfig)> {
    (item: (string, Link)) =>
      if Resolves(item.1, state, attKeys) then
        var target := LinkTarget(item.1, state, attKeys);
        Some((item.0 + "_" + target.0, LinkConfig(item.0, target.0, target.1)))
      else None
  }

  /** The association (`associated`) or propagation (`enabled`) entries, keyed `{rt_key}_{attachment_key}`. */
  function LinkConfigs(rtKeys: OMap<string, string>, files: map<string, seq<Link>>, state: string,
                       attKeys: OMap<string, (string, string)>): OMap<string, LinkConfig> {
    PutAll([], Collect(PerRouteTable(rtKeys, files), LinkEntry(state, attKeys)))
  }

  function Associations(cat: Catalog): OMap<string, LinkConfig> {
    LinkConfigs(RouteTableKeys(cat.tgwRouteTables), cat.associations, "associated", AttachmentKeys(cat.attachments))
  }

  function Propagations(cat: Catalog): OMap<string, LinkConfig> {
    LinkConfigs(RouteTableKeys(cat.tgwRouteTables), cat.propagations, "enabled", AttachmentKeys(cat.attachments))
  }

  /**
    There is an entry `{rt_key}_{attachment_key}` exactly when some route table's
    file holds a link in `state` to a registered attachment with that key; links in
    another state and links to unregistered attachments leave no entry.
   */
  lemma LinkConfigsMembers(rtKeys: OMap<string, string>, files: map<string, seq<Link>>, state: string,
                           attKeys: OMap<string, (string, string)>, key: string)
    ensures Distinct(Keys(LinkConfigs(rtKeys, files, state, attKeys)))
    ensures key in Keys(LinkConfigs(rtKeys, files, state, attKeys)) <==>
            exists r, l | r in rtKeys && l in FileOf(files, r.0) :: YieldsLinkKey(r.1, l, state, attKeys, key)
  {
    var items := PerRouteTable(rtKeys, files);
    assert LinkConfigs(rtKeys, files, state, attKeys) == PutAll([], Collect(items, LinkEntry(state, attKeys)));
    CollectedKey(items, LinkEntry(state, attKeys), key);
    LinkItemsEmit(rtKeys, files, state, attKeys, key);
  }

  /** A link in the file of the route table keyed `rtKey` yields the entry `key`. */
  predicate YieldsLinkKey(rtKey: string, l: Link, state: string, attKeys: OMap<string, (string, string)>, key: string) {
    Resolves(l, state, attKeys) && rtKey + "_" + LinkTarget(l, state, attKeys).0 == key
  }

  lemma LinkItemsEmit(rtKeys: OMap<string, string>, files: map<string, seq<Link>>, state: string,
                      attKeys: OMap<string, (string, string)>, key: string)
    ensures SomeEmitter(PerRouteTable(rtKeys, files), LinkEntry(state, attKeys), key) <==>
            exists r, l | r in rtKeys && l in FileOf(files, r.0) :: YieldsLinkKey(r.1, l, state, attKeys, key)
  {
    var items := PerRouteTable(rtKeys, files);
    var f := LinkEntry(state, attKeys);
    if i :| 0 <= i < |items| && Emits(f, items[i], key) {
      PerRouteTableMembers(rtKeys, files, items[i]);
      assert YieldsLinkKey(items[i].0, items[i].1, state, attKeys, key);
    }
    if r, l :| r in rtKeys && l in FileOf(files, r.0) && YieldsLinkKey(r.1, l, state, attKeys, key) {
      PerRouteTableMembers(rtKeys, files, (r.1, l));
      var i :| 0 <= i < |items| && items[i] == (r.1, l);
      assert Emits(f, items[i], key);
    }
  }

  /** Every association or propagation entry is keyed by its two parts and records a registered (key, type) pair. */
  lemma LinkConfigsEntry(rtKeys: OMap<string, string>, files: map<string, seq<Link>>, state: string,
                         attKeys: OMap<string, (string, string)>, e: (string, LinkConfig))
    requires e in LinkConfigs(rtKeys, files, state, attKeys)
    ensures e.0 == e.1.routeTableKey + "_" + e.1.attachmentKey
    ensures (e.1.attachmentKey, e.1.attachmentType) in Values(attKeys)
    ensures e.1.routeTableKey in Values(rtKeys)
  {
    var items := PerRouteTable(rtKeys, files);
    CollectedEntry(items, LinkEntry(state, attKeys), e);
    var i :| 0 <= i < |items| && LinkEntry(state, attKeys)(items[i]) == Some(e);
    ValuesOfGet(attKeys, items[i].1.attachmentId.value);
    PerRouteTableMembers(rtKeys, files, items[i]);
    var r :| r in rtKeys && items[i].0 == r.1 && items[i].1 in FileOf(files, r.0);
    var j :| 0 <= j < |rtKeys| && rtKeys[j] == r;
    assert Values(rtKeys)[j] == r.1;
  }

  // ---------------------------------------------------------------------------
  // Transit Gateway routes
  // ---------------------------------------------------------------------------

  /**
    Python's `str()` of a route's `TransitGatewayAttachments` list (`[]` when the
    field is missing): `[{'K': 'V', ...}, ...]`, every value rendered as a quoted string.
   */
  function RenderTargets(targets: Option<seq<Fields>>): string {
    match targets
    case None => "[]"
    case Some(objs) => "[" + Join(seq(|objs|, i requires 0 <= i < |objs| => RenderObject(objs[i])), ", ") + "]"
  }

  function RenderObject(obj: Fields): string {
    "{" + Join(seq(|obj|, i requires 0 <= i < |obj| => "'" + obj[i].0 + "': '" + obj[i].1 + "'"), ", ") + "}"
  }

  /** Entry `i` of the attachment map is the first whose id occurs in `text`. */
  predicate IsFirstContained(attKeys: OMap<string, (string, string)>, text: string, i: int) {
    0 <= i < |attKeys| && Contains(text, attKeys[i].0) &&
    forall j | 0 <= j < i :: !Contains(text, attKeys[j].0)
  }

  /** The attachment search of a route: the first registered id, in map order, that is a substring of `text`. */
  function FirstContained(attKeys: OMap<string, (string, string)>, text: string): (r: Option<(string, string)>)
    ensures r.None? <==> forall i | 0 <= i < |attKeys| :: !Contains(text, attKeys[i].0)
    ensures forall i | IsFirstContained(attKeys, text, i) :: r == Some(attKeys[i].1)
    decreases |attKeys|
  {
    if |attKeys| == 0 then None
    else if Contains(text, attKeys[0].0) then Some(attKeys[0].1)
    else
      var r := FirstContained(attKeys[1..], text);
      assert forall i | IsFirstContained(attKeys, text, i) :: i > 0 && IsFirstContained(attKeys[1..], text, i - 1);
      assert forall i | 0 < i < |attKeys| :: attKeys[i] == attKeys[1..][i - 1];
      r
  }

  /** A TGW route entry; `attachment` is the (key, type) found for it, if any. */
  datatype TgwRouteConfig = TgwRouteConfig(
    destination: string,
    routeTableKey: string,
    blackhole: bool,
    attachment: Option<(string, string)>)

  /** A route that yields an entry: not propagated, with a destination CIDR block. */
  predicate IsConfiguredRoute(route: TgwRoute) {
    route.routeType != "propagated" && route.destination != ""
  }

  function TgwRouteEntry(attKeys: OMap<string, (string, string)>): ((string, TgwRoute)) -> Option<(string, TgwRouteConfig)> {
    (item: (string, TgwRoute)) =>
      var route := item.1;
      if !IsConfiguredRoute(route) then None
      else
        var blackhole := route.state == "blackhole";
        var attachment := if blackhole then None else FirstContained(attKeys, RenderTargets(route.targets));
        Some((item.0 + "_" + DestinationKeyKeepColon(route.destination),
              TgwRouteConfig(route.destination, item.0, blackhole, attachment)))
  }

  /** tgw_routes: keyed `{rt_key}_{destination}` with only `/` and `.` of the destination replaced. */
  function TgwRouteConfigs(rtKeys: OMap<string, string>, files: map<string, seq<TgwRoute>>,
                     attKeys: OMap<string, (string, string)>): OMap<string, TgwRouteConfig> {
    PutAll([], Collect(PerRouteTable(rtKeys, files), TgwRouteEntry(attKeys)))
  }

  /** Route `route` of the table keyed `rtKey` yields the entry `key`. */
  predicate YieldsRouteKey(rtKey: string, route: TgwRoute, key: string) {
    IsConfiguredRoute(route) && rtKey + "_" + DestinationKeyKeepColon(route.destination) == key
  }

  /** There is a route entry exactly for the non-propagated routes with a destination, keyed by table key and destination. */
  lemma TgwRouteConfigsMembers(rtKeys: OMap<string, string>, files: map<string, seq<TgwRoute>>,
                               attKeys: OMap<string, (string, string)>, key: string)
    ensures Distinct(Keys(TgwRouteConfigs(rtKeys, files, attKeys)))
    ensures key in Keys(TgwRouteConfigs(rtKeys, files, attKeys)) <==>
            exists r, route | r in rtKeys && route in FileOf(files, r.0) :: YieldsRouteKey(r.1, route, key)
  {
    CollectedKey(PerRouteTable(rtKeys, files), TgwRouteEntry(attKeys), key);
    TgwRouteItemsEmit(rtKeys, files, attKeys, key);
  }

  lemma TgwRouteItemsEmit(rtKeys: OMap<string, string>, files: map<string, seq<TgwRoute>>,
                          attKeys: OMap<string, (string, string)>, key: string)
    ensures SomeEmitter(PerRouteTable(rtKeys, files), TgwRouteEntry(attKeys), key)
            <==> exists r, route | r in rtKeys && route in FileOf(files, r.0) :: YieldsRouteKey(r.1, route, key)
  {
    var items := PerRouteTable(rtKeys, files);
    var f := TgwRouteEntry(attKeys);
    if i :| 0 <= i < |items| && Emits(f, items[i], key) {
      PerRouteTableMembers(rtKeys, files, items[i]);
      assert YieldsRouteKey(items[i].0, items[i].1, key);
    }
    if r, route :| r in rtKeys && route in FileOf(files, r.0) && YieldsRouteKey(r.1, route, key) {
      PerRouteTableMembers(rtKeys, files, (r.1, route));
      var i :| 0 <= i < |items| && items[i] == (r.1, route);
      assert Emits(f, items[i], key);
    }
  }

  /**
    A route entry comes from a configured route of its table: a blackhole route has
    no attachment, and any other has the first registered attachment whose id occurs
    in the route's rendered target list, if any.
   */
  lemma TgwRouteConfigsEntry(rtKeys: OMap<string, string>, files: map<string, seq<TgwRoute>>,
                             attKeys: OMap<string, (string, string)>, e: (string, TgwRouteConfig))
    requires e in TgwRouteConfigs(rtKeys, files, attKeys)
    ensures e.1.destination != ""
    ensures e.0 == e.1.routeTableKey + "_" + DestinationKeyKeepColon(e.1.destination)
    ensures e.1.blackhole ==> e.1.attachment.None?
    ensures exists r, route | r in rtKeys && route in FileOf(files, r.0) ::
              && IsConfiguredRoute(route) && route.destination == e.1.destination && r.1 == e.1.routeTableKey
              && e.1.blackhole == (route.state == "blackhole")
              && (!e.1.blackhole ==> e.1.attachment == FirstContained(attKeys, RenderTargets(route.targets)))
  {
    var items := PerRouteTable(rtKeys, files);
    CollectedEntry(items, TgwRouteEntry(attKeys), e);
    var i :| 0 <= i < |items| && TgwRouteEntry(attKeys)(items[i]) == Some(e);
    PerRouteTableMembers(rtKeys, files, items[i]);
  }

  /** When some registered id occurs in `text`, the index of the first one. */
  function FirstContainedIndex(attKeys: OMap<string, (string, string)>, text: string): (i: int)
    requires exists i | 0 <= i < |attKeys| :: Contains(text, attKeys[i].0)
    ensures IsFirstContained(attKeys, text, i)
    decreases |attKeys|
  {
    if Contains(text, attKeys[0].0) then 0
    else
      assert exists i | 0 <= i < |attKeys[1..]| :: Contains(text, attKeys[1..][i].0) by {
        var i :| 0 <= i < |attKeys| && Contains(text, attKeys[i].0);
        assert attKeys[1..][i - 1] == attKeys[i];
      }
      var j := FirstContainedIndex(attKeys[1..], text);
      assert forall k | 0 < k <= j + 1 :: attKeys[k] == attKeys[1..][k - 1];
      j + 1
  }

  /**
    Because the search is a substring test on the rendered target list, an id that
    is a prefix of the route's real target matches first: a route to
    `tgw-attach-12` is given the attachment registered as `tgw-attach-1` when that
    one comes first in the map.
   */
  lemma ShorterIdMatchesLonger(x: string, y: string, first: (string, string), second: (string, string))
    ensures var attKeys := [(x, first), (x + y, second)];
            var targets := Some([[("TransitGatewayAttachmentId", x + y)]]);
            FirstContained(attKeys, RenderTargets(targets)) == Some(first)
  {
    SingleTargetText(x + y);
    var key := "'" + "TransitGatewayAttachmentId" + "': '";
    Regroup("[", "{", key, x, y, "'", "}", "]");
    var pre := "[" + "{" + key;
    var post := y + "'" + "}" + "]";
    var text := RenderTargets(Some([[("TransitGatewayAttachmentId", x + y)]]));
    assert text == pre + x + post;
    assert text[|pre|..|pre| + |x|] == x;
    assert OccursAt(text, x, |pre|);
    assert IsFirstContained([(x, first), (x + y, second)], text, 0);
  }

  lemma Regroup<T>(p: seq<T>, q: seq<T>, a: seq<T>, m: seq<T>, n: seq<T>, r: seq<T>, s: seq<T>, t: seq<T>)
    ensures p + (q + (a + (m + n) + r) + s) + t == p + q + a + m + (n + r + s + t)
  {
  }

  /** The text of a route with one target attachment. */
  lemma SingleTargetText(id: string)
    ensures RenderTargets(Some([[("TransitGatewayAttachmentId", id)]])) ==
            "[" + ("{" + ("'" + "TransitGatewayAttachmentId" + "': '" + id + "'") + "}") + "]"
  {
    var obj := [("TransitGatewayAttachmentId", id)];
    var inner := "'" + "TransitGatewayAttachmentId" + "': '" + id + "'";
    var pairs := seq(|obj|, i requires 0 <= i < |obj| => "'" + obj[i].0 + "': '" + obj[i].1 + "'");
    assert pairs == [inner];
    assert Join(pairs, ", ") == inner;
    assert RenderObject(obj) == "{" + inner + "}";
    var objs := [obj];
    var rendered := seq(|objs|, i requires 0 <= i < |objs| => RenderObject(objs[i]));
    assert rendered == ["{" + inner + "}"];
    assert Join(rendered, ", ") == "{" + inner + "}";
  }

  // ---------------------------------------------------------------------------
  // VPC routes
  // ---------------------------------------------------------------------------

  /** `DestinationCidrBlock` when present, else `DestinationIpv6CidrBlock`, else the empty string. */
  function VpcRouteDestination(route: VpcRoute): string {
    match route.destinationCidr
    case Some(cidr) => cidr
    case None => route.destinationIpv6.GetOr("")
  }

  /** A VPC route that yields an entry: it has a `TransitGatewayId` and a destination other than `local`. */
  predicate IsGatewayRoute(route: VpcRoute) {
    route.gatewayId.Some? && VpcRouteDestination(route) != "" && VpcRouteDestination(route) != "local"
  }

  function VpcRouteKey(table: VpcRouteTable, route: VpcRoute): string {
    SanitizeKey(GetTagValue(table.tags, "Name", table.id)) + "_to_" + DestinationKey(VpcRouteDestination(route))
  }

  datatype VpcRouteConfig = VpcRouteConfig(routeTableId: string, destination: string)

  /** Every route of every VPC route table, paired with its table, in file order. */
  function VpcRouteItems(tables: seq<VpcRouteTable>): seq<(VpcRouteTable, VpcRoute)>
    decreases |tables|
  {
    if |tables| == 0 then []
    else
      var t := tables[0];
      seq(|t.routes|, i requires 0 <= i < |t.routes| => (t, t.routes[i])) + VpcRouteItems(tables[1..])
  }

  lemma {:induction false} VpcRouteItemsMembers(tables: seq<VpcRouteTable>, x: (VpcRouteTable, VpcRoute))
    ensures x in VpcRouteItems(tables) <==> x.0 in tables && x.1 in x.0.routes
    decreases |tables|
  {
    if |tables| > 0 {
      VpcRouteItemsMembers(tables[1..], x);
      var t := tables[0];
      var head := seq(|t.routes|, i requires 0 <= i < |t.routes| => (t, t.routes[i]));
      assert x in head <==> x.0 == t && x.1 in t.routes by {
        if x.0 == t && x.1 in t.routes {
          var i :| 0 <= i < |t.routes| && t.routes[i] == x.1;
          assert head[i] == x;
        }
      }
      assert tables == [t] + tables[1..];
    }
  }

  function VpcRouteEntry(item: (VpcRouteTable, VpcRoute)): Option<(string, VpcRouteConfig)> {
    if IsGatewayRoute(item.1)
    then Some((VpcRouteKey(item.0, item.1), VpcRouteConfig(item.0.id, VpcRouteDestination(item.1))))
    else None
  }

  /** vpc_routes: the VPC routes to a Transit Gateway, keyed `{vpc_rt_key}_to_{destination}`. */
  function VpcRouteConfigs(tables: seq<VpcRouteTable>): OMap<string, VpcRouteConfig> {
    PutAll([], Collect(VpcRouteItems(tables), VpcRouteEntry))
  }

  /** Route `route` of table `t` yields the entry `key`. */
  predicate YieldsVpcRouteKey(t: VpcRouteTable, route: VpcRoute, key: string) {
    IsGatewayRoute(route) && VpcRouteKey(t, route) == key
  }

  /** There is a VPC route entry exactly for the routes to a Transit Gateway with a non-local destination. */
  lemma VpcRouteConfigsMembers(tables: seq<VpcRouteTable>, key: string)
    ensures Distinct(Keys(VpcRouteConfigs(tables)))
    ensures key in Keys(VpcRouteConfigs(tables)) <==>
            exists t, route | t in tables && route in t.routes :: YieldsVpcRouteKey(t, route, key)
  {
    var items := VpcRouteItems(tables);
    assert VpcRouteConfigs(tables) == PutAll([], Collect(items, VpcRouteEntry));
    CollectedKey(items, VpcRouteEntry, key);
    VpcRouteItemsEmit(tables, key);
  }

  lemma VpcRouteItemsEmit(tables: seq<VpcRouteTable>, key: string)
    ensures SomeEmitter(VpcRouteItems(tables), VpcRouteEntry, key)
            <==> exists t, route | t in tables && route in t.routes :: YieldsVpcRouteKey(t, route, key)
  {
    var items := VpcRouteItems(tables);
    if i :| 0 <= i < |items| && Emits(VpcRouteEntry, items[i], key) {
      VpcRouteItemsMembers(tables, items[i]);
    }
    if t, route :| t in tables && route in t.routes && YieldsVpcRouteKey(t, route, key) {
      VpcRouteItemsMembers(tables, (t, route));
      var i :| 0 <= i < |items| && items[i] == (t, route);
      assert Emits(VpcRouteEntry, items[i], key);
    }
  }

  /** Every VPC route entry records a table of the file and a destination that is neither empty nor `local`. */
  lemma VpcRouteConfigsEntry(tables: seq<VpcRouteTable>, e: (string, VpcRouteConfig))
    requires e in VpcRouteConfigs(tables)
    ensures e.1.destination != "" && e.1.destination != "local"
    ensures exists t | t in tables :: t.id == e.1.routeTableId
  {
    var items := VpcRouteItems(tables);
    CollectedEntry(items, VpcRouteEntry, e);
    var i :| 0 <= i < |items| && VpcRouteEntry(items[i]) == Some(e);
    VpcRouteItemsMembers(tables, items[i]);
  }

  // ---------------------------------------------------------------------------
  // Printed entries
  // ---------------------------------------------------------------------------

  /** A printed value: a quoted string, a bare number, `true`, a JSON list of strings, or a nested map of strings. */
  datatype Value = Str(text: string) | Number(digits: string) | Flag(on: bool) | StrList(items: seq<string>) | StrMap(entries: OMap<string, string>)

  /** The attributes an entry can print. */
  datatype Attr =
    | Name | VpcId | SubnetIds | ApplianceModeSupport | DnsSupport | Ipv6Support | TagMap
    | PeerTransitGatewayId | PeerRegion | PeerAccountId
    | RouteTableKeyAttr | AttachmentKeyAttr | AttachmentType
    | DestinationCidrBlock | Blackhole | RouteTableId

  /** The attribute's name as printed. */
  function AttrName(a: Attr): string {
    match a
    case Name => "name"
    case VpcId => "vpc_id"
    case SubnetIds => "subnet_ids"
    case ApplianceModeSupport => "appliance_mode_support"
    case DnsSupport => "dns_support"
    case Ipv6Support => "ipv6_support"
    case TagMap => "tags"
    case PeerTransitGatewayId => "peer_transit_gateway_id"
    case PeerRegion => "peer_region"
    case PeerAccountId => "peer_account_id"
    case RouteTableKeyAttr => "route_table_key"
    case AttachmentKeyAttr => "attachment_key"
    case AttachmentType => "attachment_type"
    case DestinationCidrBlock => "destination_cidr_block"
    case Blackhole => "blackhole"
    case RouteTableId => "route_table_id"
  }

  /** The attributes one printed entry sets. */
  type Block = map<Attr, Value>

  /** The value the entry sets for `a`, if any. */
  function Lookup(block: Block, a: Attr): Option<Value> {
    if a in block then Some(block[a]) else None
  }

  /** The value a reader of the entry sees for `a`: the printed string, or the module's default when it is omitted. */
  function ReadBack(block: Block, a: Attr, default: string): string {
    var v := Lookup(block, a);
    if v.Some? && v.value.Str? then v.value.text else default
  }

  /** The entry prints attribute `a`. */
  predicate Prints(block: Block, a: Attr) {
    a in block
  }

  /** Adds `tags` only when there is at least one tag. */
  function WithTags(block: Block, tags: OMap<string, string>): (r: Block)
    requires !Prints(block, TagMap)
    ensures Prints(r, TagMap) <==> |tags| > 0
    ensures forall a | a != TagMap :: Lookup(r, a) == Lookup(block, a)
  {
    if |tags| > 0 then block[TagMap := StrMap(tags)] else block
  }

  /** Adds a string attribute only when its value differs from `default`. */
  function UnlessDefault(block: Block, a: Attr, value: string, default: string): (r: Block)
    requires !Prints(block, a)
    ensures Prints(r, a) <==> value != default
    ensures ReadBack(r, a, default) == value
    ensures forall b | b != a :: Lookup(r, b) == Lookup(block, b)
  {
    if value != default then block[a := Str(value)] else block
  }

  function RouteTableBlock(cfg: RouteTableConfig): (r: Block)
    ensures Lookup(r, Name) == Some(Str(cfg.name))
    ensures Prints(r, TagMap) <==> |cfg.tags| > 0
  {
    WithTags(map[Name := Str(cfg.name)], cfg.tags)
  }

  /** Adds the three VPC attachment options, each only when it differs from its default. */
  function WithVpcOptions(block: Block, cfg: VpcAttachmentConfig): (r: Block)
    requires !Prints(block, ApplianceModeSupport) && !Prints(block, DnsSupport) && !Prints(block, Ipv6Support)
    ensures Prints(r, ApplianceModeSupport) <==> cfg.applianceModeSupport != ApplianceModeDefault
    ensures Prints(r, DnsSupport) <==> cfg.dnsSupport != DnsSupportDefault
    ensures Prints(r, Ipv6Support) <==> cfg.ipv6Support != Ipv6SupportDefault
    ensures ReadBack(r, ApplianceModeSupport, ApplianceModeDefault) == cfg.applianceModeSupport
    ensures ReadBack(r, DnsSupport, DnsSupportDefault) == cfg.dnsSupport
    ensures ReadBack(r, Ipv6Support, Ipv6SupportDefault) == cfg.ipv6Support
    ensures forall a | a != ApplianceModeSupport && a != DnsSupport && a != Ipv6Support :: Lookup(r, a) == Lookup(block, a)
  {
    var b1 := UnlessDefault(block, ApplianceModeSupport, cfg.applianceModeSupport, ApplianceModeDefault);
    var b2 := UnlessDefault(b1, DnsSupport, cfg.dnsSupport, DnsSupportDefault);
    var r := UnlessDefault(b2, Ipv6Support, cfg.ipv6Support, Ipv6SupportDefault);
    assert Lookup(r, ApplianceModeSupport) == Lookup(b2, ApplianceModeSupport) == Lookup(b1, ApplianceModeSupport);
    assert Lookup(r, DnsSupport) == Lookup(b2, DnsSupport);
    r
  }

  /** The attributes every VPC attachment prints: name, VPC id and subnet ids. */
  function VpcAttachmentBase(cfg: VpcAttachmentConfig): (r: Block)
    ensures Lookup(r, VpcId) == Some(Str(cfg.vpcId))
    ensures Lookup(r, SubnetIds) == Some(StrList(cfg.subnetIds))
    ensures !Prints(r, ApplianceModeSupport) && !Prints(r, DnsSupport) && !Prints(r, Ipv6Support) && !Prints(r, TagMap)
  {
    map[Name := Str(cfg.name), VpcId := Str(cfg.vpcId), SubnetIds := StrList(cfg.subnetIds)]
  }

  /**
    A VPC attachment prints its name, VPC and subnets, each option only when it
    differs from its default, and tags only when there are some; reading an omitted
    option back as its default gives the configured value.
   */
  function VpcAttachmentBlock(cfg: VpcAttachmentConfig): (r: Block)
    ensures Lookup(r, VpcId) == Some(Str(cfg.vpcId))
    ensures Lookup(r, SubnetIds) == Some(StrList(cfg.subnetIds))
    ensures Prints(r, ApplianceModeSupport) <==> cfg.applianceModeSupport != ApplianceModeDefault
    ensures Prints(r, DnsSupport) <==> cfg.dnsSupport != DnsSupportDefault
    ensures Prints(r, Ipv6Support) <==> cfg.ipv6Support != Ipv6SupportDefault
    ensures ReadBack(r, ApplianceModeSupport, ApplianceModeDefault) == cfg.applianceModeSupport
    ensures ReadBack(r, DnsSupport, DnsSupportDefault) == cfg.dnsSupport
    ensures ReadBack(r, Ipv6Support, Ipv6SupportDefault) == cfg.ipv6Support
    ensures Prints(r, TagMap) <==> |cfg.tags| > 0
  {
    var withOptions := WithVpcOptions(VpcAttachmentBase(cfg), cfg);
    var r := WithTags(withOptions, cfg.tags);
    assert Lookup(r, ApplianceModeSupport) == Lookup(withOptions, ApplianceModeSupport);
    assert Lookup(r, DnsSupport) == Lookup(withOptions, DnsSupport);
    assert Lookup(r, Ipv6Support) == Lookup(withOptions, Ipv6Support);
    r
  }

  /** A peering attachment prints the accepter's account only when it is known. */
  function PeeringBlock(cfg: PeeringConfig): (r: Block)
    ensures Lookup(r, PeerTransitGatewayId) == Some(Str(cfg.peerGatewayId))
    ensures Lookup(r, PeerRegion) == Some(Str(cfg.peerRegion))
    ensures Prints(r, PeerAccountId) <==> cfg.peerAccountId != ""
    ensures ReadBack(r, PeerAccountId, "") == cfg.peerAccountId
    ensures Prints(r, TagMap) <==> |cfg.tags| > 0
  {
    var base := map[Name := Str(cfg.name), PeerTransitGatewayId := Str(cfg.peerGatewayId), PeerRegion := Str(cfg.peerRegion)];
    var b1 := UnlessDefault(base, PeerAccountId, cfg.peerAccountId, "");
    assert Lookup(b1, TagMap) == Lookup(base, TagMap);
    var r := WithTags(b1, cfg.tags);
    assert Lookup(r, PeerTransitGatewayId) == Lookup(b1, PeerTransitGatewayId) == Lookup(base, PeerTransitGatewayId);
    assert Lookup(r, PeerRegion) == Lookup(b1, PeerRegion) == Lookup(base, PeerRegion);
    assert Lookup(r, PeerAccountId) == Lookup(b1, PeerAccountId);
    r
  }

  /** An association or propagation prints its attachment type only when it is not `vpc`, the module's default. */
  function LinkBlock(cfg: LinkConfig): (r: Block)
    ensures Lookup(r, RouteTableKeyAttr) == Some(Str(cfg.routeTableKey))
    ensures Lookup(r, AttachmentKeyAttr) == Some(Str(cfg.attachmentKey))
    ensures Prints(r, AttachmentType) <==> cfg.attachmentType != "vpc"
    ensures ReadBack(r, AttachmentType, "vpc") == cfg.attachmentType
  {
    UnlessDefault(map[RouteTableKeyAttr := Str(cfg.routeTableKey), AttachmentKeyAttr := Str(cfg.attachmentKey)],
                  AttachmentType, cfg.attachmentType, "vpc")
  }

  /** Adds an attribute when `present` holds. */
  function AddIf(block: Block, present: bool, a: Attr, v: Value): (r: Block)
    requires !Prints(block, a)
    ensures Prints(r, a) <==> present
    ensures present ==> Lookup(r, a) == Some(v)
    ensures forall b | b != a :: Lookup(r, b) == Lookup(block, b)
  {
    if present then block[a := v] else block
  }

  /**
    A TGW route prints its attachment key exactly when an attachment was found, the
    attachment's type only when it is neither empty nor `vpc`, and `blackhole = true`
    exactly for a blackhole route.
   */
  function TgwRouteBlock(cfg: TgwRouteConfig): (r: Block)
    ensures Lookup(r, DestinationCidrBlock) == Some(Str(cfg.destination))
    ensures Prints(r, AttachmentKeyAttr) <==> cfg.attachment.Some?
    ensures cfg.attachment.Some? ==> Lookup(r, AttachmentKeyAttr) == Some(Str(cfg.attachment.value.0))
    ensures Prints(r, AttachmentType) <==> cfg.attachment.Some? && cfg.attachment.value.1 != "" && cfg.attachment.value.1 != "vpc"
    ensures Lookup(r, Blackhole) == if cfg.blackhole then Some(Flag(true)) else None
  {
    var base := map[DestinationCidrBlock := Str(cfg.destination), RouteTableKeyAttr := Str(cfg.routeTableKey)];
    var att := cfg.attachment;
    var withKey := AddIf(base, att.Some?, AttachmentKeyAttr, Str(if att.Some? then att.value.0 else ""));
    var withType := AddIf(withKey, att.Some? && att.value.1 != "" && att.value.1 != "vpc", AttachmentType,
                          Str(if att.Some? then att.value.1 else ""));
    AddIf(withType, cfg.blackhole, Blackhole, Flag(true))
  }

  /** A configured route prints an attachment only when it is not a blackhole. */
  lemma BlackholeRoutePrintsNoAttachment(rtKeys: OMap<string, string>, files: map<string, seq<TgwRoute>>,
                                          attKeys: OMap<string, (string, string)>, e: (string, TgwRouteConfig))
    requires e in TgwRouteConfigs(rtKeys, files, attKeys)
    ensures e.1.blackhole ==> !Prints(TgwRouteBlock(e.1), AttachmentKeyAttr) && Lookup(TgwRouteBlock(e.1), Blackhole) == Some(Flag(true))
    ensures !e.1.blackhole ==> !Prints(TgwRouteBlock(e.1), Blackhole)
  {
    TgwRouteConfigsEntry(rtKeys, files, attKeys, e);
  }

  function VpcRouteBlock(cfg: VpcRouteConfig): (r: Block)
    ensures Lookup(r, RouteTableId) == Some(Str(cfg.routeTableId))
    ensures Lookup(r, DestinationCidrBlock) == Some(Str(cfg.destination))
  {
    map[RouteTableId := Str(cfg.routeTableId), DestinationCidrBlock := Str(cfg.destination)]
  }

  // ---------------------------------------------------------------------------
  // The document (generate_config)
  // ---------------------------------------------------------------------------

  /** A top-level `name = value` line. */
  datatype Setting = Setting(name: string, value: Value)

  /** The map variables, in print order. */
  datatype Variable =
    | RouteTables | VpcAttachments | PeeringAttachments
    | RouteTableAssociations | RouteTablePropagations | TgwRoutes | VpcRoutes

  /** A top-level map variable: one printed entry per key, in map order. */
  datatype Section = Section(variable: Variable, entries: seq<(string, Block)>)

  /** The document: the top-level settings, the printed map variables, then the fixed Common Tags variable. */
  datatype Config = Config(settings: seq<Setting>, sections: seq<Section>, commonTags: Setting)

  /** The `tags` variable that closes every document, whatever the inventory holds. */
  const CommonTags: Setting := Setting("tags", StrMap([("ManagedBy", "Terraform"), ("Project", "TransitGateway")]))

  /** The settings of the first gateway: its name (default `tgw`), and its options, each with its default when missing. */
  function GatewaySettings(tgw: TransitGateway): (r: seq<Setting>)
    ensures |r| == 8
    ensures forall s | s in r :: s.name != CommonTags.name
  {
    [ Setting("transit_gateway_name", Str(GetTagValue(tgw.tags, "Name", "tgw"))),
      Setting("transit_gateway_description", Str(Field(tgw.options, "Description", "Transit Gateway"))),
      Setting("transit_gateway_amazon_side_asn", Number(Field(tgw.options, "AmazonSideAsn", "64512"))),
      Setting("transit_gateway_auto_accept_shared_attachments", Str(Field(tgw.options, "AutoAcceptSharedAttachments", "disable"))),
      Setting("transit_gateway_default_route_table_association", Str(Field(tgw.options, "DefaultRouteTableAssociation", "disable"))),
      Setting("transit_gateway_default_route_table_propagation", Str(Field(tgw.options, "DefaultRouteTablePropagation", "disable"))),
      Setting("transit_gateway_dns_support", Str(Field(tgw.options, "DnsSupport", "enable"))),
      Setting("transit_gateway_vpn_ecmp_support", Str(Field(tgw.options, "VpnEcmpSupport", "enable"))) ]
  }

  function Printed<C>(m: OMap<string, C>, render: C -> Block): (r: seq<(string, Block)>)
    ensures |r| == |m|
    ensures forall i | 0 <= i < |m| :: r[i] == (m[i].0, render(m[i].1))
  {
    seq(|m|, i requires 0 <= i < |m| => (m[i].0, render(m[i].1)))
  }

  /** The printed entries of one map variable. */
  function EntriesOf(cat: Catalog, v: Variable): seq<(string, Block)> {
    var rtKeys := RouteTableKeys(cat.tgwRouteTables);
    var attKeys := AttachmentKeys(cat.attachments);
    match v
    case RouteTables => Printed(RouteTableConfigs(cat.tgwRouteTables), RouteTableBlock)
    case VpcAttachments => Printed(VpcAttachmentConfigs(cat.attachments, cat.vpcAttachmentDetails), VpcAttachmentBlock)
    case PeeringAttachments => Printed(PeeringConfigs(cat.attachments, cat.peeringDetails), PeeringBlock)
    case RouteTableAssociations => Printed(Associations(cat), LinkBlock)
    case RouteTablePropagations => Printed(Propagations(cat), LinkBlock)
    case TgwRoutes => Printed(TgwRouteConfigs(rtKeys, cat.routes, attKeys), TgwRouteBlock)
    case VpcRoutes => Printed(VpcRouteConfigs(cat.vpcRouteTables), VpcRouteBlock)
  }

  const VariableOrder: seq<Variable> := [RouteTables, VpcAttachments, PeeringAttachments,
                                         RouteTableAssociations, RouteTablePropagations, TgwRoutes, VpcRoutes]

  predicate HasEntries(s: Section) {
    |s.entries| > 0
  }

  /** Every map variable with its entries, in print order. */
  function Candidates(cat: Catalog): seq<Section> {
    seq(|VariableOrder|, i requires 0 <= i < |VariableOrder| => Section(VariableOrder[i], EntriesOf(cat, VariableOrder[i])))
  }

  /** The map variables, in print order, each printed only when its map has an entry. */
  function ConfigSections(cat: Catalog): seq<Section> {
    Filter(Candidates(cat), HasEntries)
  }

  /** The top-level settings: the fixed region and environment, then the first gateway's settings when there is one. */
  function TopSettings(cat: Catalog): (r: seq<Setting>)
    ensures |r| >= 2 && r[0].name == "region" && r[1].name == "environment"
    ensures |cat.gateways| > 0 <==> |r| > 2
    ensures forall s | s in r :: s.name != CommonTags.name
  {
    var base := [Setting("region", Str("ap-northeast-1")), Setting("environment", Str("production"))];
    assert forall s | s in base :: s.name != CommonTags.name;
    base + (if |cat.gateways| > 0 then GatewaySettings(cat.gateways[0]) else [])
  }

  /**
    generate_config: the top-level settings, then the maps, and last the Common Tags,
    which are printed even for an empty inventory.
   */
  function GenerateConfig(cat: Catalog): (r: Config)
    ensures r.commonTags.name == "tags"
    ensures r.commonTags.value.StrMap? && r.commonTags.value.entries == [("ManagedBy", "Terraform"), ("Project", "TransitGateway")]
    ensures |r.settings| >= 2 && r.settings[0].name == "region" && r.settings[1].name == "environment"
    ensures forall s | s in r.settings :: s.name != r.commonTags.name
  {
    Config(TopSettings(cat), ConfigSections(cat), CommonTags)
  }

  /**
    A map variable is printed, with one entry per key of its map, exactly when that
    map is non-empty.
   */
  lemma ConfigSectionsSpec(cat: Catalog, v: Variable)
    ensures Section(v, EntriesOf(cat, v)) in ConfigSections(cat) <==> |EntriesOf(cat, v)| > 0
    ensures forall s | s in ConfigSections(cat) :: s.entries == EntriesOf(cat, s.variable) && |s.entries| > 0
  {
    var candidates := Candidates(cat);
    CandidatesSpec(cat, v);
    FilterMembers(candidates, HasEntries, Section(v, EntriesOf(cat, v)));
    forall s | s in ConfigSections(cat)
      ensures s.entries == EntriesOf(cat, s.variable) && |s.entries| > 0
    {
      FilterMembers(candidates, HasEntries, s);
    }
  }

  /** Every variable is a candidate, with its own entries. */
  lemma CandidatesSpec(cat: Catalog, v: Variable)
    ensures Section(v, EntriesOf(cat, v)) in Candidates(cat)
    ensures forall s | s in Candidates(cat) :: s.entries == EntriesOf(cat, s.variable)
  {
    assert v in VariableOrder;
    var i :| 0 <= i < |VariableOrder| && VariableOrder[i] == v;
    assert Candidates(cat)[i] == Section(v, EntriesOf(cat, v));
  }

  /** Only the first gateway is configured: gateways after it change nothing in the document. */
  lemma OnlyFirstGatewayConfigured(cat: Catalog, more: seq<TransitGateway>)
    requires |cat.gateways| > 0
    ensures GenerateConfig(cat.(gateways := cat.gateways + more)) == GenerateConfig(cat)
  {
    var extended := cat.(gateways := cat.gateways + more);
    assert (cat.gateways + more)[0] == cat.gateways[0];
    forall v ensures EntriesOf(extended, v) == EntriesOf(cat, v) {
    }
    assert Candidates(extended) == Candidates(cat);
  }
}
