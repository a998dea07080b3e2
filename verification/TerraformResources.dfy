/**
  The resource generator of scripts/generate_terraform.py: which Terraform resources
  it emits for the inventory, under which resource names, and which resources each
  one refers to.

  Each generated `resource` block is a datatype whose fields are the block's
  attributes; a generator method that returns the empty string returns `None`
  here. The text layout of the blocks is not modelled.
 */
module TerraformResources {
  import opened Wrappers
  import opened Strings
  import opened Seqs
  import opened OrderedMap
  import opened Tags
  import opened Sanitize
  import opened Inventory
  import TerraformConfig

  // ---------------------------------------------------------------------------
  // Tags
  // ---------------------------------------------------------------------------

  /** A tag key that is not a bare HCL identifier: it holds `:`, `-` or a space. */
  predicate NeedsQuoting(key: string) {
    ':' in key || '-' in key || ' ' in key
  }

  /** format_tag_key: the key in double quotes when it needs quoting, the key itself otherwise. */
  function FormatTagKey(key: string): (r: string)
    ensures r == key || r == "\"" + key + "\""
    ensures r != key <==> NeedsQuoting(key)
  {
    if NeedsQuoting(key) then "\"" + key + "\"" else key
  }

  /** Distinct tag keys are printed as distinct keys, so quoting never merges two tags. */
  lemma FormatTagKeyInjective(k1: string, k2: string)
    requires FormatTagKey(k1) == FormatTagKey(k2)
    ensures k1 == k2
  {
    if NeedsQuoting(k1) && !NeedsQuoting(k2) {
      QuotedNeedsQuoting(k1, k2);
    } else if !NeedsQuoting(k1) && NeedsQuoting(k2) {
      QuotedNeedsQuoting(k2, k1);
    } else if NeedsQuoting(k1) {
      assert k1 == ("\"" + k1 + "\"")[1..|k1| + 1];
      assert k2 == ("\"" + k2 + "\"")[1..|k2| + 1];
    }
  }

  /** A key that needs quoting, wrapped in quotes, still needs quoting. */
  lemma QuotedNeedsQuoting(quoted: string, plain: string)
    requires NeedsQuoting(quoted) && plain == "\"" + quoted + "\""
    ensures NeedsQuoting(plain)
  {
    var c := if ':' in quoted then ':' else if '-' in quoted then '-' else ' ';
    var i :| 0 <= i < |quoted| && quoted[i] == c;
    assert plain[i + 1] == c;
  }

  /** A tag list the generator can walk: `tag['Key']` exists on every tag, and `tag['Value']` on every tag not named `Name`. */
  predicate WellFormedTags(tags: seq<Tag>) {
    forall t | t in tags :: t.key.Some? && (t.key.value != "Name" ==> t.value.Some?)
  }

  /** The `key = "value"` lines after `Name` in a `tags` block: every tag but `Name`, in list order. */
  function ExtraTagLines(tags: seq<Tag>): (r: seq<(string, string)>)
    requires WellFormedTags(tags)
    ensures |r| <= |tags|
    decreases |tags|
  {
    if |tags| == 0 then []
    else
      var t := tags[0];
      (if t.key.value != "Name" then [(FormatTagKey(t.key.value), t.value.value)] else []) + ExtraTagLines(tags[1..])
  }

  /** A line is printed exactly for each tag whose key is not `Name`, with its formatted key and its value. */
  lemma {:induction false} ExtraTagLinesMembers(tags: seq<Tag>, line: (string, string))
    requires WellFormedTags(tags)
    ensures line in ExtraTagLines(tags) <==>
            exists t | t in tags :: t.key.Some? && t.value.Some? && t.key.value != "Name" && line == (FormatTagKey(t.key.value), t.value.value)
    decreases |tags|
  {
    if |tags| > 0 {
      ExtraTagLinesMembers(tags[1..], line);
      assert tags == [tags[0]] + tags[1..];
    }
  }

  /** The `tags` block of a resource: `Name` first, then the other tags. */
  datatype TagBlock = TagBlock(name: string, extra: seq<(string, string)>)

  // ---------------------------------------------------------------------------
  // Transit Gateways and route tables
  // ---------------------------------------------------------------------------

  datatype GatewayResource = GatewayResource(
    resourceName: string,
    description: Option<string>,
    amazonSideAsn: string,
    defaultRouteTableAssociation: string,
    defaultRouteTablePropagation: string,
    dnsSupport: string,
    vpnEcmpSupport: string,
    autoAcceptSharedAttachments: string,
    tags: TagBlock)

  function GatewayName(tgw: TransitGateway): string {
    GetTagValue(tgw.tags, "Name", tgw.id)
  }

  /**
    generate_transit_gateway: named after the sanitized `Name` tag (the id without
    one), with a description line only for a non-empty description and every
    option defaulted when missing.
   */
  function GatewayCode(tgw: TransitGateway): (r: GatewayResource)
    requires WellFormedTags(tgw.tags)
    ensures r.resourceName == SanitizeKey(GatewayName(tgw))
    ensures r.description.Some? <==> tgw.description != ""
    ensures r.description.Some? ==> r.description.value == tgw.description
    ensures r.amazonSideAsn == FieldOpt(tgw.options, "AmazonSideAsn").GetOr("64512")
    ensures r.defaultRouteTableAssociation == FieldOpt(tgw.options, "DefaultRouteTableAssociation").GetOr("enable")
    ensures r.defaultRouteTablePropagation == FieldOpt(tgw.options, "DefaultRouteTablePropagation").GetOr("enable")
    ensures r.dnsSupport == FieldOpt(tgw.options, "DnsSupport").GetOr("enable")
    ensures r.vpnEcmpSupport == FieldOpt(tgw.options, "VpnEcmpSupport").GetOr("enable")
    ensures r.autoAcceptSharedAttachments == FieldOpt(tgw.options, "AutoAcceptSharedAttachments").GetOr("disable")
    ensures r.tags.name == GatewayName(tgw) && r.tags.extra == ExtraTagLines(tgw.tags)
  {
    FieldDefault(tgw.options, "AmazonSideAsn", "64512");
    FieldDefault(tgw.options, "DefaultRouteTableAssociation", "enable");
    FieldDefault(tgw.options, "DefaultRouteTablePropagation", "enable");
    FieldDefault(tgw.options, "DnsSupport", "enable");
    FieldDefault(tgw.options, "VpnEcmpSupport", "enable");
    FieldDefault(tgw.options, "AutoAcceptSharedAttachments", "disable");
    GatewayResource(
      SanitizeKey(GatewayName(tgw)),
      if tgw.description != "" then Some(tgw.description) else None,
      Field(tgw.options, "AmazonSideAsn", "64512"),
      Field(tgw.options, "DefaultRouteTableAssociation", "enable"),
      Field(tgw.options, "DefaultRouteTablePropagation", "enable"),
      Field(tgw.options, "DnsSupport", "enable"),
      Field(tgw.options, "VpnEcmpSupport", "enable"),
      Field(tgw.options, "AutoAcceptSharedAttachments", "disable"),
      TagBlock(GatewayName(tgw), ExtraTagLines(tgw.tags)))
  }

  /** `obj.get(key, default)` is the field's value when the field exists and the default otherwise. */
  lemma {:induction false} FieldDefault(obj: Fields, key: string, default: string)
    ensures Field(obj, key, default) == FieldOpt(obj, key).GetOr(default)
    decreases |obj|
  {
    if |obj| > 0 && obj[0].0 != key {
      FieldDefault(obj[1..], key, default);
    }
  }

  datatype RouteTableResource = RouteTableResource(resourceName: string, gatewayRef: string, tags: TagBlock)

  /** generate_tgw_route_table: named like its `Name` tag, attached to the gateway resource `gatewayRef`. */
  function RouteTableCode(rt: TgwRouteTable, gatewayRef: string): (r: RouteTableResource)
    requires WellFormedTags(rt.tags)
    ensures r.resourceName == TerraformConfig.KeyOfRouteTable(rt)
    ensures r.gatewayRef == gatewayRef
    ensures r.tags.name == TerraformConfig.RouteTableName(rt) && r.tags.extra == ExtraTagLines(rt.tags)
  {
    RouteTableResource(TerraformConfig.KeyOfRouteTable(rt), gatewayRef,
                       TagBlock(TerraformConfig.RouteTableName(rt), ExtraTagLines(rt.tags)))
  }

  // ---------------------------------------------------------------------------
  // VPC attachments
  // ---------------------------------------------------------------------------

  const Placeholder := "PLACEHOLDER"

  /** An attribute a VPC attachment's `lifecycle` block tells Terraform to ignore. */
  datatype Ignored = IgnoreSubnetIds | IgnoreApplianceModeSupport | IgnoreDnsSupport | IgnoreIpv6Support

  function IgnoredName(i: Ignored): string {
    match i
    case IgnoreSubnetIds => "subnet_ids"
    case IgnoreApplianceModeSupport => "appliance_mode_support"
    case IgnoreDnsSupport => "dns_support"
    case IgnoreIpv6Support => "ipv6_support"
  }

  /**
    The `ignore_changes` list: `subnet_ids` when the attachment lists no subnets,
    then the three options when it has no `Options`.
   */
  function IgnoredChanges(a: Attachment): (r: seq<Ignored>)
    ensures IgnoreSubnetIds in r <==> |a.subnetIds| == 0
    ensures IgnoreApplianceModeSupport in r <==> |a.options| == 0
    ensures IgnoreDnsSupport in r <==> |a.options| == 0
    ensures IgnoreIpv6Support in r <==> |a.options| == 0
    ensures |r| == 0 <==> |a.subnetIds| > 0 && |a.options| > 0
  {
    (if |a.subnetIds| == 0 then [IgnoreSubnetIds] else [])
    + (if |a.options| == 0 then [IgnoreApplianceModeSupport, IgnoreDnsSupport, IgnoreIpv6Support] else [])
  }

  datatype VpcAttachmentResource = VpcAttachmentResource(
    resourceName: string,
    gatewayRef: string,
    vpcId: string,
    subnetIds: seq<string>,
    applianceModeSupport: string,
    dnsSupport: string,
    ipv6Support: string,
    lifecycle: Option<seq<Ignored>>,
    tags: TagBlock)

  /** The attachments generate_tgw_vpc_attachment writes code for. */
  predicate IsVpc(a: Attachment) {
    a.resourceType == "vpc"
  }

  /**
    generate_tgw_vpc_attachment: no code for an attachment that is not a VPC
    attachment; otherwise a resource whose subnet list is never empty (a
    placeholder stands in for a missing one) and whose `lifecycle` block appears
    exactly when something is to be ignored.
   */
  function VpcAttachmentCode(a: Attachment, gatewayRef: string): (r: Option<VpcAttachmentResource>)
    requires IsVpc(a) ==> WellFormedTags(a.tags)
    ensures r.None? <==> !IsVpc(a)
    ensures r.Some? ==> r.value.resourceName == TerraformConfig.KeyOfAttachment(a) && r.value.gatewayRef == gatewayRef
    ensures r.Some? ==> |r.value.subnetIds| > 0
    ensures r.Some? && |a.subnetIds| > 0 ==> r.value.subnetIds == a.subnetIds
    ensures r.Some? && |a.subnetIds| == 0 ==> r.value.subnetIds == [Placeholder]
    ensures r.Some? ==> (r.value.lifecycle.Some? <==> |a.subnetIds| == 0 || |a.options| == 0)
    ensures r.Some? && r.value.lifecycle.Some? ==> r.value.lifecycle.value == IgnoredChanges(a)
    ensures r.Some? ==> r.value.vpcId == a.resourceId
    ensures r.Some? ==> r.value.applianceModeSupport == FieldOpt(a.options, "ApplianceModeSupport").GetOr("disable")
    ensures r.Some? ==> r.value.dnsSupport == FieldOpt(a.options, "DnsSupport").GetOr("enable")
    ensures r.Some? ==> r.value.ipv6Support == FieldOpt(a.options, "Ipv6Support").GetOr("disable")
    ensures r.Some? ==> r.value.tags.name == TerraformConfig.AttachmentName(a) && r.value.tags.extra == ExtraTagLines(a.tags)
  {
    if !IsVpc(a) then None
    else
      FieldDefault(a.options, "ApplianceModeSupport", "disable");
      FieldDefault(a.options, "DnsSupport", "enable");
      FieldDefault(a.options, "Ipv6Support", "disable");
      var ignored := IgnoredChanges(a);
      Some(VpcAttachmentResource(
        TerraformConfig.KeyOfAttachment(a),
        gatewayRef,
        a.resourceId,
        if |a.subnetIds| == 0 then [Placeholder] else a.subnetIds,
        Field(a.options, "ApplianceModeSupport", "disable"),
        Field(a.options, "DnsSupport", "enable"),
        Field(a.options, "Ipv6Support", "disable"),
        if |ignored| > 0 then Some(ignored) else None,
        TagBlock(TerraformConfig.AttachmentName(a), ExtraTagLines(a.tags))))
  }

  // ---------------------------------------------------------------------------
  // Associations and propagations
  // ---------------------------------------------------------------------------

  datatype LinkKind = Association | Propagation

  function LinkInfix(kind: LinkKind): string {
    match kind
    case Association => "_assoc_"
    case Propagation => "_prop_"
  }

  datatype LinkResource = LinkResource(kind: LinkKind, resourceName: string, attachmentRef: string, routeTableRef: string)

  /**
    generate_tgw_route_table_association / _propagation: code exactly when the
    attachment id is one a VPC attachment resource was generated for, naming both
    resources; the link's state is not looked at.
   */
  function LinkCode(kind: LinkKind, link: Link, rtRef: string, attResources: OMap<string, string>): (r: Option<LinkResource>)
    ensures r.None? <==> link.attachmentId.None? || link.attachmentId.value !in Keys(attResources)
    ensures r.Some? ==> Get(attResources, link.attachmentId.value) == Some(r.value.attachmentRef)
    ensures r.Some? ==> r.value.routeTableRef == rtRef && r.value.kind == kind
    ensures r.Some? ==> r.value.resourceName == rtRef + LinkInfix(kind) + r.value.attachmentRef
  {
    match link.attachmentId
    case None => None
    case Some(id) =>
      match Get(attResources, id)
      case None => None
      case Some(attRef) => Some(LinkResource(kind, rtRef + LinkInfix(kind) + attRef, attRef, rtRef))
  }

  /** Unlike the tfvars generator, this one emits a link in any state: the state never changes the code. */
  lemma LinkCodeIgnoresState(kind: LinkKind, id: Option<string>, s1: string, s2: string, rtRef: string, attResources: OMap<string, string>)
    ensures LinkCode(kind, Link(id, s1), rtRef, attResources) == LinkCode(kind, Link(id, s2), rtRef, attResources)
  {
  }

  // ---------------------------------------------------------------------------
  // Transit Gateway routes
  // ---------------------------------------------------------------------------

  /** Where a TGW route sends traffic: nowhere (`blackhole = true`), to an attachment resource, or unstated. */
  datatype RouteTarget = BlackholeTarget | AttachmentTarget(ref: string) | NoTarget

  datatype TgwRouteResource = TgwRouteResource(resourceName: string, destination: string, routeTableRef: string, target: RouteTarget)

  /** A route whose first target can be read: `TransitGatewayAttachments`, when present, is not an empty list. */
  predicate Indexable(route: TgwRoute) {
    route.targets != Some([])
  }

  /** The `TransitGatewayAttachmentId` of the first listed target; none when there is no list or no such field. */
  function FirstTargetId(route: TgwRoute): Option<string>
    requires Indexable(route)
  {
    match route.targets
    case None => None
    case Some(objs) => FieldOpt(objs[0], "TransitGatewayAttachmentId")
  }

  /** The first target names a VPC attachment resource (an empty id counts as none). */
  predicate TargetKnown(route: TgwRoute, attResources: OMap<string, string>)
    requires Indexable(route)
  {
    var id := FirstTargetId(route);
    id.Some? && id.value != "" && id.value in Keys(attResources)
  }

  /**
    generate_tgw_route: no code for a route without a destination or a propagated
    one; otherwise a resource named `{rt}_route_{destination}` with `/` and `.`
    replaced, which is a blackhole exactly for a blackhole route, and otherwise
    points at an attachment resource exactly when the first target is known.
   */
  function TgwRouteCode(route: TgwRoute, rtRef: string, attResources: OMap<string, string>): (r: Option<TgwRouteResource>)
    requires TerraformConfig.IsConfiguredRoute(route) ==> Indexable(route)
    ensures r.None? <==> !TerraformConfig.IsConfiguredRoute(route)
    ensures r.Some? ==> r.value.resourceName == rtRef + "_route_" + DestinationKeyKeepColon(route.destination)
    ensures r.Some? ==> r.value.destination == route.destination && r.value.routeTableRef == rtRef
    ensures r.Some? ==> (r.value.target.BlackholeTarget? <==> route.state == "blackhole")
    ensures r.Some? && route.state != "blackhole" ==> (r.value.target.AttachmentTarget? <==> TargetKnown(route, attResources))
    ensures r.Some? && r.value.target.AttachmentTarget? ==>
              Get(attResources, FirstTargetId(route).value) == Some(r.value.target.ref)
  {
    if route.destination == "" then None
    else if route.routeType == "propagated" then None
    else
      var id := FirstTargetId(route);
      var target :=
        if route.state == "blackhole" then BlackholeTarget
        else if TargetKnown(route, attResources) then AttachmentTarget(Get(attResources, id.value).value)
        else NoTarget;
      Some(TgwRouteResource(rtRef + "_route_" + DestinationKeyKeepColon(route.destination), route.destination, rtRef, target))
  }

  // ---------------------------------------------------------------------------
  // VPC routes
  // ---------------------------------------------------------------------------

  datatype VpcRouteResource = VpcRouteResource(resourceName: string, routeTableId: string, destination: string, gatewayId: string)

  function VpcRouteOf(table: VpcRouteTable, route: VpcRoute): Option<VpcRouteResource> {
    if TerraformConfig.IsGatewayRoute(route)
    then Some(VpcRouteResource(TerraformConfig.VpcRouteKey(table, route), table.id,
                               TerraformConfig.VpcRouteDestination(route), route.gatewayId.value))
    else None
  }

  /** generate_vpc_route: one `aws_route` per route of the table that goes to a Transit Gateway, in route order. */
  function VpcRouteCode(table: VpcRouteTable): (r: seq<VpcRouteResource>)
    ensures |r| <= |table.routes|
  {
    FilterMap(table.routes, VpcRouteStep(table))
  }

  function VpcRouteStep(table: VpcRouteTable): VpcRoute -> Option<VpcRouteResource> {
    (route: VpcRoute) => VpcRouteOf(table, route)
  }

  /** The VPC route resources of every route table, in file order. */
  function VpcRouteResources(tables: seq<VpcRouteTable>): seq<VpcRouteResource>
    decreases |tables|
  {
    if |tables| == 0 then [] else VpcRouteCode(tables[0]) + VpcRouteResources(tables[1..])
  }

  /**
    A VPC route resource is generated exactly for a route to a Transit Gateway with
    a destination other than `local`, named like the tfvars generator's key for it.
   */
  lemma {:induction false} VpcRouteResourcesMembers(tables: seq<VpcRouteTable>, res: VpcRouteResource)
    ensures res in VpcRouteResources(tables) <==>
            exists t, route | t in tables && route in t.routes :: VpcRouteOf(t, route) == Some(res)
    decreases |tables|
  {
    if |tables| > 0 {
      VpcRouteResourcesMembers(tables[1..], res);
      FilterMapMembers(tables[0].routes, VpcRouteStep(tables[0]), res);
      assert tables == [tables[0]] + tables[1..];
    }
  }

  /**
    The two generators agree on VPC routes: the resource names of generate_terraform
    are exactly the keys of the `vpc_routes` map of the tfvars generator.
   */
  lemma VpcRouteNamesMatchConfigKeys(tables: seq<VpcRouteTable>, name: string)
    ensures (exists res | res in VpcRouteResources(tables) :: res.resourceName == name) <==>
            name in Keys(TerraformConfig.VpcRouteConfigs(tables))
  {
    TerraformConfig.VpcRouteConfigsMembers(tables, name);
    if res :| res in VpcRouteResources(tables) && res.resourceName == name {
      VpcRouteResourcesMembers(tables, res);
      var t, route :| t in tables && route in t.routes && VpcRouteOf(t, route) == Some(res);
      assert TerraformConfig.YieldsVpcRouteKey(t, route, name);
    }
    if t, route :| t in tables && route in t.routes && TerraformConfig.YieldsVpcRouteKey(t, route, name) {
      var res := VpcRouteOf(t, route).value;
      VpcRouteResourcesMembers(tables, res);
    }
  }

  // ---------------------------------------------------------------------------
  // generate_all
  // ---------------------------------------------------------------------------

  /** tgw_resources: gateway id to resource name (a later gateway with the same id wins). */
  function GatewayResources(gateways: seq<TransitGateway>): OMap<string, string> {
    PutAll([], Collect(gateways, GatewayEntry))
  }

  function GatewayEntry(g: TransitGateway): Option<(string, string)> {
    Some((g.id, SanitizeKey(GatewayName(g))))
  }

  /** The parent gateway of a route table or attachment is one a resource was generated for. */
  predicate KnownGateway(gatewayId: Option<string>, tgwResources: OMap<string, string>) {
    gatewayId.Some? && gatewayId.value in Keys(tgwResources)
  }

  function GatewayRef(gatewayId: Option<string>, tgwResources: OMap<string, string>): string
    requires KnownGateway(gatewayId, tgwResources)
  {
    Get(tgwResources, gatewayId.value).value
  }

  /**
    What generate_all needs of its input to run to the end: every route table and
    attachment has a `TransitGatewayId`, every tag list it walks is well formed, and
    no static route it reads has an empty target list. Only the routes files of tables
    whose gateway was generated are read.
   */
  predicate Generatable(cat: Catalog) {
    var tgwResources := GatewayResources(cat.gateways);
    && (forall g | g in cat.gateways :: WellFormedTags(g.tags))
    && (forall rt | rt in cat.tgwRouteTables :: rt.gatewayId.Some?)
    && (forall rt | rt in cat.tgwRouteTables && KnownGateway(rt.gatewayId, tgwResources) :: WellFormedTags(rt.tags))
    && (forall a | a in cat.attachments :: a.gatewayId.Some?)
    && (forall a | a in cat.attachments && KnownGateway(a.gatewayId, tgwResources) && IsVpc(a) :: WellFormedTags(a.tags))
    && (forall rt, route | rt in cat.tgwRouteTables && KnownGateway(rt.gatewayId, tgwResources) && route in FileOf(cat.routes, rt.id) ::
          TerraformConfig.IsConfiguredRoute(route) ==> Indexable(route))
  }

  /** A routes file that is never read, here one with an empty target list and no gateway to read it for, does not stop generation. */
  lemma UnreadRoutesFileAccepted()
    ensures Generatable(Catalog([], [], [], [], map[], map[],
                                map["rt-1" := [TgwRoute("10.0.0.0/16", "static", "active", Some([]))]], map[], map[]))
  {
  }

  /**
    The table's code, when its gateway was generated. Under `Generatable` the tags of such a
    table are well formed, so the `WellFormedTags` test only matters outside it, where the
    source would stop with a `KeyError` instead.
   */
  function RouteTableStep(tgwResources: OMap<string, string>): TgwRouteTable -> Option<RouteTableResource> {
    (rt: TgwRouteTable) =>
      if KnownGateway(rt.gatewayId, tgwResources) && WellFormedTags(rt.tags)
      then Some(RouteTableCode(rt, GatewayRef(rt.gatewayId, tgwResources)))
      else None
  }

  /** rt_resources: route-table id to resource name, for the tables whose gateway was generated. */
  function RouteTableResources(tables: seq<TgwRouteTable>, tgwResources: OMap<string, string>): OMap<string, string> {
    PutAll([], Collect(tables, RouteTableEntry(tgwResources)))
  }

  function RouteTableEntry(tgwResources: OMap<string, string>): TgwRouteTable -> Option<(string, string)> {
    (rt: TgwRouteTable) =>
      if KnownGateway(rt.gatewayId, tgwResources) then Some((rt.id, TerraformConfig.KeyOfRouteTable(rt))) else None
  }

  function AttachmentStep(tgwResources: OMap<string, string>): Attachment -> Option<VpcAttachmentResource> {
    (a: Attachment) =>
      if KnownGateway(a.gatewayId, tgwResources) && (IsVpc(a) ==> WellFormedTags(a.tags))
      then VpcAttachmentCode(a, GatewayRef(a.gatewayId, tgwResources))
      else None
  }

  /** attachment_resources: attachment id to resource name, only for attachments that produced code. */
  function AttachmentResources(atts: seq<Attachment>, tgwResources: OMap<string, string>): OMap<string, string> {
    PutAll([], Collect(atts, AttachmentEntry(tgwResources)))
  }

  function AttachmentEntry(tgwResources: OMap<string, string>): Attachment -> Option<(string, string)> {
    (a: Attachment) =>
      if KnownGateway(a.gatewayId, tgwResources) && IsVpc(a) then Some((a.id, TerraformConfig.KeyOfAttachment(a))) else None
  }

  /** For each generated route table in map order: its associations, then its propagations. */
  function LinkResources(rtResources: OMap<string, string>, cat: Catalog, attResources: OMap<string, string>): seq<LinkResource>
    decreases |rtResources|
  {
    if |rtResources| == 0 then []
    else
      var rtId := rtResources[0].0;
      var rtRef := rtResources[0].1;
      FilterMap(FileOf(cat.associations, rtId), LinkStep(Association, rtRef, attResources))
      + FilterMap(FileOf(cat.propagations, rtId), LinkStep(Propagation, rtRef, attResources))
      + LinkResources(rtResources[1..], cat, attResources)
  }

  function LinkStep(kind: LinkKind, rtRef: string, attResources: OMap<string, string>): Link -> Option<LinkResource> {
    (l: Link) => LinkCode(kind, l, rtRef, attResources)
  }

  function RouteStep(rtRef: string, attResources: OMap<string, string>): TgwRoute -> Option<TgwRouteResource> {
    (route: TgwRoute) =>
      if TerraformConfig.IsConfiguredRoute(route) ==> Indexable(route)
      then TgwRouteCode(route, rtRef, attResources)
      else None
  }

  /** For each generated route table in map order: the code of each route in its routes file. */
  function TgwRouteResources(rtResources: OMap<string, string>, routes: map<string, seq<TgwRoute>>,
                             attResources: OMap<string, string>): seq<TgwRouteResource>
    decreases |rtResources|
  {
    if |rtResources| == 0 then []
    else
      FilterMap(FileOf(routes, rtResources[0].0), RouteStep(rtResources[0].1, attResources))
      + TgwRouteResources(rtResources[1..], routes, attResources)
  }

  /** The generated files, one field per `.tf` file. */
  datatype Terraform = Terraform(
    gateways: seq<GatewayResource>,
    routeTables: seq<RouteTableResource>,
    attachments: seq<VpcAttachmentResource>,
    links: seq<LinkResource>,
    tgwRoutes: seq<TgwRouteResource>,
    vpcRoutes: seq<VpcRouteResource>,
    region: string)

  /** generate_all, without the file writes. */
  function GenerateAll(cat: Catalog, region: string): (r: Terraform)
    requires Generatable(cat)
    ensures |r.gateways| == |cat.gateways|
    ensures |r.routeTables| <= |cat.tgwRouteTables| && |r.attachments| <= |cat.attachments|
  {
    var tgwResources := GatewayResources(cat.gateways);
    var rtResources := RouteTableResources(cat.tgwRouteTables, tgwResources);
    var attResources := AttachmentResources(cat.attachments, tgwResources);
    Terraform(
      seq(|cat.gateways|, i requires 0 <= i < |cat.gateways| => GatewayCode(cat.gateways[i])),
      FilterMap(cat.tgwRouteTables, RouteTableStep(tgwResources)),
      FilterMap(cat.attachments, AttachmentStep(tgwResources)),
      LinkResources(rtResources, cat, attResources),
      TgwRouteResources(rtResources, cat.routes, attResources),
      VpcRouteResources(cat.vpcRouteTables),
      region)
  }

  /** tgw_resources has one entry per distinct gateway id. */
  lemma GatewayResourcesKeys(gateways: seq<TransitGateway>, id: string)
    ensures Distinct(Keys(GatewayResources(gateways)))
    ensures id in Keys(GatewayResources(gateways)) <==> exists g | g in gateways :: g.id == id
  {
    var f := GatewayEntry;
    CollectedKey(gateways, f, id);
    if g :| g in gateways && g.id == id {
      var i :| 0 <= i < |gateways| && gateways[i] == g;
      assert Emits(f, gateways[i], id);
    }
  }

  /**
    Route tables are filtered by parent: a route-table resource is generated exactly
    for each table whose `TransitGatewayId` is a key of tgw_resources (by
    GatewayResourcesKeys, the id of a gateway of the inventory), and it refers to
    that gateway's resource.
   */
  lemma RouteTablesHaveKnownParent(cat: Catalog, region: string, res: RouteTableResource)
    requires Generatable(cat)
    ensures res in GenerateAll(cat, region).routeTables <==>
            exists rt | rt in cat.tgwRouteTables ::
              && KnownGateway(rt.gatewayId, GatewayResources(cat.gateways)) && WellFormedTags(rt.tags)
              && res == RouteTableCode(rt, GatewayRef(rt.gatewayId, GatewayResources(cat.gateways)))
  {
    FilterMapMembers(cat.tgwRouteTables, RouteTableStep(GatewayResources(cat.gateways)), res);
  }

  /**
    attachment_resources holds exactly the VPC attachments whose gateway was
    generated; the others (other resource types, other gateways) get no resource and
    nothing can refer to them.
   */
  lemma AttachmentResourcesKeys(cat: Catalog, id: string)
    requires Generatable(cat)
    ensures Distinct(Keys(AttachmentResources(cat.attachments, GatewayResources(cat.gateways))))
    ensures id in Keys(AttachmentResources(cat.attachments, GatewayResources(cat.gateways))) <==>
            exists a | a in cat.attachments :: a.id == id && IsVpc(a) && (exists g | g in cat.gateways :: g.id == a.gatewayId.value)
  {
    var tgwResources := GatewayResources(cat.gateways);
    var f := AttachmentEntry(tgwResources);
    CollectedKey(cat.attachments, f, id);
    forall a | a in cat.attachments
      ensures KnownGateway(a.gatewayId, tgwResources) <==> exists g | g in cat.gateways :: g.id == a.gatewayId.value
    {
      GatewayResourcesKeys(cat.gateways, a.gatewayId.value);
    }
    if a :| a in cat.attachments && a.id == id && IsVpc(a) && KnownGateway(a.gatewayId, tgwResources) {
      var i :| 0 <= i < |cat.attachments| && cat.attachments[i] == a;
      assert Emits(f, cat.attachments[i], id);
    }
  }

  /** Every name in attachment_resources is the name of a generated VPC attachment resource. */
  lemma AttachmentNamesGenerated(cat: Catalog, e: (string, string))
    requires Generatable(cat)
    requires e in AttachmentResources(cat.attachments, GatewayResources(cat.gateways))
    ensures exists res | res in FilterMap(cat.attachments, AttachmentStep(GatewayResources(cat.gateways))) :: res.resourceName == e.1
  {
    var tgwResources := GatewayResources(cat.gateways);
    var f := AttachmentEntry(tgwResources);
    CollectedEntry(cat.attachments, f, e);
    var i :| 0 <= i < |cat.attachments| && f(cat.attachments[i]) == Some(e);
    var a := cat.attachments[i];
    assert a in cat.attachments && KnownGateway(a.gatewayId, tgwResources) && IsVpc(a);
    var res := VpcAttachmentCode(a, GatewayRef(a.gatewayId, tgwResources)).value;
    assert AttachmentStep(tgwResources)(a) == Some(res);
    FilterMapMembers(cat.attachments, AttachmentStep(tgwResources), res);
  }

  /** Every name in rt_resources is the name of a generated route-table resource. */
  lemma RouteTableNamesGenerated(cat: Catalog, e: (string, string))
    requires Generatable(cat)
    requires e in RouteTableResources(cat.tgwRouteTables, GatewayResources(cat.gateways))
    ensures exists res | res in FilterMap(cat.tgwRouteTables, RouteTableStep(GatewayResources(cat.gateways))) :: res.resourceName == e.1
  {
    var tgwResources := GatewayResources(cat.gateways);
    var f := RouteTableEntry(tgwResources);
    CollectedEntry(cat.tgwRouteTables, f, e);
    var i :| 0 <= i < |cat.tgwRouteTables| && f(cat.tgwRouteTables[i]) == Some(e);
    var res := RouteTableStep(tgwResources)(cat.tgwRouteTables[i]).value;
    FilterMapMembers(cat.tgwRouteTables, RouteTableStep(tgwResources), res);
  }

  /** Every association and propagation refers to names taken from rt_resources and attachment_resources. */
  lemma {:induction false} LinkResourcesRefer(rtResources: OMap<string, string>, cat: Catalog, attResources: OMap<string, string>,
                                              res: LinkResource)
    requires res in LinkResources(rtResources, cat, attResources)
    ensures res.attachmentRef in Values(attResources)
    ensures res.routeTableRef in Values(rtResources)
    decreases |rtResources|
  {
    var rtId := rtResources[0].0;
    var rtRef := rtResources[0].1;
    var assoc := LinkStep(Association, rtRef, attResources);
    var prop := LinkStep(Propagation, rtRef, attResources);
    var rest := LinkResources(rtResources[1..], cat, attResources);
    assert Values(rtResources)[0] == rtRef;
    if res in rest {
      LinkResourcesRefer(rtResources[1..], cat, attResources, res);
      var j :| 0 <= j < |rtResources[1..]| && Values(rtResources[1..])[j] == res.routeTableRef;
      assert Values(rtResources)[j + 1] == res.routeTableRef;
    } else {
      FilterMapMembers(FileOf(cat.associations, rtId), assoc, res);
      FilterMapMembers(FileOf(cat.propagations, rtId), prop, res);
      var l :| (l in FileOf(cat.associations, rtId) && assoc(l) == Some(res)) ||
               (l in FileOf(cat.propagations, rtId) && prop(l) == Some(res));
      ValuesOfGet(attResources, l.attachmentId.value);
    }
  }

  /**
    Every TGW route that points at an attachment refers to a name from
    attachment_resources, and sits in a route table from rt_resources.
   */
  lemma {:induction false} TgwRouteResourcesRefer(rtResources: OMap<string, string>, routes: map<string, seq<TgwRoute>>,
                                                  attResources: OMap<string, string>, res: TgwRouteResource)
    requires res in TgwRouteResources(rtResources, routes, attResources)
    ensures res.target.AttachmentTarget? ==> res.target.ref in Values(attResources)
    ensures res.routeTableRef in Values(rtResources)
    decreases |rtResources|
  {
    var step := RouteStep(rtResources[0].1, attResources);
    var rest := TgwRouteResources(rtResources[1..], routes, attResources);
    assert Values(rtResources)[0] == rtResources[0].1;
    if res in rest {
      TgwRouteResourcesRefer(rtResources[1..], routes, attResources, res);
      var j :| 0 <= j < |rtResources[1..]| && Values(rtResources[1..])[j] == res.routeTableRef;
      assert Values(rtResources)[j + 1] == res.routeTableRef;
    } else {
      FilterMapMembers(FileOf(routes, rtResources[0].0), step, res);
      var route :| route in FileOf(routes, rtResources[0].0) && step(route) == Some(res);
      if res.target.AttachmentTarget? {
        ValuesOfGet(attResources, FirstTargetId(route).value);
      }
    }
  }

  /**
    Cross-file consistency of generate_all: every association, propagation and TGW
    route refers only to route-table and attachment resources that were generated.
   */
  lemma ReferencesResolve(cat: Catalog, region: string)
    requires Generatable(cat)
    ensures var t := GenerateAll(cat, region);
            && (forall l | l in t.links ::
                  (exists a | a in t.attachments :: a.resourceName == l.attachmentRef) &&
                  (exists rt | rt in t.routeTables :: rt.resourceName == l.routeTableRef))
            && (forall r | r in t.tgwRoutes ::
                  (r.target.AttachmentTarget? ==> exists a | a in t.attachments :: a.resourceName == r.target.ref) &&
                  (exists rt | rt in t.routeTables :: rt.resourceName == r.routeTableRef))
  {
    var tgwResources := GatewayResources(cat.gateways);
    var rtResources := RouteTableResources(cat.tgwRouteTables, tgwResources);
    var attResources := AttachmentResources(cat.attachments, tgwResources);
    forall name | name in Values(attResources)
      ensures exists a | a in FilterMap(cat.attachments, AttachmentStep(tgwResources)) :: a.resourceName == name
    {
      var i :| 0 <= i < |attResources| && Values(attResources)[i] == name;
      AttachmentNamesGenerated(cat, attResources[i]);
    }
    forall name | name in Values(rtResources)
      ensures exists rt | rt in FilterMap(cat.tgwRouteTables, RouteTableStep(tgwResources)) :: rt.resourceName == name
    {
      var i :| 0 <= i < |rtResources| && Values(rtResources)[i] == name;
      RouteTableNamesGenerated(cat, rtResources[i]);
    }
    forall l | l in LinkResources(rtResources, cat, attResources)
      ensures l.attachmentRef in Values(attResources) && l.routeTableRef in Values(rtResources)
    {
      LinkResourcesRefer(rtResources, cat, attResources, l);
    }
    forall r | r in TgwRouteResources(rtResources, cat.routes, attResources)
      ensures (r.target.AttachmentTarget? ==> r.target.ref in Values(attResources)) && r.routeTableRef in Values(rtResources)
    {
      TgwRouteResourcesRefer(rtResources, cat.routes, attResources, r);
    }
  }
}
