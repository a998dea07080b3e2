/**
  The import-script generator of scripts/generate_import_commands.py: one
  `import.sh` per Transit Gateway (the gateway and its VPC and peering attachments)
  and one per route table of that gateway (the table, its associations,
  propagations and static routes). Scripts are sequences of lines.
 */
module ImportCommands {
  import opened Wrappers
  import opened Strings
  import opened Seqs
  import opened OrderedMap
  import opened Tags
  import opened Sanitize
  import opened Inventory

  // ---------------------------------------------------------------------------
  // Attachments of the selected gateway
  // ---------------------------------------------------------------------------

  /** What collect_all_attachments records for one attachment id. */
  datatype AttachmentInfo = AttachmentInfo(
    key: string,
    kind: string,
    name: string,
    attachmentId: string,
    resourceId: string)

  /**
    The selection filter of collect_all_attachments: with a selected gateway id that
    is non-empty (truthy), only attachments whose `TransitGatewayId` equals it.
   */
  predicate InSelection(a: Attachment, selected: Option<string>) {
    selected.None? || selected.value == "" || a.gatewayId == selected
  }

  /** The record of one attachment: its key is the sanitized `Name` tag, or the sanitized id without one. */
  function Describe(a: Attachment): AttachmentInfo {
    var name := GetTagValue(a.tags, "Name", a.id);
    AttachmentInfo(SanitizeKeyColon(name), a.resourceType, name, a.id, a.resourceId)
  }

  function AttachmentEntry(selected: Option<string>): Attachment -> Option<(string, AttachmentInfo)> {
    a => if InSelection(a, selected) then Some((a.id, Describe(a))) else None
  }

  /** collect_all_attachments, with the selected gateway passed explicitly. */
  function CollectAllAttachments(attachments: seq<Attachment>, selected: Option<string>): OMap<string, AttachmentInfo> {
    PutAll([], Collect(attachments, AttachmentEntry(selected)))
  }

  /** The collected map holds one entry per id of a selected attachment, and no other. */
  lemma CollectAllAttachmentsKeys(attachments: seq<Attachment>, selected: Option<string>, id: string)
    ensures Distinct(Keys(CollectAllAttachments(attachments, selected)))
    ensures id in Keys(CollectAllAttachments(attachments, selected)) <==>
            exists i | 0 <= i < |attachments| :: InSelection(attachments[i], selected) && attachments[i].id == id
  {
    var f := AttachmentEntry(selected);
    CollectedKey(attachments, f, id);
    assert forall i | 0 <= i < |attachments| ::
             Emits(f, attachments[i], id) <==> InSelection(attachments[i], selected) && attachments[i].id == id;
  }

  /** An id shared by several selected attachments holds the record of the last of them. */
  lemma CollectAllAttachmentsLast(attachments: seq<Attachment>, selected: Option<string>, id: string, i: int)
    requires 0 <= i < |attachments| && InSelection(attachments[i], selected) && attachments[i].id == id
    requires forall j | i < j < |attachments| :: !(InSelection(attachments[j], selected) && attachments[j].id == id)
    ensures Get(CollectAllAttachments(attachments, selected), id) == Some(Describe(attachments[i]))
  {
    var f := AttachmentEntry(selected);
    assert IsLastEmitter(attachments, f, id, i);
    CollectedMap(attachments, f, id);
  }

  /** Each record's attachment id is its map key, and its key is its sanitized name. */
  lemma CollectAllAttachmentsEntries(attachments: seq<Attachment>, selected: Option<string>, e: (string, AttachmentInfo))
    requires e in CollectAllAttachments(attachments, selected)
    ensures e.1.attachmentId == e.0 && e.1.key == SanitizeKeyColon(e.1.name)
  {
    CollectedEntry(attachments, AttachmentEntry(selected), e);
  }

  /** With a gateway selected, every collected attachment belongs to it. */
  lemma CollectedBelongToSelection(attachments: seq<Attachment>, gatewayId: string, e: (string, AttachmentInfo))
    requires gatewayId != ""
    requires e in CollectAllAttachments(attachments, Some(gatewayId))
    ensures exists a | a in attachments :: a.gatewayId == Some(gatewayId) && a.id == e.0 && Describe(a) == e.1
  {
    CollectedMap(attachments, AttachmentEntry(Some(gatewayId)), e.0);
  }

  /** The attachments of one resource type, in collection order. */
  function OfKind(all: OMap<string, AttachmentInfo>, kind: string): OMap<string, AttachmentInfo> {
    Filter(all, (e: (string, AttachmentInfo)) => e.1.kind == kind)
  }

  // ---------------------------------------------------------------------------
  // Script lines
  // ---------------------------------------------------------------------------

  const ScriptHeader: seq<string> := ["#!/bin/bash", "set -euo pipefail", ""]
  const ScriptFooter: seq<string> := ["echo '\U{2713} Import completed'", ""]

  /** `terraform import ADDRESS ID`. */
  function ImportLine(address: string, id: string): string {
    "terraform import " + address + " " + id
  }

  /** The quoted address of one instance of a `for_each` resource: `'TYPE.this["KEY"]'`. */
  function InstanceAddress(resourceType: string, key: string): string {
    "'" + resourceType + ".this[\"" + key + "\"]'"
  }

  predicate IsCommand(line: string) {
    StartsWith(line, "terraform import ")
  }

  predicate IsPlaceholder(line: string) {
    StartsWith(line, "# terraform import ")
  }

  /** The import commands of a script, in order. */
  function Commands(lines: seq<string>): seq<string> {
    Filter(lines, IsCommand)
  }

  /** The commented-out import commands of a script, in order. */
  function Placeholders(lines: seq<string>): seq<string> {
    Filter(lines, IsPlaceholder)
  }

  /** A titled block of lines followed by a blank line, or nothing when there are no lines. */
  function Section(title: string, body: seq<string>): seq<string> {
    if |body| == 0 then [] else [title] + body + [""]
  }

  /** Every line of an import script begins with the shebang and `set -euo pipefail` and ends with the completion message. */
  predicate Framed(script: seq<string>) {
    |script| >= |ScriptHeader| + |ScriptFooter| &&
    script[..|ScriptHeader|] == ScriptHeader &&
    script[|script| - |ScriptFooter|..] == ScriptFooter
  }

  /** Commands begin with `t`; placeholders begin with `#` and have `t` at index 2. */
  lemma LineShape(line: string)
    ensures IsCommand(line) ==> line[0] == 't'
    ensures IsPlaceholder(line) ==> line[0] == '#' && line[2] == 't'
  {
    if IsCommand(line) {
      assert line[..17][0] == 't';
    }
    if IsPlaceholder(line) {
      assert line[..19][0] == '#' && line[..19][2] == 't';
    }
  }

  lemma NotCommandOrPlaceholder(line: string)
    requires |line| > 0 && line[0] != 't' && (line[0] != '#' || (|line| > 2 && line[2] != 't'))
    ensures !IsCommand(line) && !IsPlaceholder(line)
  {
    LineShape(line);
  }

  lemma ImportLineIsCommand(address: string, id: string)
    ensures IsCommand(ImportLine(address, id)) && !IsPlaceholder(ImportLine(address, id))
  {
    var l := ImportLine(address, id);
    assert l[..17] == "terraform import ";
    LineShape(l);
  }

  lemma CommentedImportIsPlaceholder(address: string, id: string)
    ensures IsPlaceholder("# " + ImportLine(address, id)) && !IsCommand("# " + ImportLine(address, id))
  {
    var l := "# " + ImportLine(address, id);
    assert l[..19] == "# terraform import ";
    LineShape(l);
  }

  /** Filtering a script made of five parts filters each part. */
  lemma FilterParts<T>(a: seq<T>, b: seq<T>, c: seq<T>, d: seq<T>, e: seq<T>, keep: T -> bool)
    ensures Filter(a + b + c + d + e, keep) == Filter(a, keep) + Filter(b, keep) + Filter(c, keep) + Filter(d, keep) + Filter(e, keep)
  {
    FilterAppend(a + b + c + d, e, keep);
    FilterAppend(a + b + c, d, keep);
    FilterAppend(a + b, c, keep);
    FilterAppend(a, b, keep);
  }

  /** The fixed lines and section titles of both scripts are neither commands nor placeholders. */
  lemma FixedLinesAreNotCommands()
    ensures Commands(ScriptHeader) == [] && Placeholders(ScriptHeader) == []
    ensures Commands(ScriptFooter) == [] && Placeholders(ScriptFooter) == []
  {
    NotCommandOrPlaceholder("#!/bin/bash");
    NotCommandOrPlaceholder("set -euo pipefail");
    NotCommandOrPlaceholder("echo '\U{2713} Import completed'");
    FilterAllOrNone(ScriptHeader, IsCommand);
    FilterAllOrNone(ScriptHeader, IsPlaceholder);
    FilterAllOrNone(ScriptFooter, IsCommand);
    FilterAllOrNone(ScriptFooter, IsPlaceholder);
  }

  /** The commands of a section are those of its body, when its title is not a command itself. */
  lemma SectionCommands(title: string, body: seq<string>)
    requires !IsCommand(title) && !IsPlaceholder(title)
    ensures Commands(Section(title, body)) == Commands(body)
    ensures Placeholders(Section(title, body)) == Placeholders(body)
  {
    if |body| > 0 {
      assert !IsCommand("") && !IsPlaceholder("");
      FilterAppend([title] + body, [""], IsCommand);
      FilterAppend([title], body, IsCommand);
      FilterAppend([title] + body, [""], IsPlaceholder);
      FilterAppend([title], body, IsPlaceholder);
    }
  }

  // ---------------------------------------------------------------------------
  // The gateway script (generate_tgw_import)
  // ---------------------------------------------------------------------------

  const VpcAttachmentType := "aws_ec2_transit_gateway_vpc_attachment"
  const PeeringAttachmentType := "aws_ec2_transit_gateway_peering_attachment"
  const VpcTitle := "echo 'Importing VPC Attachments...'"
  const PeeringTitle := "echo 'Importing Peering Attachments...'"

  /** The import command of the gateway itself: its id alone is the import id. */
  function GatewayImportLine(gatewayId: string): string {
    ImportLine("aws_ec2_transit_gateway.this", gatewayId)
  }

  /** One import command per attachment, keyed by its sanitized name and imported by its id. */
  function AttachmentImportLines(resourceType: string, atts: OMap<string, AttachmentInfo>): (r: seq<string>)
    ensures |r| == |atts|
    ensures forall i | 0 <= i < |atts| :: r[i] == ImportLine(InstanceAddress(resourceType, atts[i].1.key), atts[i].0)
  {
    seq(|atts|, i requires 0 <= i < |atts| => ImportLine(InstanceAddress(resourceType, atts[i].1.key), atts[i].0))
  }

  /**
    generate_tgw_import: the selected gateway is the script's own gateway, so only
    its attachments are listed; VPC attachments first, then peering attachments.
   */
  function GatewayImportScript(tgw: TransitGateway, attachments: seq<Attachment>): seq<string> {
    var all := CollectAllAttachments(attachments, Some(tgw.id));
    ScriptHeader
    + ["echo 'Importing Transit Gateway...'", GatewayImportLine(tgw.id), ""]
    + Section(VpcTitle, AttachmentImportLines(VpcAttachmentType, OfKind(all, "vpc")))
    + Section(PeeringTitle, AttachmentImportLines(PeeringAttachmentType, OfKind(all, "peering")))
    + ScriptFooter
  }

  lemma {:induction false} AttachmentLinesAreCommands(resourceType: string, atts: OMap<string, AttachmentInfo>)
    ensures Commands(AttachmentImportLines(resourceType, atts)) == AttachmentImportLines(resourceType, atts)
    ensures Placeholders(AttachmentImportLines(resourceType, atts)) == []
  {
    var lines := AttachmentImportLines(resourceType, atts);
    forall l | l in lines
      ensures IsCommand(l) && !IsPlaceholder(l)
    {
      var i :| 0 <= i < |lines| && lines[i] == l;
      ImportLineIsCommand(InstanceAddress(resourceType, atts[i].1.key), atts[i].0);
    }
    FilterAllOrNone(lines, IsCommand);
    FilterAllOrNone(lines, IsPlaceholder);
  }

  /** The lines before the attachment sections: no placeholder, and the gateway's own command. */
  lemma GatewayIntroCommands(gatewayId: string)
    ensures Commands(ScriptHeader + ["echo 'Importing Transit Gateway...'", GatewayImportLine(gatewayId), ""]) == [GatewayImportLine(gatewayId)]
    ensures Placeholders(ScriptHeader + ["echo 'Importing Transit Gateway...'", GatewayImportLine(gatewayId), ""]) == []
  {
    var intro := ["echo 'Importing Transit Gateway...'", GatewayImportLine(gatewayId), ""];
    FixedLinesAreNotCommands();
    NotCommandOrPlaceholder("echo 'Importing Transit Gateway...'");
    ImportLineIsCommand("aws_ec2_transit_gateway.this", gatewayId);
    assert !IsCommand("") && !IsPlaceholder("");
    FilterAppend(ScriptHeader, intro, IsCommand);
    FilterAppend(ScriptHeader, intro, IsPlaceholder);
    FilterAppend(["echo 'Importing Transit Gateway...'"], [GatewayImportLine(gatewayId), ""], IsCommand);
    FilterAppend([GatewayImportLine(gatewayId)], [""], IsCommand);
    FilterAllOrNone(intro, IsPlaceholder);
  }

  /** The gateway script starts with the shebang and `set -euo pipefail` and ends with the completion message. */
  lemma GatewayImportScriptFramed(tgw: TransitGateway, attachments: seq<Attachment>)
    ensures Framed(GatewayImportScript(tgw, attachments))
  {
  }

  /** The gateway script is the header and intro, the two attachment sections, and the footer. */
  lemma GatewayImportScriptParts(tgw: TransitGateway, attachments: seq<Attachment>)
    ensures var all := CollectAllAttachments(attachments, Some(tgw.id));
            GatewayImportScript(tgw, attachments) ==
              (ScriptHeader + ["echo 'Importing Transit Gateway...'", GatewayImportLine(tgw.id), ""])
              + Section(VpcTitle, AttachmentImportLines(VpcAttachmentType, OfKind(all, "vpc")))
              + Section(PeeringTitle, AttachmentImportLines(PeeringAttachmentType, OfKind(all, "peering")))
              + ScriptFooter
  {
  }

  /** Filtering the gateway script filters each of its four parts. */
  lemma FilterFourParts(a: seq<string>, b: seq<string>, c: seq<string>, d: seq<string>, keep: string -> bool)
    ensures Filter(a + b + c + d, keep) == Filter(a, keep) + Filter(b, keep) + Filter(c, keep) + Filter(d, keep)
  {
    FilterAppend(a + b + c, d, keep);
    FilterAppend(a + b, c, keep);
    FilterAppend(a, b, keep);
  }

  /**
    The import commands of the gateway script are exactly: the gateway (by its id),
    then one per VPC attachment of the gateway, then one per peering attachment,
    each in collection order. Attachments of any other type get no command.
   */
  lemma GatewayImportScriptCommands(tgw: TransitGateway, attachments: seq<Attachment>)
    ensures var all := CollectAllAttachments(attachments, Some(tgw.id));
            Commands(GatewayImportScript(tgw, attachments)) ==
              [GatewayImportLine(tgw.id)]
              + AttachmentImportLines(VpcAttachmentType, OfKind(all, "vpc"))
              + AttachmentImportLines(PeeringAttachmentType, OfKind(all, "peering"))
  {
    var all := CollectAllAttachments(attachments, Some(tgw.id));
    var vpc := AttachmentImportLines(VpcAttachmentType, OfKind(all, "vpc"));
    var peer := AttachmentImportLines(PeeringAttachmentType, OfKind(all, "peering"));
    var intro := ScriptHeader + ["echo 'Importing Transit Gateway...'", GatewayImportLine(tgw.id), ""];
    GatewayImportScriptParts(tgw, attachments);
    FilterFourParts(intro, Section(VpcTitle, vpc), Section(PeeringTitle, peer), ScriptFooter, IsCommand);
    GatewayIntroCommands(tgw.id);
    FixedLinesAreNotCommands();
    NotCommandOrPlaceholder(VpcTitle);
    NotCommandOrPlaceholder(PeeringTitle);
    SectionCommands(VpcTitle, vpc);
    SectionCommands(PeeringTitle, peer);
    AttachmentLinesAreCommands(VpcAttachmentType, OfKind(all, "vpc"));
    AttachmentLinesAreCommands(PeeringAttachmentType, OfKind(all, "peering"));
    assert [GatewayImportLine(tgw.id)] + vpc + peer + [] == [GatewayImportLine(tgw.id)] + vpc + peer;
  }

  /** The gateway script has no commented-out placeholder commands. */
  lemma GatewayImportScriptNoPlaceholders(tgw: TransitGateway, attachments: seq<Attachment>)
    ensures Placeholders(GatewayImportScript(tgw, attachments)) == []
  {
    var all := CollectAllAttachments(attachments, Some(tgw.id));
    var vpc := AttachmentImportLines(VpcAttachmentType, OfKind(all, "vpc"));
    var peer := AttachmentImportLines(PeeringAttachmentType, OfKind(all, "peering"));
    var intro := ScriptHeader + ["echo 'Importing Transit Gateway...'", GatewayImportLine(tgw.id), ""];
    GatewayImportScriptParts(tgw, attachments);
    FilterFourParts(intro, Section(VpcTitle, vpc), Section(PeeringTitle, peer), ScriptFooter, IsPlaceholder);
    GatewayIntroCommands(tgw.id);
    FixedLinesAreNotCommands();
    NotCommandOrPlaceholder(VpcTitle);
    NotCommandOrPlaceholder(PeeringTitle);
    SectionCommands(VpcTitle, vpc);
    SectionCommands(PeeringTitle, peer);
    AttachmentLinesAreCommands(VpcAttachmentType, OfKind(all, "vpc"));
    AttachmentLinesAreCommands(PeeringAttachmentType, OfKind(all, "peering"));
  }

  // ---------------------------------------------------------------------------
  // The route-table script (generate_route_table_import)
  // ---------------------------------------------------------------------------

  const AssociationType := "aws_ec2_transit_gateway_route_table_association"
  const PropagationType := "aws_ec2_transit_gateway_route_table_propagation"
  const RouteType := "aws_ec2_transit_gateway_route"
  const AssociationTitle := "# Import Route Table Associations"
  const PropagationTitle := "# Import Route Table Propagations"
  const RouteTitle := "# Import Transit Gateway Routes"

  /** A static route to import: its map key and its destination CIDR block. */
  datatype RouteEntry = RouteEntry(key: string, destination: string)

  /**
    The line for one association or propagation key: an import command whose id is
    `{route table id}_{attachment id}` when the key resolves, otherwise the same
    command commented out with `<attachment-id>` in place of the attachment id.
   */
  function LinkLine(resourceType: string, rtId: string, rtAttachments: OMap<string, AttachmentInfo>, key: string): (r: string)
    ensures IsCommand(r) <==> key in Keys(rtAttachments)
    ensures IsPlaceholder(r) <==> key !in Keys(rtAttachments)
  {
    match Get(rtAttachments, key)
    case Some(att) =>
      ImportLineIsCommand(InstanceAddress(resourceType, key), rtId + "_" + att.attachmentId);
      ImportLine(InstanceAddress(resourceType, key), rtId + "_" + att.attachmentId)
    case None =>
      CommentedImportIsPlaceholder(InstanceAddress(resourceType, key), rtId + "_<attachment-id>");
      "# " + ImportLine(InstanceAddress(resourceType, key), rtId + "_<attachment-id>")
  }

  function LinkLines(resourceType: string, rtId: string, rtAttachments: OMap<string, AttachmentInfo>, keys: seq<string>): (r: seq<string>)
    ensures |r| == |keys|
    ensures forall i | 0 <= i < |keys| :: r[i] == LinkLine(resourceType, rtId, rtAttachments, keys[i])
  {
    seq(|keys|, i requires 0 <= i < |keys| => LinkLine(resourceType, rtId, rtAttachments, keys[i]))
  }

  /** The import command of a static route: the id is `{route table id}_{destination}`, the raw CIDR block. */
  function RouteLine(rtId: string, route: RouteEntry): string {
    ImportLine(InstanceAddress(RouteType, route.key), rtId + "_" + route.destination)
  }

  function RouteLines(rtId: string, routes: seq<RouteEntry>): (r: seq<string>)
    ensures |r| == |routes|
    ensures forall i | 0 <= i < |routes| :: r[i] == RouteLine(rtId, routes[i])
  {
    seq(|routes|, i requires 0 <= i < |routes| => RouteLine(rtId, routes[i]))
  }

  /** The import command of the route table itself: its id alone is the import id. */
  function RouteTableImportLine(rtId: string): string {
    ImportLine("aws_ec2_transit_gateway_route_table.this", rtId)
  }

  /** The lines before the association section. */
  function RouteTableIntro(rtId: string, rtName: string): seq<string> {
    ScriptHeader
    + ["echo 'Importing resources for route table: " + rtName + "'", ""]
    + ["# Import Route Table", RouteTableImportLine(rtId), ""]
  }

  /** generate_route_table_import. */
  function RouteTableImportScript(
    rtId: string, rtName: string, rtAttachments: OMap<string, AttachmentInfo>,
    associations: seq<string>, propagations: seq<string>, routes: seq<RouteEntry>): seq<string>
  {
    RouteTableIntro(rtId, rtName)
    + Section(AssociationTitle, LinkLines(AssociationType, rtId, rtAttachments, associations))
    + Section(PropagationTitle, LinkLines(PropagationType, rtId, rtAttachments, propagations))
    + Section(RouteTitle, RouteLines(rtId, routes))
    + ScriptFooter
  }

  /** The keys an import id can be built for. */
  function Resolved(rtAttachments: OMap<string, AttachmentInfo>): string -> bool {
    k => k in Keys(rtAttachments)
  }

  function Unresolved(rtAttachments: OMap<string, AttachmentInfo>): string -> bool {
    k => k !in Keys(rtAttachments)
  }

  /** The resolved keys' lines, which are the commands among the link lines. */
  function ResolvedLinkLines(resourceType: string, rtId: string, rtAttachments: OMap<string, AttachmentInfo>, keys: seq<string>): seq<string> {
    LinkLines(resourceType, rtId, rtAttachments, Filter(keys, Resolved(rtAttachments)))
  }

  lemma LinkLinesCons(resourceType: string, rtId: string, rtAttachments: OMap<string, AttachmentInfo>, keys: seq<string>)
    requires |keys| > 0
    ensures LinkLines(resourceType, rtId, rtAttachments, keys) ==
            [LinkLine(resourceType, rtId, rtAttachments, keys[0])] + LinkLines(resourceType, rtId, rtAttachments, keys[1..])
  {
  }

  lemma {:induction false} LinkLinesSplit(resourceType: string, rtId: string, rtAttachments: OMap<string, AttachmentInfo>, keys: seq<string>)
    ensures Commands(LinkLines(resourceType, rtId, rtAttachments, keys)) == ResolvedLinkLines(resourceType, rtId, rtAttachments, keys)
    ensures |Placeholders(LinkLines(resourceType, rtId, rtAttachments, keys))| == |Filter(keys, Unresolved(rtAttachments))|
    decreases |keys|
  {
    if |keys| > 0 {
      var head := LinkLine(resourceType, rtId, rtAttachments, keys[0]);
      var tail := LinkLines(resourceType, rtId, rtAttachments, keys[1..]);
      LinkLinesSplit(resourceType, rtId, rtAttachments, keys[1..]);
      LinkLinesCons(resourceType, rtId, rtAttachments, keys);
      FilterAppend([head], tail, IsCommand);
      FilterAppend([head], tail, IsPlaceholder);
      assert keys == [keys[0]] + keys[1..];
      FilterAppend([keys[0]], keys[1..], Resolved(rtAttachments));
      FilterAppend([keys[0]], keys[1..], Unresolved(rtAttachments));
      if keys[0] in Keys(rtAttachments) {
        LinkLinesCons(resourceType, rtId, rtAttachments, Filter(keys, Resolved(rtAttachments)));
      }
    }
  }

  lemma {:induction false} RouteLinesAreCommands(rtId: string, routes: seq<RouteEntry>)
    ensures Commands(RouteLines(rtId, routes)) == RouteLines(rtId, routes)
    ensures Placeholders(RouteLines(rtId, routes)) == []
  {
    var lines := RouteLines(rtId, routes);
    forall l | l in lines
      ensures IsCommand(l) && !IsPlaceholder(l)
    {
      var i :| 0 <= i < |lines| && lines[i] == l;
      ImportLineIsCommand(InstanceAddress(RouteType, routes[i].key), rtId + "_" + routes[i].destination);
    }
    FilterAllOrNone(lines, IsCommand);
    FilterAllOrNone(lines, IsPlaceholder);
  }

  lemma RouteTableIntroCommands(rtId: string, rtName: string)
    ensures Commands(RouteTableIntro(rtId, rtName)) == [RouteTableImportLine(rtId)]
    ensures Placeholders(RouteTableIntro(rtId, rtName)) == []
  {
    var echo := ["echo 'Importing resources for route table: " + rtName + "'", ""];
    var table := ["# Import Route Table", RouteTableImportLine(rtId), ""];
    FixedLinesAreNotCommands();
    var lead := "echo 'Importing resources for route table: ";
    assert echo[0] == lead + (rtName + "'");
    assert (lead + (rtName + "'"))[0] == lead[0];
    NotCommandOrPlaceholder(echo[0]);
    NotCommandOrPlaceholder("# Import Route Table");
    ImportLineIsCommand("aws_ec2_transit_gateway_route_table.this", rtId);
    assert !IsCommand("") && !IsPlaceholder("");
    FilterAllOrNone(echo, IsCommand);
    FilterAllOrNone(echo, IsPlaceholder);
    FilterAppend(ScriptHeader + echo, table, IsCommand);
    FilterAppend(ScriptHeader, echo, IsCommand);
    FilterAppend(ScriptHeader + echo, table, IsPlaceholder);
    FilterAppend(ScriptHeader, echo, IsPlaceholder);
    FilterAppend(["# Import Route Table"], [RouteTableImportLine(rtId), ""], IsCommand);
    FilterAppend([RouteTableImportLine(rtId)], [""], IsCommand);
    FilterAllOrNone(table, IsPlaceholder);
  }

  /** The route-table script starts with the shebang and `set -euo pipefail` and ends with the completion message. */
  lemma RouteTableImportScriptFramed(
    rtId: string, rtName: string, rtAttachments: OMap<string, AttachmentInfo>,
    associations: seq<string>, propagations: seq<string>, routes: seq<RouteEntry>)
    ensures Framed(RouteTableImportScript(rtId, rtName, rtAttachments, associations, propagations, routes))
  {
    var script := RouteTableImportScript(rtId, rtName, rtAttachments, associations, propagations, routes);
    assert script[..3] == RouteTableIntro(rtId, rtName)[..3];
  }

  /**
    The import commands of a route-table script are: the table (by its id), one per
    association key that resolves in `rtAttachments`, one per such propagation key,
    then one per static route, in that order; every unresolved association or
    propagation key yields exactly one commented placeholder instead.
   */
  lemma RouteTableImportScriptCommands(
    rtId: string, rtName: string, rtAttachments: OMap<string, AttachmentInfo>,
    associations: seq<string>, propagations: seq<string>, routes: seq<RouteEntry>)
    ensures Commands(RouteTableImportScript(rtId, rtName, rtAttachments, associations, propagations, routes)) ==
              [RouteTableImportLine(rtId)]
              + ResolvedLinkLines(AssociationType, rtId, rtAttachments, associations)
              + ResolvedLinkLines(PropagationType, rtId, rtAttachments, propagations)
              + RouteLines(rtId, routes)
    ensures |Placeholders(RouteTableImportScript(rtId, rtName, rtAttachments, associations, propagations, routes))| ==
              |Filter(associations, Unresolved(rtAttachments))| + |Filter(propagations, Unresolved(rtAttachments))|
  {
    var a := LinkLines(AssociationType, rtId, rtAttachments, associations);
    var p := LinkLines(PropagationType, rtId, rtAttachments, propagations);
    var r := RouteLines(rtId, routes);
    var s1 := Section(AssociationTitle, a);
    var s2 := Section(PropagationTitle, p);
    var s3 := Section(RouteTitle, r);
    var intro := RouteTableIntro(rtId, rtName);
    RouteTableIntroCommands(rtId, rtName);
    FixedLinesAreNotCommands();
    NotCommandOrPlaceholder(AssociationTitle);
    NotCommandOrPlaceholder(PropagationTitle);
    NotCommandOrPlaceholder(RouteTitle);
    SectionCommands(AssociationTitle, a);
    SectionCommands(PropagationTitle, p);
    SectionCommands(RouteTitle, r);
    LinkLinesSplit(AssociationType, rtId, rtAttachments, associations);
    LinkLinesSplit(PropagationType, rtId, rtAttachments, propagations);
    RouteLinesAreCommands(rtId, routes);
    FilterParts(intro, s1, s2, s3, ScriptFooter, IsCommand);
    FilterParts(intro, s1, s2, s3, ScriptFooter, IsPlaceholder);
  }

  /** Every line is an import command, live or commented out. */
  predicate AllImportLines(lines: seq<string>) {
    forall l | l in lines :: IsCommand(l) || IsPlaceholder(l)
  }

  /** A line that is neither a command nor a placeholder occurs in a section exactly when it is the title of a non-empty one. */
  lemma SectionTitle(title: string, body: seq<string>, line: string)
    requires AllImportLines(body)
    requires !IsCommand(line) && !IsPlaceholder(line) && line != ""
    ensures line in Section(title, body) <==> |body| > 0 && line == title
  {
  }

  lemma RouteTableBodies(rtId: string, rtAttachments: OMap<string, AttachmentInfo>,
                         associations: seq<string>, propagations: seq<string>, routes: seq<RouteEntry>)
    ensures AllImportLines(LinkLines(AssociationType, rtId, rtAttachments, associations))
    ensures AllImportLines(LinkLines(PropagationType, rtId, rtAttachments, propagations))
    ensures AllImportLines(RouteLines(rtId, routes))
  {
    RouteLinesAreCommands(rtId, routes);
    forall l | l in RouteLines(rtId, routes)
      ensures IsCommand(l)
    {
      FilterMembers(RouteLines(rtId, routes), IsCommand, l);
    }
  }

  /** A section's title line is present exactly when its list is non-empty. */
  lemma RouteTableSections(
    rtId: string, rtName: string, rtAttachments: OMap<string, AttachmentInfo>,
    associations: seq<string>, propagations: seq<string>, routes: seq<RouteEntry>)
    ensures var script := RouteTableImportScript(rtId, rtName, rtAttachments, associations, propagations, routes);
            && (AssociationTitle in script <==> |associations| > 0)
            && (PropagationTitle in script <==> |propagations| > 0)
            && (RouteTitle in script <==> |routes| > 0)
  {
    var a := LinkLines(AssociationType, rtId, rtAttachments, associations);
    var p := LinkLines(PropagationType, rtId, rtAttachments, propagations);
    var r := RouteLines(rtId, routes);
    var intro := RouteTableIntro(rtId, rtName);
    RouteTableBodies(rtId, rtAttachments, associations, propagations, routes);
    NotCommandOrPlaceholder(AssociationTitle);
    NotCommandOrPlaceholder(PropagationTitle);
    NotCommandOrPlaceholder(RouteTitle);
    var titles := [AssociationTitle, PropagationTitle, RouteTitle];
    forall t | t in titles
      ensures t !in intro && t !in ScriptFooter
    {
    }
    SectionTitle(AssociationTitle, a, AssociationTitle);
    SectionTitle(AssociationTitle, a, PropagationTitle);
    SectionTitle(AssociationTitle, a, RouteTitle);
    SectionTitle(PropagationTitle, p, AssociationTitle);
    SectionTitle(PropagationTitle, p, PropagationTitle);
    SectionTitle(PropagationTitle, p, RouteTitle);
    SectionTitle(RouteTitle, r, AssociationTitle);
    SectionTitle(RouteTitle, r, PropagationTitle);
    SectionTitle(RouteTitle, r, RouteTitle);
  }

  // ---------------------------------------------------------------------------
  // Resolution (generate_all_imports)
  // ---------------------------------------------------------------------------

  /** The key a link contributes: its attachment's key, when it is in `state` and its attachment is known. */
  function LinkedKey(link: Link, state: string, all: OMap<string, AttachmentInfo>): Option<string> {
    if link.state == state && link.attachmentId.Some? && link.attachmentId.value in Keys(all)
    then Some(Get(all, link.attachmentId.value).value.key)
    else None
  }

  /**
    The keys of the associations (state `associated`) or propagations (state
    `enabled`) of a route table, in file order; links in another state and links to
    attachments outside `all` are skipped.
   */
  function LinkKeys(links: seq<Link>, state: string, all: OMap<string, AttachmentInfo>): (r: seq<string>)
    ensures |r| <= |links|
    ensures forall k | k in r :: exists e | e in all :: e.1.key == k
    decreases |links|
  {
    if |links| == 0 then []
    else
      var rest := LinkKeys(links[1..], state, all);
      match LinkedKey(links[0], state, all)
      case Some(k) => [k] + rest
      case None => rest
  }

  /** A key is listed exactly when some link in `state` points at a known attachment with that key. */
  lemma {:induction false} LinkKeysMembers(links: seq<Link>, state: string, all: OMap<string, AttachmentInfo>, k: string)
    ensures k in LinkKeys(links, state, all) <==> exists i | 0 <= i < |links| :: LinkedKey(links[i], state, all) == Some(k)
    decreases |links|
  {
    if |links| > 0 {
      LinkKeysMembers(links[1..], state, all, k);
      if exists i | 0 < i < |links| :: LinkedKey(links[i], state, all) == Some(k) {
        var i :| 0 < i < |links| && LinkedKey(links[i], state, all) == Some(k);
        assert links[1..][i - 1] == links[i];
      }
      if exists i | 0 <= i < |links| - 1 :: LinkedKey(links[1..][i], state, all) == Some(k) {
        var i :| 0 <= i < |links| - 1 && LinkedKey(links[1..][i], state, all) == Some(k);
        assert links[1..][i] == links[i + 1];
      }
    }
  }

  /** The entry at index `i` is the first one in `all` whose record carries `key`. */
  predicate IsFirstKeyed(all: OMap<string, AttachmentInfo>, key: string, i: int) {
    0 <= i < |all| && all[i].1.key == key &&
    forall j | 0 <= j < i :: all[j].1.key != key
  }

  /** The inner `for att_id, att in all_attachments.items()` loop with its `break`: the first record with `key`. */
  function FirstWithKey(all: OMap<string, AttachmentInfo>, key: string): (r: Option<AttachmentInfo>)
    ensures r.None? <==> forall i | 0 <= i < |all| :: all[i].1.key != key
    ensures forall i | IsFirstKeyed(all, key, i) :: r == Some(all[i].1)
    decreases |all|
  {
    if |all| == 0 then None
    else if all[0].1.key == key then Some(all[0].1)
    else
      var r := FirstWithKey(all[1..], key);
      assert forall i | IsFirstKeyed(all, key, i) :: i > 0 && IsFirstKeyed(all[1..], key, i - 1);
      assert forall i | 0 < i < |all| :: all[i] == all[1..][i - 1];
      r
  }

  /**
    One of the two loops that fill `rt_attachments`: each key gets the first record
    with that key; with `onlyNew`, a key already present is left as it is.
   */
  function AddFirstMatches(m: OMap<string, AttachmentInfo>, keys: seq<string>, all: OMap<string, AttachmentInfo>, onlyNew: bool): OMap<string, AttachmentInfo>
    decreases |keys|
  {
    if |keys| == 0 then m
    else
      var k := keys[0];
      var next := match FirstWithKey(all, k)
        case Some(att) => if onlyNew && k in Keys(m) then m else Put(m, k, att)
        case None => m;
      AddFirstMatches(next, keys[1..], all, onlyNew)
  }

  /** The attachments a route table's script can resolve: associations first, then propagations not already present. */
  function RouteTableAttachments(all: OMap<string, AttachmentInfo>, associations: seq<string>, propagations: seq<string>): OMap<string, AttachmentInfo> {
    AddFirstMatches(AddFirstMatches([], associations, all, false), propagations, all, true)
  }

  /** Every key of `m` holds the first record of `all` with that key. */
  predicate AgreesWithFirst(m: OMap<string, AttachmentInfo>, all: OMap<string, AttachmentInfo>) {
    forall k | k in Keys(m) :: Get(m, k) == FirstWithKey(all, k)
  }

  lemma {:induction false} AddFirstMatchesSpec(m: OMap<string, AttachmentInfo>, keys: seq<string>, all: OMap<string, AttachmentInfo>, onlyNew: bool, k: string)
    requires AgreesWithFirst(m, all) && Distinct(Keys(m))
    ensures AgreesWithFirst(AddFirstMatches(m, keys, all, onlyNew), all)
    ensures Distinct(Keys(AddFirstMatches(m, keys, all, onlyNew)))
    ensures Get(AddFirstMatches(m, keys, all, onlyNew), k) == if k in keys then FirstWithKey(all, k) else Get(m, k)
    decreases |keys|
  {
    if |keys| > 0 {
      var k0 := keys[0];
      var next := match FirstWithKey(all, k0)
        case Some(att) => if onlyNew && k0 in Keys(m) then m else Put(m, k0, att)
        case None => m;
      assert AddFirstMatches(m, keys, all, onlyNew) == AddFirstMatches(next, keys[1..], all, onlyNew);
      if next != m {
        PutDistinct(m, k0, FirstWithKey(all, k0).value);
      }
      assert AgreesWithFirst(next, all);
      assert Get(next, k0) == FirstWithKey(all, k0);
      AddFirstMatchesSpec(next, keys[1..], all, onlyNew, k);
      assert keys == [k0] + keys[1..];
    }
  }

  /**
    A route table's attachment map holds exactly the keys of its associations and
    propagations that some collected attachment carries, each once, and each with
    the first collected record carrying it, whichever loop added it.
   */
  lemma RouteTableAttachmentsSpec(all: OMap<string, AttachmentInfo>, associations: seq<string>, propagations: seq<string>, k: string)
    ensures Distinct(Keys(RouteTableAttachments(all, associations, propagations)))
    ensures Get(RouteTableAttachments(all, associations, propagations), k) ==
            if k in associations || k in propagations then FirstWithKey(all, k) else None
  {
    var m := AddFirstMatches([], associations, all, false);
    AddFirstMatchesSpec([], associations, all, false, k);
    AddFirstMatchesSpec(m, propagations, all, true, k);
  }

  /** A route that gets an import command: a static route with a destination CIDR block. */
  predicate IsImportedRoute(route: TgwRoute) {
    route.routeType == "static" && route.destination != ""
  }

  function RouteEntryOf(route: TgwRoute): RouteEntry {
    RouteEntry("route_" + DestinationKey(route.destination), route.destination)
  }

  /** The static routes of a route table, in file order, keyed by their rewritten destination. */
  function StaticRoutes(routes: seq<TgwRoute>): (r: seq<RouteEntry>)
    ensures |r| <= |routes|
    ensures forall e | e in r :: e.destination != "" && e.key == "route_" + DestinationKey(e.destination)
    decreases |routes|
  {
    if |routes| == 0 then []
    else (if IsImportedRoute(routes[0]) then [RouteEntryOf(routes[0])] else []) + StaticRoutes(routes[1..])
  }

  /** The listed routes are exactly the entries of the static routes with a destination. */
  lemma {:induction false} StaticRoutesMembers(routes: seq<TgwRoute>, e: RouteEntry)
    ensures e in StaticRoutes(routes) <==> exists i | 0 <= i < |routes| :: IsImportedRoute(routes[i]) && RouteEntryOf(routes[i]) == e
    decreases |routes|
  {
    if |routes| > 0 {
      StaticRoutesMembers(routes[1..], e);
      if exists i | 0 < i < |routes| :: IsImportedRoute(routes[i]) && RouteEntryOf(routes[i]) == e {
        var i :| 0 < i < |routes| && IsImportedRoute(routes[i]) && RouteEntryOf(routes[i]) == e;
        assert routes[1..][i - 1] == routes[i];
      }
      if exists i | 0 <= i < |routes| - 1 :: IsImportedRoute(routes[1..][i]) && RouteEntryOf(routes[1..][i]) == e {
        var i :| 0 <= i < |routes| - 1 && IsImportedRoute(routes[1..][i]) && RouteEntryOf(routes[1..][i]) == e;
        assert routes[1..][i] == routes[i + 1];
      }
    }
  }

  /** An output file: the directory it is written to and its lines. */
  datatype ScriptFile = ScriptFile(directory: string, lines: seq<string>)

  /** The scripts of one gateway: its own and one per route table of it, in file order. */
  datatype GatewayScripts = GatewayScripts(gateway: ScriptFile, routeTables: seq<ScriptFile>)

  /** The gateway's directory name: the sanitized `Name` tag, or the id itself when the gateway has no name. */
  function GatewayDirname(tgw: TransitGateway): string {
    var name := GetTagValue(tgw.tags, "Name", tgw.id);
    if name != tgw.id then SanitizeDirname(name) else tgw.id
  }

  /** The import script of one route table of a gateway whose attachments are `all`. */
  function RouteTableImport(cat: Catalog, gatewayDirname: string, all: OMap<string, AttachmentInfo>, rt: TgwRouteTable): ScriptFile {
    var rtName := GetTagValue(rt.tags, "Name", rt.id);
    var associations := LinkKeys(FileOf(cat.associations, rt.id), "associated", all);
    var propagations := LinkKeys(FileOf(cat.propagations, rt.id), "enabled", all);
    ScriptFile(
      gatewayDirname + "-rt-" + SanitizeDirname(rtName),
      RouteTableImportScript(rt.id, rtName, RouteTableAttachments(all, associations, propagations),
                             associations, propagations, StaticRoutes(FileOf(cat.routes, rt.id))))
  }

  /** The route tables of the gateway with id `gatewayId`, in file order. */
  function RouteTablesOf(tables: seq<TgwRouteTable>, gatewayId: string): seq<TgwRouteTable> {
    Filter(tables, (rt: TgwRouteTable) => rt.gatewayId == Some(gatewayId))
  }

  /** One iteration of the gateway loop: the gateway's script in `tgw-{dirname}`, then its route tables' scripts. */
  function GatewayImport(cat: Catalog, tgw: TransitGateway): (r: GatewayScripts)
    ensures r.gateway.directory == "tgw-" + GatewayDirname(tgw)
    ensures |r.routeTables| == |RouteTablesOf(cat.tgwRouteTables, tgw.id)|
  {
    var dirname := GatewayDirname(tgw);
    var all := CollectAllAttachments(cat.attachments, Some(tgw.id));
    var tables := RouteTablesOf(cat.tgwRouteTables, tgw.id);
    GatewayScripts(
      ScriptFile("tgw-" + dirname, GatewayImportScript(tgw, cat.attachments)),
      seq(|tables|, i requires 0 <= i < |tables| => RouteTableImport(cat, dirname, all, tables[i])))
  }

  /** generate_all_imports: an error when there is no gateway, otherwise one set of scripts per gateway, in file order. */
  function GenerateAllImports(cat: Catalog): (r: Result<seq<GatewayScripts>>)
    ensures r.Err? <==> |cat.gateways| == 0
    ensures r.Ok? ==> |r.value| == |cat.gateways|
    ensures r.Ok? ==> forall i | 0 <= i < |cat.gateways| :: r.value[i].gateway.directory == "tgw-" + GatewayDirname(cat.gateways[i])
  {
    if |cat.gateways| == 0 then Err("No Transit Gateway found")
    else Ok(seq(|cat.gateways|, i requires 0 <= i < |cat.gateways| => GatewayImport(cat, cat.gateways[i])))
  }

  /**
    A gateway gets one route-table script for each route table whose
    `TransitGatewayId` is the gateway's id, and for no other.
   */
  lemma GatewayRouteTables(cat: Catalog, tgw: TransitGateway)
    ensures var dirname := GatewayDirname(tgw);
            var all := CollectAllAttachments(cat.attachments, Some(tgw.id));
            && (forall rt | rt in cat.tgwRouteTables && rt.gatewayId == Some(tgw.id) ::
                  RouteTableImport(cat, dirname, all, rt) in GatewayImport(cat, tgw).routeTables)
            && (forall f | f in GatewayImport(cat, tgw).routeTables ::
                  exists rt | rt in cat.tgwRouteTables && rt.gatewayId == Some(tgw.id) :: f == RouteTableImport(cat, dirname, all, rt))
  {
    var dirname := GatewayDirname(tgw);
    var all := CollectAllAttachments(cat.attachments, Some(tgw.id));
    var tables := RouteTablesOf(cat.tgwRouteTables, tgw.id);
    var files := GatewayImport(cat, tgw).routeTables;
    forall rt | rt in cat.tgwRouteTables && rt.gatewayId == Some(tgw.id)
      ensures RouteTableImport(cat, dirname, all, rt) in files
    {
      FilterMembers(cat.tgwRouteTables, (rt: TgwRouteTable) => rt.gatewayId == Some(tgw.id), rt);
      var i :| 0 <= i < |tables| && tables[i] == rt;
      assert files[i] == RouteTableImport(cat, dirname, all, rt);
    }
    forall f | f in files
      ensures exists rt | rt in cat.tgwRouteTables && rt.gatewayId == Some(tgw.id) :: f == RouteTableImport(cat, dirname, all, rt)
    {
      var i :| 0 <= i < |files| && files[i] == f;
      FilterMembers(cat.tgwRouteTables, (rt: TgwRouteTable) => rt.gatewayId == Some(tgw.id), tables[i]);
    }
  }

  /**
    Every association and propagation key the resolver lists belongs to a collected
    attachment, so a generated route-table script has no commented-out placeholder.
   */
  lemma ResolvedScriptHasNoPlaceholders(cat: Catalog, gatewayDirname: string, all: OMap<string, AttachmentInfo>, rt: TgwRouteTable)
    ensures Placeholders(RouteTableImport(cat, gatewayDirname, all, rt).lines) == []
  {
    var rtName := GetTagValue(rt.tags, "Name", rt.id);
    var associations := LinkKeys(FileOf(cat.associations, rt.id), "associated", all);
    var propagations := LinkKeys(FileOf(cat.propagations, rt.id), "enabled", all);
    var rtAtts := RouteTableAttachments(all, associations, propagations);
    forall k | k in associations + propagations
      ensures k in Keys(rtAtts)
    {
      RouteTableAttachmentsSpec(all, associations, propagations, k);
      var e :| e in all && e.1.key == k;
      var i :| 0 <= i < |all| && all[i] == e;
    }
    FilterAllOrNone(associations, Unresolved(rtAtts));
    FilterAllOrNone(propagations, Unresolved(rtAtts));
    RouteTableImportScriptCommands(rt.id, rtName, rtAtts, associations, propagations, StaticRoutes(FileOf(cat.routes, rt.id)));
  }

  /** Every record is filed under its own attachment id, as collect_all_attachments files them. */
  predicate FiledById(all: OMap<string, AttachmentInfo>) {
    forall e | e in all :: e.1.attachmentId == e.0
  }

  /** No two collected attachments share a key (no two share a sanitized name). */
  predicate UniqueKeys(all: OMap<string, AttachmentInfo>) {
    forall i, j | 0 <= i < j < |all| :: all[i].1.key != all[j].1.key
  }

  /**
    When no two attachments share a key, the association or propagation command of
    a listed attachment imports `{route table id}_{that attachment's id}`.
   */
  lemma ResolvedImportId(all: OMap<string, AttachmentInfo>, associations: seq<string>, propagations: seq<string>,
                         resourceType: string, rtId: string, i: int)
    requires UniqueKeys(all)
    requires 0 <= i < |all| && all[i].1.key in associations + propagations
    ensures LinkLine(resourceType, rtId, RouteTableAttachments(all, associations, propagations), all[i].1.key) ==
            ImportLine(InstanceAddress(resourceType, all[i].1.key), rtId + "_" + all[i].1.attachmentId)
  {
    assert IsFirstKeyed(all, all[i].1.key, i);
    RouteTableAttachmentsSpec(all, associations, propagations, all[i].1.key);
  }

  /**
    When two attachments share a key, a link to the later one is imported with the
    earlier one's id: the resolver keeps the first record with the key.
   */
  lemma SharedKeyImportsFirst(all: OMap<string, AttachmentInfo>, associations: seq<string>, propagations: seq<string>,
                              resourceType: string, rtId: string, i: int, j: int)
    requires FiledById(all) && Distinct(Keys(all))
    requires 0 <= i < j < |all| && IsFirstKeyed(all, all[j].1.key, i)
    requires all[j].1.key in associations + propagations
    ensures var key := all[j].1.key;
            LinkLine(resourceType, rtId, RouteTableAttachments(all, associations, propagations), key) ==
            ImportLine(InstanceAddress(resourceType, key), rtId + "_" + all[i].0)
    ensures all[i].0 != all[j].0
  {
    RouteTableAttachmentsSpec(all, associations, propagations, all[j].1.key);
    assert Keys(all)[i] == all[i].0 && Keys(all)[j] == all[j].0;
  }

  /** A path setting is given when it is present and non-empty (truthy). */
  predicate Given(v: Option<string>) {
    v.Some? && v.value != ""
  }

  /**
    The account and region fallback of `main`: a missing setting is taken from the
    last two components of the input path, the region when that component is
    non-empty and the account only when it is all digits.
   */
  function AutoDetect(account: Option<string>, region: Option<string>, parts: seq<string>): (r: (Option<string>, Option<string>))
    ensures Given(account) ==> r.0 == account
    ensures Given(region) ==> r.1 == region
    ensures !Given(region) ==> r.1 == if |parts| >= 2 && parts[|parts| - 1] != "" then Some(parts[|parts| - 1]) else region
    ensures !Given(account) ==> r.0 == if |parts| >= 2 && IsDigits(parts[|parts| - 2]) then Some(parts[|parts| - 2]) else account
  {
    if Given(account) && Given(region) then (account, region)
    else if |parts| >= 2 then
      var potentialRegion := parts[|parts| - 1];
      var potentialAccount := parts[|parts| - 2];
      var region' := if !Given(region) && potentialRegion != "" then Some(potentialRegion) else region;
      var account' := if !Given(account) && potentialAccount != "" && IsDigits(potentialAccount) then Some(potentialAccount) else account;
      (account', region')
    else (account, region)
  }
}
