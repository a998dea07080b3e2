/**
  The AWS resource descriptions the generators read, already parsed from JSON.

  A field read with `.get(key, '')` is a plain string, the empty string standing for
  a missing field; a field whose absence behaves differently from an empty string is
  an `Option`. A per-resource detail file is an entry of a map keyed by resource id:
  a missing file and a file without the expected list both read as the empty list.
 */
module Inventory {
  import opened Wrappers
  import opened Tags

  /** A JSON object of scalar fields in document order, each value rendered as text (an `Options` block, a route target). */
  type Fields = seq<(string, string)>

  /** `obj.get(key, default)` on such an object (its keys are distinct, so the first match is the match). */
  function Field(obj: Fields, key: string, default: string): string
    decreases |obj|
  {
    if |obj| == 0 then default
    else if obj[0].0 == key then obj[0].1
    else Field(obj[1..], key, default)
  }

  /** `obj.get(key)` on such an object. */
  function FieldOpt(obj: Fields, key: string): Option<string>
    decreases |obj|
  {
    if |obj| == 0 then None
    else if obj[0].0 == key then Some(obj[0].1)
    else FieldOpt(obj[1..], key)
  }

  /** An entry of `transit-gateways.json`. */
  datatype TransitGateway = TransitGateway(
    id: string,
    description: string,
    tags: seq<Tag>,
    options: Fields)

  /** An entry of `tgw-route-tables.json`. */
  datatype TgwRouteTable = TgwRouteTable(
    id: string,
    gatewayId: Option<string>,
    tags: seq<Tag>)

  /** An entry of `tgw-attachments.json`; `resourceType` is `vpc`, `peering`, `vpn`, `direct-connect-gateway`, ... */
  datatype Attachment = Attachment(
    id: string,
    gatewayId: Option<string>,
    resourceType: string,
    resourceId: string,
    tags: seq<Tag>,
    options: Fields,
    subnetIds: seq<string>)

  /** An association (`tgw-rt-associations-{id}.json`) or a propagation (`tgw-rt-propagations-{id}.json`). */
  datatype Link = Link(attachmentId: Option<string>, state: string)

  /**
    An entry of `tgw-rt-routes-{id}.json`; `targets` is its `TransitGatewayAttachments`
    list, each element a JSON object.
   */
  datatype TgwRoute = TgwRoute(
    destination: string,
    routeType: string,
    state: string,
    targets: Option<seq<Fields>>)

  /** A route of a VPC route table (`route-tables.json`). */
  datatype VpcRoute = VpcRoute(
    gatewayId: Option<string>,
    destinationCidr: Option<string>,
    destinationIpv6: Option<string>)

  /** An entry of `route-tables.json`. */
  datatype VpcRouteTable = VpcRouteTable(
    id: string,
    tags: seq<Tag>,
    routes: seq<VpcRoute>)

  /** An element of `tgw-vpc-attachment-{id}.json`. */
  datatype VpcAttachmentDetail = VpcAttachmentDetail(subnetIds: seq<string>)

  /** An element of `tgw-peering-attachment-{id}.json`: the accepter side's gateway, region and owner. */
  datatype PeeringDetail = PeeringDetail(
    accepterGatewayId: string,
    accepterRegion: string,
    accepterOwnerId: string)

  /** Everything one run reads from its input directory. */
  datatype Catalog = Catalog(
    gateways: seq<TransitGateway>,
    tgwRouteTables: seq<TgwRouteTable>,
    attachments: seq<Attachment>,
    vpcRouteTables: seq<VpcRouteTable>,
    associations: map<string, seq<Link>>,
    propagations: map<string, seq<Link>>,
    routes: map<string, seq<TgwRoute>>,
    vpcAttachmentDetails: map<string, seq<VpcAttachmentDetail>>,
    peeringDetails: map<string, seq<PeeringDetail>>)

  /** The list in the detail file of resource `id`, or the empty list when there is no such file. */
  function FileOf<T>(files: map<string, seq<T>>, id: string): seq<T> {
    if id in files then files[id] else []
  }
}
