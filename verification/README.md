# Transit Gateway importer: a Dafny model

The repository turns an inventory of AWS Transit Gateway resources into Terraform. The inventory is JSON files written by the AWS CLI:
- gateways
- their route tables, attachments, associations, propagations and routes
- VPC route tables

Three generators read it:

- `scripts/generate_import_commands.py` writes import scripts as shell files. There is one `import.sh` per gateway, holding the gateway and its VPC and peering attachments. There is one per route table of that gateway, holding the table, its associations, propagations and static routes. Association and propagation commands are built from an attachment map resolved by key. A key that does not resolve gets a commented-out placeholder command.
- `scripts/generate_terraform_config.py` writes one `terraform.tfvars`. It holds the settings of the first gateway, then one map variable per resource kind. Each map variable is keyed by sanitized names. Optional attributes are printed only when they differ from the module's defaults.
- `scripts/generate_terraform.py` writes plain `resource` blocks:
  - gateways
  - route tables and VPC attachments whose parent gateway was generated
  - associations, propagations and routes that refer to the generated resources by name

The model is pure functions over immutable data:

| module | contents |
|---|---|
| `Inventory` | the parsed JSON records |
| `Tags` | `get_tag_value`, `tags_to_map` |
| `Sanitize` | the name sanitizers |
| `OrderedMap` | Python dicts as insertion-ordered association lists, and a dict built by a loop that assigns keys in turn |
| `Seqs` | filtering |
| `ImportCommands` | the import scripts, as sequences of lines |
| `TerraformConfig` | the tfvars document: key maps, entries, printed attributes |
| `TerraformResources` | the resources of `generate_terraform.py` and the names they refer to |

Reading the inventory is modelled as follows:
- **Absent fields.** A field read with `.get(key, '')` is a string, with the empty string for an absent field. A field whose absence behaves differently is an `Option`.
- **Detail files.** A per-resource detail file is an entry of a map keyed by resource id. A missing file reads as the empty list.
- **Python truthiness.** It is written out: an empty string, an empty list and an absent value all count as false.

## Model

| member | source | states |
|---|---|---|
| Tags.GetTagValue | scripts/generate_import_commands.py:41-48 | Without a tag carrying the key, the default is returned. Otherwise the first tag carrying the key decides: its value, or the default when that tag has no value. |
| Tags.TagsToMapSpec | scripts/generate_terraform_config.py:42-46 | The map has exactly the keys of tags that have both a key and a value, each key once. When a key repeats, the later tag's value wins. |
| Tags.TagLookupsAgree | scripts/generate_terraform_config.py:33-46 | When at most one tag carries a key, `get_tag_value` and a lookup in `tags_to_map` give the same result. |
| Sanitize.SanitizeKey | scripts/generate_terraform_config.py:48-50 | The result has the same length. Each `-` and space becomes `_` and every other character is lower-cased, so the result has no `-` or space and is lower case. |
| Sanitize.SanitizeKeyColon | scripts/generate_import_commands.py:50-52 | As above, with `:` also replaced by `_`. |
| Sanitize.SanitizeKeyIdempotent | scripts/generate_import_commands.py:50-52 | Sanitizing a sanitized key changes nothing, for both key sanitizers. |
| Sanitize.SanitizeKeyFixedPoints | scripts/generate_terraform_config.py:48-50 | A name is its own key exactly when it is lower case and has no `-` or space. |
| Sanitize.SanitizeKeyVariants | scripts/generate_import_commands.py:50-52 | The import generator's key is the tfvars key of the name with `:` replaced by `_`. The two keys agree exactly when the name has no `:`. |
| Sanitize.SanitizeDirname | scripts/generate_import_commands.py:61-63 | It removes one leading `tgw-rt-` in any letter case. Then spaces and underscores become `-`, and the rest is lower-cased, character by character. |
| Sanitize.SanitizeDirnameStripsPrefix | scripts/generate_import_commands.py:57-63 | `tgw-rt-production` becomes `production`. |
| Sanitize.SanitizeDirnameIgnoresCase | scripts/generate_import_commands.py:59-63 | `TGW-RT-Shared` becomes `shared`. |
| Sanitize.SanitizeDirnameSeparators | scripts/generate_import_commands.py:63 | `Core Network_A` becomes `core-network-a`. |
| Sanitize.SanitizeDirnameStripsOnce | scripts/generate_import_commands.py:62 | Only one prefix is removed: `tgw-rt-tgw-rt-x` becomes `tgw-rt-x`. |
| Sanitize.SanitizeDirnameNotIdempotent | scripts/generate_import_commands.py:62-63 | Some name gives a different directory when sanitized twice. |
| Sanitize.SanitizeDirnameStable | scripts/generate_import_commands.py:62-63 | When a sanitized name has no `tgw-rt-` prefix left, sanitizing it again changes nothing. |
| Sanitize.DestinationKey | scripts/generate_import_commands.py:308 | The result has the same length. `/`, `.` and `:` become `_`, other characters are kept, and there is no lower-casing. |
| Sanitize.DestinationKeyKeepColon | scripts/generate_terraform_config.py:386 | Only `/` and `.` become `_`. The result has a `:` exactly when the destination has one. |
| Sanitize.DestinationKeysAgree | scripts/generate_terraform_config.py:442 | The VPC-route rewrite and the TGW-route rewrite of line 386 agree exactly on destinations without `:`. |
| Sanitize.DestinationKeyExamples | scripts/generate_import_commands.py:308-309 | `10.0.0.0/16` becomes `10_0_0_0_16` and `2001:db8::/32` becomes `2001_db8___32`. The TGW-route rewrite keeps the colons: `2001:db8::_32`. |
| ImportCommands.CollectAllAttachmentsKeys | scripts/generate_import_commands.py:106-133 | The collected map has one entry per id of a selected attachment and no other. With no gateway id, or an empty one, every attachment is selected. |
| ImportCommands.CollectAllAttachmentsLast | scripts/generate_import_commands.py:116-131 | An id shared by several selected attachments holds the record of the last of them. |
| ImportCommands.CollectAllAttachmentsEntries | scripts/generate_import_commands.py:120-131 | A record is filed under its own attachment id. Its key is its sanitized name, where the name is the `Name` tag or else the id. |
| ImportCommands.CollectedBelongToSelection | scripts/generate_import_commands.py:117-118 | With a gateway selected, every collected record describes an attachment of that gateway. |
| ImportCommands.GatewayImportScriptFramed | scripts/generate_import_commands.py:77-102 | The gateway script starts with the shebang and `set -euo pipefail` and ends with the completion message. |
| ImportCommands.GatewayImportScriptCommands | scripts/generate_import_commands.py:65-104 | The import commands of the gateway script are, in order: the gateway by its id, then one per VPC attachment of that gateway, then one per peering attachment, each under its sanitized key and imported by its attachment id. |
| ImportCommands.GatewayImportScriptNoPlaceholders | scripts/generate_import_commands.py:65-104 | The gateway script has no commented-out commands. |
| ImportCommands.LinkLine | scripts/generate_import_commands.py:160-169 | The line for an association or propagation key is a live import command exactly when the key resolves. Otherwise it is a commented-out placeholder. |
| ImportCommands.RouteTableImportScriptFramed | scripts/generate_import_commands.py:141-194 | A route-table script starts with the shebang and `set -euo pipefail` and ends with the completion message. |
| ImportCommands.RouteTableImportScriptCommands | scripts/generate_import_commands.py:135-196 | The commands are, in order: the table, each association key that resolves, each propagation key that resolves, then each static route. There is one placeholder per association or propagation key that does not resolve. |
| ImportCommands.RouteTableSections | scripts/generate_import_commands.py:160-191 | The title of the association, propagation and route sections appears exactly when its list is non-empty. |
| ImportCommands.LinkKeys | scripts/generate_import_commands.py:251-276 | No more keys than links, and every listed key is the key of a collected attachment. |
| ImportCommands.LinkKeysMembers | scripts/generate_import_commands.py:251-262 | A key is listed exactly when some link in the wanted state points at a collected attachment with that key. |
| ImportCommands.FirstWithKey | scripts/generate_import_commands.py:282-286 | The search finds nothing exactly when no record carries the key. Otherwise it returns the first record that does. |
| ImportCommands.AddFirstMatchesSpec | scripts/generate_import_commands.py:279-293 | Each loop leaves every key with the first record carrying it and keeps keys distinct. It touches only the keys it was given. |
| ImportCommands.RouteTableAttachmentsSpec | scripts/generate_import_commands.py:279-293 | `rt_attachments` maps each association or propagation key to the first collected record with that key, and holds no other key. |
| ImportCommands.StaticRoutes | scripts/generate_import_commands.py:296-314 | Every listed route has a destination and the key `route_` plus its rewritten destination. |
| ImportCommands.StaticRoutesMembers | scripts/generate_import_commands.py:301-314 | A route is listed exactly when it is static and has a destination. |
| ImportCommands.GatewayImport | scripts/generate_import_commands.py:211-247 | The gateway script goes to `tgw-{dirname}`. There is one route-table script per route table of the gateway. |
| ImportCommands.GenerateAllImports | scripts/generate_import_commands.py:198-216 | It fails exactly when there is no gateway. Otherwise there is one set of scripts per gateway, in file order, each in its own directory. |
| ImportCommands.GatewayRouteTables | scripts/generate_import_commands.py:229-241 | A gateway gets a route-table script for each table whose `TransitGatewayId` is its id, and for no other table. |
| ImportCommands.ResolvedScriptHasNoPlaceholders | scripts/generate_import_commands.py:251-319 | A generated route-table script never holds a placeholder: every listed key resolves. |
| ImportCommands.ResolvedImportId | scripts/generate_import_commands.py:279-293 | When keys are unique, an attachment's association or propagation is imported as `{route table id}_{its own id}`. |
| ImportCommands.SharedKeyImportsFirst | scripts/generate_import_commands.py:279-293 | When two attachments share a key, a link to the later one is imported with the earlier one's id. |
| ImportCommands.AutoDetect | scripts/generate_import_commands.py:370-386 | A given account or region is kept. A missing region is taken from the last path component when that is non-empty. A missing account is taken from the one before it, only when that is all digits. |
| TerraformConfig.RouteTableKeysMembers | scripts/generate_terraform_config.py:131-137 | `rt_id_to_key` maps every route-table id of the file, once, and no other id. |
| TerraformConfig.RouteTableKeysLast | scripts/generate_terraform_config.py:133-137 | An id shared by several tables maps to the key of the last of them. |
| TerraformConfig.RouteTableConfigsKeyed | scripts/generate_terraform_config.py:130-142 | `route_tables` has each key once, and each entry is keyed by the sanitized name it records. |
| TerraformConfig.AttachmentKeysMembers | scripts/generate_terraform_config.py:164-232 | `attachment_id_to_key` holds exactly the ids of VPC and peering attachments, each once. Peering attachments are registered whether or not their entry is printed. |
| TerraformConfig.AttachmentKeysEntry | scripts/generate_terraform_config.py:166-232 | Every registered id maps to the key and type of a VPC or peering attachment with that id. |
| TerraformConfig.VpcAttachmentConfigsMembers | scripts/generate_terraform_config.py:163-195 | `vpc_attachments` has a key exactly for the sanitized names of the attachments of type `vpc`. |
| TerraformConfig.PeeringConfigsMembers | scripts/generate_terraform_config.py:224-257 | `peering_attachments` has a key exactly for the peering attachments whose accepter gateway and region are both known. |
| TerraformConfig.PeeringConfigsEntry | scripts/generate_terraform_config.py:235-257 | A peering entry always names the accepter gateway and region, and comes from a peering attachment with that key and name. |
| TerraformConfig.LinkConfigsMembers | scripts/generate_terraform_config.py:281-306 | There is an entry `{rt_key}_{attachment_key}` exactly when some table's file holds a link in the wanted state to a registered attachment. |
| TerraformConfig.LinkConfigsEntry | scripts/generate_terraform_config.py:291-306 | An association or propagation entry is keyed by its two parts. It records a registered key and type, and a route-table key. |
| TerraformConfig.FirstContained | scripts/generate_terraform_config.py:400-404 | The search finds nothing exactly when no registered id is a substring of the rendered targets. Otherwise it returns the first one in map order. |
| TerraformConfig.TgwRouteConfigsMembers | scripts/generate_terraform_config.py:368-395 | There is a route entry exactly for each non-propagated route with a destination, keyed by table key and rewritten destination. |
| TerraformConfig.TgwRouteConfigsEntry | scripts/generate_terraform_config.py:377-404 | A route entry comes from such a route. It is a blackhole exactly when the route is, and then it has no attachment. Otherwise its attachment is the result of the substring search. |
| TerraformConfig.ShorterIdMatchesLonger | scripts/generate_terraform_config.py:400-401 | Because the search is a substring test, a registered id that is a prefix of the real target, registered first, is chosen instead of the real target. |
| TerraformConfig.VpcRouteConfigsMembers | scripts/generate_terraform_config.py:427-448 | There is a VPC route entry exactly for each route with a `TransitGatewayId` and a destination that is neither empty nor `local`. |
| TerraformConfig.VpcRouteConfigsEntry | scripts/generate_terraform_config.py:434-448 | A VPC route entry records a table of the file and a destination that is neither empty nor `local`. |
| TerraformConfig.RouteTableBlock | scripts/generate_terraform_config.py:150-158 | A route-table entry prints its name, and prints `tags` only when there are tags. |
| TerraformConfig.VpcAttachmentBlock | scripts/generate_terraform_config.py:203-219 | An attachment entry prints its VPC and subnets. Each option is printed only when it differs from its default, and reading an omitted option as its default gives back the configured value. Tags are printed only when there are some. |
| TerraformConfig.PeeringBlock | scripts/generate_terraform_config.py:265-277 | A peering entry prints the peer gateway and region. It prints the account only when it is known, and tags only when there are some. |
| TerraformConfig.LinkBlock | scripts/generate_terraform_config.py:314-320 | A link entry prints both keys. It prints the attachment type only when that is not `vpc`, and reading an omitted type as `vpc` gives back the recorded type. |
| TerraformConfig.TgwRouteBlock | scripts/generate_terraform_config.py:412-422 | A route entry prints the attachment key exactly when an attachment was found. It prints the type only when that is neither empty nor `vpc`, and `blackhole = true` exactly for a blackhole route. |
| TerraformConfig.BlackholeRoutePrintsNoAttachment | scripts/generate_terraform_config.py:389-421 | A blackhole route prints `blackhole = true` and no attachment. Any other route prints no `blackhole`. |
| TerraformConfig.ConfigSectionsSpec | scripts/generate_terraform_config.py:129-462 | A map variable is printed exactly when its map is non-empty, and then with one entry per key of its map. |
| TerraformConfig.TopSettings | scripts/generate_terraform_config.py:95-127 | The settings start with `region` and `environment`, and there are gateway settings exactly when the inventory has a gateway. No setting is named `tags`. |
| TerraformConfig.GenerateConfig | scripts/generate_terraform_config.py:73-475 | The document starts with the `region` and `environment` settings. Whatever the inventory holds, it ends with the Common Tags variable `tags = { ManagedBy = "Terraform", Project = "TransitGateway" }`, and no other setting has that name. |
| TerraformConfig.OnlyFirstGatewayConfigured | scripts/generate_terraform_config.py:104-127 | Gateways after the first change nothing in the document. |
| TerraformResources.FormatTagKey | scripts/generate_terraform.py:51-55 | A key is quoted exactly when it holds `:`, `-` or a space. Otherwise it is unchanged. |
| TerraformResources.FormatTagKeyInjective | scripts/generate_terraform.py:51-55 | Distinct tag keys stay distinct after formatting. |
| TerraformResources.ExtraTagLinesMembers | scripts/generate_terraform.py:82-85 | A tag line is printed exactly for each tag whose key is not `Name`, with its formatted key and its value. |
| TerraformResources.GatewayCode | scripts/generate_terraform.py:57-88 | The gateway resource:<br>- is named after its sanitized name<br>- has a description exactly when it has a non-empty one<br>- takes each option from `Options`, with its default (`64512`, `enable`, or `disable` for shared attachments) when missing |
| TerraformResources.RouteTableCode | scripts/generate_terraform.py:90-110 | A route table is named after its sanitized name and refers to its gateway's resource. Its `tags` block has the table's name and one line for each tag other than `Name`. |
| TerraformResources.IgnoredChanges | scripts/generate_terraform.py:125-133 | `subnet_ids` is ignored exactly when there are no subnets. The three options are ignored exactly when there are no `Options`. |
| TerraformResources.VpcAttachmentCode | scripts/generate_terraform.py:112-165 | There is no code for a non-VPC attachment. Otherwise:<br>- the subnet list is never empty, with `PLACEHOLDER` standing in for a missing one<br>- `lifecycle` appears exactly when something is ignored<br>- options fall back to their defaults<br>- the `tags` block has the attachment's name and one line for each tag other than `Name` |
| TerraformResources.LinkCode | scripts/generate_terraform.py:167-207 | There is code exactly when the attachment id has a generated VPC attachment resource. The code is named `{rt}_assoc_{att}` or `{rt}_prop_{att}` and refers to both resources. |
| TerraformResources.LinkCodeIgnoresState | scripts/generate_terraform.py:171-174 | The link's state never changes the code. |
| TerraformResources.TgwRouteCode | scripts/generate_terraform.py:209-239 | There is no code for a route without a destination or a propagated one. Otherwise the resource:<br>- is named `{rt}_route_{destination}`<br>- is a blackhole exactly for a blackhole route<br>- otherwise targets an attachment resource exactly when its first target id is known |
| TerraformResources.VpcRouteResourcesMembers | scripts/generate_terraform.py:241-272 | A VPC route resource is generated exactly for each route with a `TransitGatewayId` and a destination other than empty or `local`. |
| TerraformResources.VpcRouteNamesMatchConfigKeys | scripts/generate_terraform.py:250-261 | The VPC route resource names are exactly the keys of the tfvars `vpc_routes` map. |
| TerraformResources.GenerateAll | scripts/generate_terraform.py:281-382 | One gateway resource per gateway, and no more route tables or attachments than the inventory has. |
| TerraformResources.GatewayResourcesKeys | scripts/generate_terraform.py:298-302 | `tgw_resources` has one entry per distinct gateway id. |
| TerraformResources.RouteTablesHaveKnownParent | scripts/generate_terraform.py:306-314 | A route-table resource is generated exactly for each table whose gateway was generated, and it refers to that gateway. |
| TerraformResources.AttachmentResourcesKeys | scripts/generate_terraform.py:318-329 | `attachment_resources` holds exactly the VPC attachments whose gateway was generated. |
| TerraformResources.AttachmentNamesGenerated | scripts/generate_terraform.py:324-329 | Every name in `attachment_resources` names a generated attachment resource. |
| TerraformResources.RouteTableNamesGenerated | scripts/generate_terraform.py:308-314 | Every name in `rt_resources` names a generated route-table resource. |
| TerraformResources.LinkResourcesRefer | scripts/generate_terraform.py:333-357 | Every association and propagation refers to names in `rt_resources` and `attachment_resources`. |
| TerraformResources.TgwRouteResourcesRefer | scripts/generate_terraform.py:361-371 | Every TGW route refers to a name in `rt_resources`, and its attachment target to one in `attachment_resources`. |
| TerraformResources.UnreadRoutesFileAccepted | scripts/generate_terraform.py:362-369 | A routes file of a table that has no generated resource is never read. An empty target list in it does not stop generation. |
| TerraformResources.ReferencesResolve | scripts/generate_terraform.py:333-371 | Every association, propagation and route refers only to route-table and attachment resources that were generated. |

Notes on the source:
- **`sanitize_dirname`.** Its docstring says `tgw-rt-production` becomes `rt-production`. The code removes the whole `tgw-rt-` prefix, giving `production`, and the model follows the code (`Sanitize.SanitizeDirnameStripsPrefix`).
- **Option defaults.** The gateway defaults differ between the generators. `generate_terraform.py` uses `enable` for the default route-table association and propagation. `generate_terraform_config.py` uses `disable`. Each is modelled as written.
- **Description.** The tfvars generator reads the description from `Options.Description`, not from the gateway's `Description`, and this is modelled as written.

## Left out

- `generate_modules.py` is not part of this model.
- File input and output:
  - JSON parsing
  - existence checks on files
  - `mkdir` and `chmod`
  - `print` and the summary lines
  - the fixed `provider.tf`
  - `argparse`

  Detail files are the maps of `Inventory.Catalog`.
- Text layout: HCL indentation and alignment, `format_map`, and the `json.dumps` spelling of lists. Printed entries are modelled as a map from attribute to value, so the order of attributes within one entry is not modelled. The order of entries and of variables is modelled.
- Python's `str()` escaping of quotes inside values, and the quoting of values holding `"`. Values are taken to be plain text.
- Non-ASCII case mapping: `lower()` is modelled on ASCII letters, and `isdigit()` on ASCII digits.
- JSON `null`s and non-string values. `AmazonSideAsn` is carried as its digits.
- The unused grouping of VPN and Direct Connect attachments in `generate_route_table_import` (`scripts/generate_import_commands.py:151-154`). It computes lists that are never read.
- The region read from the ARN in `generate_config`, which is a stub that always yields `ap-northeast-1`. The region is modelled as that constant.
- Two directories with the same sanitized name overwrite each other's `import.sh`. The model returns both files and leaves the collision to the file system.
- Runtime errors. `generate_terraform.py` raises `KeyError` on a tag without `Key`, on a tag other than `Name` without `Value` (lines 85, 107 and 162), and on a route table or attachment without `TransitGatewayId`. It raises `IndexError` on an empty `TransitGatewayAttachments` list of a non-propagated route with a destination in a generated route table. Routes files of other tables are never read, so they may hold anything. These inputs are excluded by `TerraformResources.Generatable` and `WellFormedTags`, not modelled as errors.
- Records without their id. All three generators raise `KeyError` on a gateway, attachment or route table that lacks its id (`scripts/generate_import_commands.py:74`, 120, 211 and 236; `scripts/generate_terraform_config.py:134`, 170, 229 and 429). The `Inventory` records carry every id as a mandatory string, so this crash is not modelled.
- TerraformResources.GenerateAll: its contract bounds the counts only. What each field holds is stated by `RouteTablesHaveKnownParent`, `AttachmentResourcesKeys` and `ReferencesResolve`.
