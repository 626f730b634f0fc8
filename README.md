# Dafny model of the bk-hcm request validators and resource forms

bk-hcm is a hybrid-cloud management platform. This project models six parts of it, one Dafny
module per source file, and proves properties of each:

- **`SecurityGroup`** (`security_group.dfy`): the guard-clause `Validate` methods of three
  cloud-server security-group requests.
  - a Go `error` is `Option<...Error>`, where `None` is `nil`;
  - the foreign name and memo checks are `string -> bool` parameters;
  - `constant.BatchOperationMaxLimit` is a parameter.
- **`GcpRegion`** (`gcp_region.dfy`): the `gcp_region` table record, its struct-tag constraints,
  and `InsertValidate` / `UpdateValidate`.
- **`ClbApplyForm`** (`clb_form.dfy`): the CLB (Cloud Load Balancer) apply form hook.
  - pure parts:
    - the quota lookup;
    - the purchase-count maximum and remaining quota, with JavaScript's NaN made explicit;
    - the instance-name regular expression;
    - the visibility of each form item.
  - imperative parts: the zone-change and VPC-change handlers, modelled as methods on a class
    over the form model.
- **`FirewallForm`** (`firewall_form.dfy`): the GCP firewall rule form as a class.
  - its initial state;
  - the allow/deny toggle that moves the one shared draft protocol-and-port object between the
    `allowed` and `denied` lists;
  - the protocol and IP-type watchers;
  - the normalisation `handleSubmit` applies before sending the rule.
- **`ImageSelector`** (`image_selector.dfy`): the image selector dialog.
  - the watcher's guard;
  - the filter rule list, built by a method with a loop and proved equal to a specification
    function;
  - the `list`/`loading` state;
  - `computedDisabled`;
  - the confirm handler.
- **`MoreActionDropdown`** (`more_action_dropdown.dfy`): the more-action dropdown hook.
  - the menu rendering (entry filtering and disabling) and clicks;
  - the close-then-replace discipline over the one held popover;
  - the key of the node whose popover is shown.

`Wrappers` (`wrappers.dfy`) holds the `Option` type the modules share.

The firewall form's watchers are modelled by the setter methods that change their sources, and a
setter runs the watcher body only when the value actually changes. The image selector is modelled
differently:
- `Selector.OnSourcesChange` is the watcher callback itself, and runs unconditionally whenever it is called;
- there are no setters for the selected platform or the search chips, and the callback reads them as fields.

Asynchronous results (the VPC detail and the image list) are delivered by separate methods, in
whatever order they arrive.

## Model

| member | source | states |
|---|---|---|
| `SecurityGroup.ValidateUpdate` | pkg/api/cloud-server/security_group.go:79-97 | Accepted iff a name or a memo is given, a non-empty name passes the name check and a present memo passes the memo check. Missing both gives "name or memo is required". An empty name is never checked. A bad non-empty name is reported before a bad memo. |
| `SecurityGroup.EmptyNameSkipsNameCheck` | pkg/api/cloud-server/security_group.go:84-88 | For a memo-only update, the verdict does not depend on the name check. |
| `SecurityGroup.AssignTagViolations` | pkg/api/cloud-server/security_group.go:100-103 | The `required` tags fail for a zero business id and for a nil id list (an empty list that is present passes), reported in field order. |
| `SecurityGroup.ValidateAssign` | pkg/api/cloud-server/security_group.go:106-124 | Accepted iff the business id is positive and the id list is present with 1 to limit entries. Each error is characterised exactly: struct tags, then a non-positive id, then an empty list, then too many ids (carrying the limit). |
| `SecurityGroup.ZeroBizIdRejected` | pkg/api/cloud-server/security_group.go:111-113 | A business id of 0 is always rejected, although the message says ">= 0". |
| `SecurityGroup.BatchLimitInclusive` | pkg/api/cloud-server/security_group.go:115-123 | A list of exactly the limit is accepted; one more id gives the too-many error with that limit. |
| `SecurityGroup.ValidateRuleCreate` | pkg/api/cloud-server/security_group.go:203-213 | Accepted iff exactly one of the egress and ingress sets is non-empty. "Both empty" and "both non-empty" are two distinct errors, each characterised iff. |
| `SecurityGroup.RuleCreateSymmetric` | pkg/api/cloud-server/security_group.go:203-213 | Swapping the egress and ingress sets never changes the verdict. |
| `GcpRegion.TagHolds` | pkg/dal/table/cloud/region/gcp.go:51-63 | Definition: the tag on each field holds (`len=0` on the id, `max=32` on the region id, `max=64` on name, creator and reviser, `min=-1` on availability). |
| `GcpRegion.FailingAmong` | pkg/dal/table/cloud/region/gcp.go:51-63 | A field is in the result iff it is in the given list and its tag fails. Struct order is kept. |
| `GcpRegion.TagViolations` | pkg/dal/table/cloud/region/gcp.go:51-63 | Lists exactly the fields whose tag fails (`len=0`, `max=32`, `max=64`, `min=-1`), each once, in declaration order. |
| `GcpRegion.StructValidMeans` | pkg/dal/table/cloud/region/gcp.go:51-63 | The struct check passes iff: the id is empty; the region id is at most 32 characters; region name, creator and reviser are at most 64; availability is at least -1. |
| `GcpRegion.StructCheck` | pkg/dal/table/cloud/region/gcp.go:93 | Succeeds iff the struct is valid. Otherwise reports the failing fields. |
| `GcpRegion.InsertValidate` | pkg/dal/table/cloud/region/gcp.go:76-94 | Accepted iff the vendor is valid and non-empty, region id and creator are non-empty, and the tags hold. Each error holds exactly when every earlier check passed and its own check fails. |
| `GcpRegion.UpdateGuards` | pkg/dal/table/cloud/region/gcp.go:97-112 | The struct check comes first, then vendor non-empty, creator empty ("creator can not update") and reviser non-empty. Each error is characterised iff. |
| `GcpRegion.UpdateValidate` | pkg/dal/table/cloud/region/gcp.go:97-115 | Accepted iff the tags hold, the vendor is non-empty, the creator is empty and the reviser is non-empty. |
| `GcpRegion.UpdateFinalCheckRedundant` | pkg/dal/table/cloud/region/gcp.go:98-114 | The second struct check at the end of update never changes the result. |
| `GcpRegion.InsertAndUpdateExclusive` | pkg/dal/table/cloud/region/gcp.go:76-115 | No record passes both insert and update validation. |
| `GcpRegion.InsertedRecordRejectedOnUpdate` | pkg/dal/table/cloud/region/gcp.go:106-108 | Every record that passes insert is refused by update with exactly "creator can not update". |
| `ClbApplyForm.IsIntranet` | front/src/views/service/service-apply/clb/hooks/useRenderForm.tsx:50 | Definition: the load balancer type is `INTERNAL`. |
| `ClbApplyForm.IntranetUsesInternalQuota` | front/src/views/service/service-apply/clb/hooks/useRenderForm.tsx:50-87 | For an intranet balancer, the current quota is the internal-CLB one. |
| `ClbApplyForm.FindQuota` | front/src/views/service/service-apply/clb/hooks/useRenderForm.tsx:87 | `find` by quota id: no result iff no entry matches. Otherwise the result is the first matching entry. |
| `ClbApplyForm.CurrentLbQuota` | front/src/views/service/service-apply/clb/hooks/useRenderForm.tsx:81-88 | The open-CLB quota for type `OPEN`, the internal-CLB quota for every other type. |
| `ClbApplyForm.RequireCountMax` | front/src/views/service/service-apply/clb/hooks/useRenderForm.tsx:89 | Never 0. It is 1 when no quota is found (NaN is falsy). Otherwise it is limit minus current when they differ, and 1 when they are equal. |
| `ClbApplyForm.QuotaRemaining` | front/src/views/service/service-apply/clb/hooks/useRenderForm.tsx:91-93 | `requireCountMax - require_count` when a quota with a non-zero limit is found. Otherwise 0. |
| `ClbApplyForm.ExhaustedQuotaAllowsOne` | front/src/views/service/service-apply/clb/hooks/useRenderForm.tsx:89-93 | A fully used quota still allows a maximum of 1, and its remaining count is `1 - require_count`. |
| `ClbApplyForm.OverusedQuotaNegativeMax` | front/src/views/service/service-apply/clb/hooks/useRenderForm.tsx:89 | A quota whose current use exceeds its limit gives a negative maximum. |
| `ClbApplyForm.RemainingWithinQuota` | front/src/views/service/service-apply/clb/hooks/useRenderForm.tsx:91-93 | With room in a non-zero quota, the remaining count is limit - current - require count. |
| `ClbApplyForm.RepeatInterior` | front/src/views/service/service-apply/clb/hooks/useRenderForm.tsx:98 | Matches `[-a-zA-Z0-9]{lo,hi}` iff the length is within bounds and every character is in the class. |
| `ClbApplyForm.NameRule` | front/src/views/service/service-apply/clb/hooks/useRenderForm.tsx:98 | The name regex holds iff: the length is 2 to 60; the first and last characters are ASCII letters or digits; every inner character is a letter, a digit or `-`. |
| `ClbApplyForm.NameRuleExamples` | front/src/views/service/service-apply/clb/hooks/useRenderForm.tsx:98-99 | `a1` and `clb-01` pass. `a`, `-ab`, `ab-` and `a_b` fail. |
| `ClbApplyForm.Hidden` | front/src/views/service/service-apply/clb/hooks/useRenderForm.tsx:131-392 | Definition: each item's `hidden` expression as written (lines 131, 174, 209, 239, 271, 289, 322, 369, 392). Items without one are never hidden. |
| `ClbApplyForm.Shown` | front/src/views/service/service-apply/clb/hooks/useRenderForm.tsx:131-392 | Visibility of each item of `formItemOptions`. Subnet and EIP show only for intranet, and IP version, ISP and SLA only for public network. Charge type and bandwidth show only for a public network on a non-legacy account. Zones show for intranet or IPv4, and zone type only for a public network on IPv4. The rest always show. |
| `ClbApplyForm.VisibilityConsistent` | front/src/views/service/service-apply/clb/hooks/useRenderForm.tsx:174-289 | Exactly one of subnet and ISP is shown. The zone type never shows without the zones. The charge type never shows without the ISP. |
| `ClbApplyForm.RenderForm.constructor` | front/src/views/service/service-apply/clb/hooks/useRenderForm.tsx:43-44 | `vpcId` starts empty and there is no VPC preview. |
| `ClbApplyForm.RenderForm.HandleZoneChange` | front/src/views/service/service-apply/clb/hooks/useRenderForm.tsx:53-57 | Clears `vpcId`, the form's VPC and the subnet, and nothing else. |
| `ClbApplyForm.RenderForm.HandleVpcChange` | front/src/views/service/service-apply/clb/hooks/useRenderForm.tsx:58-72 | A different VPC is recorded and clears the subnet. The same VPC keeps the subnet. No VPC drops the preview data and keeps the rest. |
| `ClbApplyForm.RenderForm.SelectVpc` | front/src/views/service/service-apply/clb/hooks/useRenderForm.tsx:161-164 | Picking a VPC writes its id into `cloud_vpc_id` and records it as `vpcId`. The subnet is cleared iff the VPC differs from the recorded one. |
| `ClbApplyForm.RenderForm.ReceiveVpcDetail` | front/src/views/service/service-apply/clb/hooks/useRenderForm.tsx:62 | The fetched VPC detail is stored whenever it arrives. |
| `ClbApplyForm.ZoneThenVpc` | front/src/views/service/service-apply/clb/hooks/useRenderForm.tsx:53-66 | A zone change followed by a VPC pick leaves that VPC in both `cloud_vpc_id` and `vpcId`, with no subnet chosen. |
| `FirewallForm.NormalisedPort` | front/src/views/business/forms/firewall/index.tsx:95-97 | The rewritten port is always a list of at most one element. It is non-empty iff the old port had a non-zero length, and then its element is the old port. |
| `FirewallForm.NormaliseTwiceWrapsAgain` | front/src/views/business/forms/firewall/index.tsx:95-97 | The rewrite is not idempotent: a second submit wraps the list again. |
| `FirewallForm.InitialFields` | front/src/views/business/forms/firewall/index.tsx:74-77 | The defaults, overridden by the detail only when editing. |
| `FirewallForm.InitialAllowed` | front/src/views/business/forms/firewall/index.tsx:76-81 | The allowed list the toggle's initial value reads: the detail's only when editing. |
| `FirewallForm.InitialDraftProtocol` | front/src/views/business/forms/firewall/index.tsx:83 | The draft protocol comes from the first allowed entry, else the first denied entry, else empty. It is read from the detail even when not editing. |
| `FirewallForm.InitialDraftPort` | front/src/views/business/forms/firewall/index.tsx:84 | The first port of the first allowed entry, else of the first denied entry, else empty. It is chosen independently of the protocol. |
| `FirewallForm.PortsDisabledFor` | front/src/views/business/forms/firewall/index.tsx:151-159 | Definition: the switch disables ports for `all`, `icmp` and `58`, whatever the IP type. |
| `FirewallForm.ProtocolOptions` | front/src/views/business/forms/firewall/index.tsx:276-294 | Four options: ALL, TCP, UDP, then ICMP for IPv4 or ICMPV6 (`58`) for IPv6. |
| `FirewallForm.OfferedProtocolsAndPorts` | front/src/views/business/forms/firewall/index.tsx:147-161 | Of the offered protocols, the port input stays enabled exactly for TCP and UDP. `icmp` is offered iff IPv4, and `58` iff IPv6. |
| `FirewallForm.ItemShown` | front/src/views/business/forms/firewall/index.tsx:234-267 | Definition: the source-mark toggle shows iff the rule is ingress. Each tag input shows iff its flag is set. |
| `FirewallForm.SourceTagsWithoutToggle` | front/src/views/business/forms/firewall/index.tsx:234-251 | An egress rule with the source flag set shows the source-tag input without its toggle. |
| `FirewallForm.InitialVisibility` | front/src/views/business/forms/firewall/index.tsx:74-80 | A new rule opens as egress with no toggle and no tag inputs. An edited rule shows the toggle iff it is ingress, and the source-tag input iff it has source tags. Its target-tag input shows iff it has destination ranges, whatever its target tags, because the flag reads `destination_ranges`. |
| `FirewallForm.NormalisePorts` | front/src/views/business/forms/firewall/index.tsx:95-97 | Every entry's port is replaced by its normalised form in place. Protocols are unchanged. |
| `FirewallForm.Form.constructor` | front/src/views/business/forms/firewall/index.tsx:74-145 | The initial state. The IP type comes from the first destination range, and the three flags from the lengths of the tags, ranges and allowed list. The draft is built from the detail. The immediate toggle run leaves the draft alone in the chosen list. Every conditional item is shown as `InitialVisibility` describes. |
| `FirewallForm.Form.RuleAllowedWatcher` | front/src/views/business/forms/firewall/index.tsx:131-145 | Both lists are reset, and the draft is pushed onto the chosen one. |
| `FirewallForm.Form.SetRuleAllowed` | front/src/views/business/forms/firewall/index.tsx:131-141 | Changing the choice moves the draft to the chosen list and empties the other. Keeping it changes nothing. The invariant is preserved. |
| `FirewallForm.Form.SetProtocol` | front/src/views/business/forms/firewall/index.tsx:147-161 | A new protocol clears the port and disables ports iff it is `all`, `icmp` or `58`. The same protocol changes nothing. |
| `FirewallForm.Form.SetPort` | front/src/views/business/forms/firewall/index.tsx:272 | The port input sets the draft's port text. |
| `FirewallForm.Form.SetIpType` | front/src/views/business/forms/firewall/index.tsx:163-169 | A new IP type clears port and protocol. Clearing a non-empty protocol also re-enables the ports. The same type changes nothing. |
| `FirewallForm.Form.Payload` | front/src/views/business/forms/firewall/index.tsx:110-122 | The body sent holds the fields and the draft in the chosen list. The other list is empty or absent as in the model. |
| `FirewallForm.Form.Submit` | front/src/views/business/forms/firewall/index.tsx:93-107 | Non-empty lists keep their entries with ports normalised. Empty lists are deleted, so the body holds one normalised entry in the chosen list and no other list. The invariant is preserved. |
| `FirewallForm.ToggleTwice` | front/src/views/business/forms/firewall/index.tsx:131-141 | Toggling twice restores the choice, with the draft alone in its list and the other list empty. |
| `ImageSelector.QuerySkipped` | front/src/views/service/service-apply/components/common/image-selector.tsx:95 | For a vendor other than Azure, the query is skipped iff the vendor or the region is empty. For Azure, it is also skipped when there is no machine type or its architecture is absent or empty. |
| `ImageSelector.ComputedDisabled` | front/src/views/service/service-apply/components/common/image-selector.tsx:83-85 | The select button is enabled iff a machine type, a vendor and a region are all given. |
| `ImageSelector.EnabledMeansQueried` | front/src/views/service/service-apply/components/common/image-selector.tsx:83-98 | With the button enabled, the watcher skips the query only for Azure without an architecture. |
| `ImageSelector.VendorRules` | front/src/views/service/service-apply/components/common/image-selector.tsx:123-163 | The rules each vendor adds: two for AWS, one each for Huawei, TCloud, Azure and GCP, none for others. Never more than two. |
| `ImageSelector.SearchRule` | front/src/views/service/service-apply/components/common/image-selector.tsx:166-172 | A CS rule on the chip's id with its first value. The value is undefined when the chip has no values. The rule cannot be built (the read throws) iff the values are empty. |
| `ImageSelector.SearchRules` | front/src/views/service/service-apply/components/common/image-selector.tsx:165-172 | One rule per chip in order, or a throw iff some chip has an empty value list. |
| `ImageSelector.FilterRulesShape` | front/src/views/service/service-apply/components/common/image-selector.tsx:102-181 | The rule list is vendor, `type = public` and `os_type`, then the vendor's rules, then one rule per chip in order. Its length is 3 + the vendor's count + the chip count. |
| `ImageSelector.BuildFilterRules` | front/src/views/service/service-apply/components/common/image-selector.tsx:102-172 | The pushes of the `switch` and the `for…of` loop produce exactly the specified rule list, or the throw. |
| `ImageSelector.Selector.constructor` | front/src/views/service/service-apply/components/common/image-selector.tsx:26-45 | An empty list, not loading, the dialog closed, nothing checked, platform Linux, no search chips, and `selected` equal to the model value. |
| `ImageSelector.Selector.OnSourcesChange` | front/src/views/service/service-apply/components/common/image-selector.tsx:94-187 | A skipped query empties the list and leaves `loading` alone. Otherwise `loading` is set, and the result is the `and` request with the specified rules and page (no count, start 0, limit 500), or a throw that leaves `loading` set. |
| `ImageSelector.Selector.ReceiveListResponse` | front/src/views/service/service-apply/components/common/image-selector.tsx:188-194 | The response's details (or an empty list) replace the list, and loading ends. |
| `ImageSelector.Selector.Confirm` | front/src/views/service/service-apply/components/common/image-selector.tsx:242-245 | `selected` becomes the checked image id and the dialog closes. |
| `ImageSelector.LateResponseWins` | front/src/views/service/service-apply/components/common/image-selector.tsx:174-194 | With two responses, the one that arrives last decides the list, whichever query it answers. |
| `MoreActionDropdown.DropsFirst` | front/src/hooks/useMoreActionDropdown.tsx:37 | Definition: the node is a listener whose protocol is in the transport-layer list. |
| `MoreActionDropdown.ItemDisabled` | front/src/hooks/useMoreActionDropdown.tsx:38 | Definition: `isDisabled` applied to the node when it is a function, false otherwise. |
| `MoreActionDropdown.RenderFrom` | front/src/hooks/useMoreActionDropdown.tsx:36-48 | From index `k` on, the entries render in order. Index 0 is dropped for a transport-layer listener. |
| `MoreActionDropdown.RenderMenu` | front/src/hooks/useMoreActionDropdown.tsx:36-48 | The menu has one entry fewer for a listener whose protocol is a transport-layer one, and all entries otherwise. Each keeps its label and handler, and is disabled iff its `isDisabled` is a function returning true for the node. |
| `MoreActionDropdown.FullMenuUnlessTransportListener` | front/src/hooks/useMoreActionDropdown.tsx:37 | Any other node gets every entry of its type's menu, in order. |
| `MoreActionDropdown.Click` | front/src/hooks/useMoreActionDropdown.tsx:43 | A disabled entry calls nothing. An enabled one calls its handler once with the node. |
| `MoreActionDropdown.ClickRenderedEntry` | front/src/hooks/useMoreActionDropdown.tsx:36-43 | Clicking the j-th rendered entry calls nothing iff that menu entry's `isDisabled` holds for the node. Otherwise it calls that entry's handler exactly once. |
| `MoreActionDropdown.Dropdown.constructor` | front/src/hooks/useMoreActionDropdown.tsx:9-10 | No popover is held and the key is empty. |
| `MoreActionDropdown.Dropdown.HandlePopShow` | front/src/hooks/useMoreActionDropdown.tsx:13-15 | The key becomes the node's id. |
| `MoreActionDropdown.Dropdown.HandlePopHide` | front/src/hooks/useMoreActionDropdown.tsx:18-20 | The key becomes empty. |
| `MoreActionDropdown.Dropdown.ShowDropdownList` | front/src/hooks/useMoreActionDropdown.tsx:23-57 | The held popover is always closed first. A shown one clears the key through its hide callback. A node type with no menu throws, leaving the closed popover held. Otherwise a new popover with the rendered menu is held and shown, and the key is the node's id. Every older popover stays closed. |
| `MoreActionDropdown.AtMostOneShown` | front/src/hooks/useMoreActionDropdown.tsx:23-25 | No popover other than the held one is ever shown. |
| `MoreActionDropdown.ShowSameNodeTwice` | front/src/hooks/useMoreActionDropdown.tsx:24-25 | Re-showing the same node is not a no-op: the first popover is closed and a different one is held and shown. |

## Left out

- Network calls are inputs, not modelled:
  - the firewall PUT/POST and its URL choice;
  - the image list POST;
  - the VPC detail fetch.
  Their results enter through `ReceiveListResponse` and `ReceiveVpcDetail`.
- `ImageSelector.Selector.ReceiveListResponse` models only a response that arrives. When the list POST is rejected, the code never sets `loading` back to false; the model does not capture that path.
- `ClbApplyForm.ApplyClbModel.constructor`: the form model belongs to the caller, so every starting value is a parameter. The hook does not fix any of them.
- The CLB hook's account-type watcher is not modelled, because it only starts a fetch.
- Vue reactivity scheduling is not modelled: a watcher runs synchronously right after its source changes.
- Not modelled because they are rendering or library behaviour:
  - JSX layout, tooltips, i18n, the bandwidth slider marks and the widgets' min/max props;
  - the popover's `update(e.target)` positioning;
  - the image dialog's open and close buttons and its platform buttons (the watcher reads the selected platform as a field).
- The firewall's `handleCancel` only emits an event, and is not modelled.
- Library tag semantics beyond the tags written on the structs are not modelled.
  - The `len` and `max` tags count runes, which is what `|s|` counts over Dafny characters.
  - Go's own `len(...)` counts bytes, but the validators use it only to test emptiness, where bytes and characters agree.
  - The `excluded_unless` tag on the timestamps takes no parameter and is not modelled.
- `Validate` methods that only call the struct validator are not modelled. In `security_group.go` these are the methods of the list request, the rule-list request, the three rule-update requests and the batch-delete request.
- Constants defined outside these files are parameters:
  - `constant.BatchOperationMaxLimit`;
  - the `CLB_QUOTA_NAME` ids;
  - `TRANSPORT_LAYER_LIST`;
  - the `isDisabled` functions of the menus.
  The `VendorEnum` values are taken to be `aws`, `huawei`, `tcloud`, `azure` and `gcp`.
- `FirewallForm.Form.constructor`: a `detail` that lacks some fields is not modelled. The detail is either absent (the default `{}`) or complete. Reading the first character of a port stored as a string is not modelled either: the server's ports are lists.
- `MoreActionDropdown.Dropdown.ShowDropdownList`: the popover library is assumed to call `onShow` after each `show()` and `onHide` when a shown popover is closed. The model does not capture other callback timing.
- Two behaviours one might expect of these forms are absent from the code, and the model follows the code:
  - One might expect a stale asynchronous result to be discarded when a newer request has been issued. The code has no such guard: a late response simply overwrites a newer one (`ImageSelector.LateResponseWins`).
  - One might expect re-showing the popover on the same node to do nothing. The code closes and recreates the popover every time (`MoreActionDropdown.ShowSameNodeTwice`).
