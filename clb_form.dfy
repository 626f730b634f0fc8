/**
 * The CLB (Cloud Load Balancer) apply form hook `useRenderForm`: the derived
 * quota bounds, the instance-name rule, the visibility of each form item and
 * the two cascading reset handlers for a zone or VPC change.
 *
 * JavaScript numbers are modelled as integers plus NaN, because
 * `quota?.quota_limit - quota?.quota_current || 1` relies on
 * `undefined - undefined` being NaN and on NaN and 0 both being falsy.
 */
module ClbApplyForm {
  import opened Wrappers

  // ------------------------------------------------------------ JS numbers

  datatype JsNumber = Num(n: int) | NaN

  predicate Truthy(x: JsNumber) {
    x.Num? && x.n != 0
  }

  /** Binary `-`: NaN as soon as one side is NaN (or undefined). */
  function Minus(a: JsNumber, b: JsNumber): JsNumber {
    if a.Num? && b.Num? then Num(a.n - b.n) else NaN
  }

  /** `a || b` on numbers. */
  function Or(a: JsNumber, b: JsNumber): JsNumber {
    if Truthy(a) then a else b
  }

  // ----------------------------------------------------------------- Quota

  /** One entry of the `quotas` list fetched for the region. */
  datatype Quota = Quota(quotaId: string, quotaLimit: int, quotaCurrent: int)

  /** The two members of the `CLB_QUOTA_NAME` enum the form looks up. */
  datatype QuotaNames = QuotaNames(totalOpenClbQuota: string, totalInternalClbQuota: string)

  const OPEN := "OPEN"
  const INTERNAL := "INTERNAL"
  const IPV4 := "IPV4"
  const LEGACY := "LEGACY"

  /** `isIntranet`. */
  predicate IsIntranet(loadBalancerType: string) {
    loadBalancerType == INTERNAL
  }

  /** `Array.prototype.find` by `quota_id`: the first matching entry, if any. */
  function FindQuota(quotas: seq<Quota>, id: string): (r: Option<Quota>)
    ensures r.None? <==> forall k :: 0 <= k < |quotas| ==> quotas[k].quotaId != id
    ensures r.Some? ==> exists k :: 0 <= k < |quotas| && quotas[k] == r.value
                                  && forall j :: 0 <= j < k ==> quotas[j].quotaId != id
    ensures r.Some? ==> r.value.quotaId == id
  {
    if quotas == [] then None
    else if quotas[0].quotaId == id then Some(quotas[0])
    else
      var r := FindQuota(quotas[1..], id);
      assert forall k :: 1 <= k < |quotas| ==> quotas[k] == quotas[1..][k - 1];
      r
  }

  /** `currentLbQuota`: the open-CLB quota for type OPEN, the internal-CLB quota for any other type. */
  function CurrentLbQuota(loadBalancerType: string, quotas: seq<Quota>, names: QuotaNames): (r: Option<Quota>)
    ensures loadBalancerType == OPEN ==> r == FindQuota(quotas, names.totalOpenClbQuota)
    ensures loadBalancerType != OPEN ==> r == FindQuota(quotas, names.totalInternalClbQuota)
  {
    var quotaName := if loadBalancerType == OPEN then names.totalOpenClbQuota else names.totalInternalClbQuota;
    FindQuota(quotas, quotaName)
  }

  /** `currentLbQuota.value?.quota_limit` as a JS number (undefined reads as NaN in arithmetic). */
  function QuotaLimit(q: Option<Quota>): JsNumber {
    if q.Some? then Num(q.value.quotaLimit) else NaN
  }

  function QuotaCurrent(q: Option<Quota>): JsNumber {
    if q.Some? then Num(q.value.quotaCurrent) else NaN
  }

  /** `requireCountMax`: the room left in the quota, falling back to 1 when there is none to compute or it is 0. */
  function RequireCountMax(q: Option<Quota>): (r: int)
    ensures r != 0
    ensures q.None? ==> r == 1
    ensures q.Some? ==> r == if q.value.quotaLimit != q.value.quotaCurrent
                             then q.value.quotaLimit - q.value.quotaCurrent else 1
  {
    var x := Or(Minus(QuotaLimit(q), QuotaCurrent(q)), Num(1));
    x.n
  }

  /** `quotaRemaining`: what stays free after `require_count` instances, when a non-zero limit is known. */
  function QuotaRemaining(q: Option<Quota>, requireCount: int): (r: int)
    ensures q.Some? && q.value.quotaLimit != 0 ==> r == RequireCountMax(q) - requireCount
    ensures q.None? || q.value.quotaLimit == 0 ==> r == 0
  {
    if Truthy(QuotaLimit(q)) then RequireCountMax(q) - requireCount else 0
  }

  /** An intranet balancer always draws on the internal-CLB quota. */
  lemma IntranetUsesInternalQuota(loadBalancerType: string, quotas: seq<Quota>, names: QuotaNames)
    requires IsIntranet(loadBalancerType)
    ensures CurrentLbQuota(loadBalancerType, quotas, names) == FindQuota(quotas, names.totalInternalClbQuota)
  {
  }

  /** An exhausted quota (current == limit) still allows buying one instance. */
  lemma ExhaustedQuotaAllowsOne(q: Quota, requireCount: int)
    requires q.quotaLimit == q.quotaCurrent
    ensures RequireCountMax(Some(q)) == 1
    ensures q.quotaLimit != 0 ==> QuotaRemaining(Some(q), requireCount) == 1 - requireCount
  {
  }

  /** An over-used quota (current > limit) yields a negative maximum. */
  lemma OverusedQuotaNegativeMax(q: Quota)
    requires q.quotaCurrent > q.quotaLimit
    ensures RequireCountMax(Some(q)) < 0
  {
  }

  /** With room in a non-zero quota, the remaining count is exactly limit - current - require_count. */
  lemma RemainingWithinQuota(q: Quota, requireCount: int)
    requires q.quotaLimit != 0 && q.quotaLimit != q.quotaCurrent
    ensures QuotaRemaining(Some(q), requireCount) == q.quotaLimit - q.quotaCurrent - requireCount
  {
  }

  // ------------------------------------------------------- Instance name rule

  predicate AsciiAlnum(c: char) {
    'a' <= c <= 'z' || 'A' <= c <= 'Z' || '0' <= c <= '9'
  }

  /** The character class `[-a-zA-Z0-9]`. */
  predicate InteriorChar(c: char) {
    AsciiAlnum(c) || c == '-'
  }

  /** `m` matches `[-a-zA-Z0-9]{lo,hi}` as a whole. */
  function RepeatInterior(m: string, lo: nat, hi: nat): (ok: bool)
    ensures ok <==> lo <= |m| <= hi && forall i :: 0 <= i < |m| ==> InteriorChar(m[i])
  {
    if m == [] then lo == 0
    else
      var rest := RepeatInterior(m[1..], if lo > 0 then lo - 1 else 0, if hi > 0 then hi - 1 else 0);
      assert forall i :: 1 <= i < |m| ==> m[i] == m[1..][i - 1];
      hi > 0 && InteriorChar(m[0]) && rest
  }

  /**
   * The `rules.name` validator: `/^[a-zA-Z0-9]([-a-zA-Z0-9]{0,58})[a-zA-Z0-9]$/`.
   * The anchors fix the first and the last character, so the group is exactly
   * the characters in between.
   */
  function NameRule(s: string): (ok: bool)
    ensures ok <==>
      && 2 <= |s| <= 60
      && AsciiAlnum(s[0]) && AsciiAlnum(s[|s| - 1])
      && forall i :: 0 < i < |s| - 1 ==> InteriorChar(s[i])
  {
    var interiorOk := |s| >= 2 && RepeatInterior(s[1..|s| - 1], 0, 58);
    assert |s| >= 2 ==> forall i :: 0 < i < |s| - 1 ==> s[i] == s[1..|s| - 1][i - 1];
    |s| >= 2 && AsciiAlnum(s[0]) && interiorOk && AsciiAlnum(s[|s| - 1])
  }

  lemma NameRuleExamples()
    ensures NameRule("a1") && NameRule("clb-01")
    ensures !NameRule("a") && !NameRule("-ab") && !NameRule("ab-") && !NameRule("a_b")
  {
    assert !InteriorChar('_');
  }

  // ------------------------------------------------------------- Visibility

  /** The items of `formItemOptions`, in rendering order. */
  datatype FormItem =
    | LoadBalancerTypeItem | AddressIpVersionItem | CloudVpcIdItem | ZonesItem | ZoneTypeItem
    | CloudSubnetIdItem | VipIspItem | SlaTypeItem | CloudEipItem | InstanceChargeModeItem
    | InternetChargeTypeItem | InternetMaxBandwidthOutItem | RequireCountItem | NameItem | MemoItem

  /** The `hidden` expression of each item as written; items without one are never hidden. */
  predicate Hidden(item: FormItem, loadBalancerType: string, addressIpVersion: string, accountType: string) {
    var intranet := IsIntranet(loadBalancerType);
    match item
    case AddressIpVersionItem => intranet
    case ZonesItem => !intranet && addressIpVersion != IPV4
    case ZoneTypeItem => intranet || addressIpVersion != IPV4
    case CloudSubnetIdItem => !intranet
    case VipIspItem => intranet
    case SlaTypeItem => intranet
    case CloudEipItem => !intranet
    case InternetChargeTypeItem => (!intranet && accountType == LEGACY) || intranet
    case InternetMaxBandwidthOutItem => (!intranet && accountType == LEGACY) || intranet
    case _ => false
  }

  /** Whether the form renders `item` (`simpleShow` items are rendered unconditionally). */
  function Shown(item: FormItem, loadBalancerType: string, addressIpVersion: string, accountType: string): (r: bool)
    ensures item in {CloudSubnetIdItem, CloudEipItem} ==> (r <==> IsIntranet(loadBalancerType))
    ensures item in {AddressIpVersionItem, VipIspItem, SlaTypeItem} ==> (r <==> !IsIntranet(loadBalancerType))
    ensures item in {InternetChargeTypeItem, InternetMaxBandwidthOutItem} ==>
      (r <==> !IsIntranet(loadBalancerType) && accountType != LEGACY)
    ensures item == ZonesItem ==> (r <==> IsIntranet(loadBalancerType) || addressIpVersion == IPV4)
    ensures item == ZoneTypeItem ==> (r <==> !IsIntranet(loadBalancerType) && addressIpVersion == IPV4)
    ensures item in {LoadBalancerTypeItem, CloudVpcIdItem, InstanceChargeModeItem, RequireCountItem, NameItem, MemoItem} ==> r
  {
    !Hidden(item, loadBalancerType, addressIpVersion, accountType)
  }

  /** Exactly one of subnet and ISP is shown; the zone-type choice never appears without the zones. */
  lemma VisibilityConsistent(loadBalancerType: string, addressIpVersion: string, accountType: string)
    ensures Shown(CloudSubnetIdItem, loadBalancerType, addressIpVersion, accountType)
         != Shown(VipIspItem, loadBalancerType, addressIpVersion, accountType)
    ensures Shown(ZoneTypeItem, loadBalancerType, addressIpVersion, accountType)
        ==> Shown(ZonesItem, loadBalancerType, addressIpVersion, accountType)
    ensures Shown(InternetChargeTypeItem, loadBalancerType, addressIpVersion, accountType)
        ==> Shown(VipIspItem, loadBalancerType, addressIpVersion, accountType)
  {
  }

  // -------------------------------------------------------- Reset handlers

  /** A VPC as the region-VPC selector hands it to `handleVpcChange`. */
  datatype Vpc = Vpc(id: string)

  /** The preview data fetched for a VPC. */
  datatype VpcDetail = VpcDetail(id: string, name: string)

  /** The parts of `ApplyClbModel` this hook reads or writes; the caller owns the object. */
  class ApplyClbModel {
    var loadBalancerType: string
    var addressIpVersion: string
    var accountType: string
    var region: string
    var zones: seq<string>
    var cloudVpcId: string
    var cloudSubnetId: Option<string>   // None is `undefined`
    var requireCount: int
    var name: string

    /** The caller builds the form model; every field's starting value is its choice. */
    constructor (loadBalancerType: string, addressIpVersion: string, accountType: string, region: string,
                 zones: seq<string>, cloudVpcId: string, cloudSubnetId: Option<string>, requireCount: int, name: string)
      ensures this.loadBalancerType == loadBalancerType && this.addressIpVersion == addressIpVersion
      ensures this.accountType == accountType && this.region == region
      ensures this.zones == zones && this.cloudVpcId == cloudVpcId && this.cloudSubnetId == cloudSubnetId
      ensures this.requireCount == requireCount && this.name == name
    {
      this.loadBalancerType := loadBalancerType;
      this.addressIpVersion := addressIpVersion;
      this.accountType := accountType;
      this.region := region;
      this.zones := zones;
      this.cloudVpcId := cloudVpcId;
      this.cloudSubnetId := cloudSubnetId;
      this.requireCount := requireCount;
      this.name := name;
    }
  }

  /** The hook's own refs (`vpcId`, `vpcData`) over the caller's form model. */
  class RenderForm {
    const formModel: ApplyClbModel
    var vpcId: string
    var vpcData: Option<VpcDetail>

    constructor (formModel: ApplyClbModel)
      ensures this.formModel == formModel && vpcId == "" && vpcData.None?
    {
      this.formModel := formModel;
      vpcId := "";
      vpcData := None;
    }

    /** `handleZoneChange`: a new zone invalidates the chosen VPC and subnet, and only those. */
    method HandleZoneChange()
      modifies this`vpcId, formModel`cloudVpcId, formModel`cloudSubnetId
      ensures vpcId == "" && formModel.cloudVpcId == "" && formModel.cloudSubnetId.None?
    {
      vpcId := "";
      formModel.cloudVpcId := "";
      formModel.cloudSubnetId := None;
    }

    /**
     * `handleVpcChange`: a different VPC is recorded and clears the subnet;
     * the same VPC keeps it. No VPC drops the preview data. The detail fetch
     * it starts completes later through `ReceiveVpcDetail`.
     */
    method HandleVpcChange(vpc: Option<Vpc>)
      modifies this`vpcId, this`vpcData, formModel`cloudSubnetId
      ensures vpc.Some? && old(vpcId) != vpc.value.id ==>
        vpcId == vpc.value.id && formModel.cloudSubnetId.None? && vpcData == old(vpcData)
      ensures vpc.Some? && old(vpcId) == vpc.value.id ==>
        vpcId == old(vpcId) && formModel.cloudSubnetId == old(formModel.cloudSubnetId) && vpcData == old(vpcData)
      ensures vpc.None? ==>
        vpcId == old(vpcId) && formModel.cloudSubnetId == old(formModel.cloudSubnetId) && vpcData.None?
    {
      if vpc.Some? {
        if vpcId != vpc.value.id {
          vpcId := vpc.value.id;
          formModel.cloudSubnetId := None;
        }
      } else {
        vpcData := None;
      }
    }

    /**
     * Picking a VPC in the selector: its `v-model` writes the id into
     * `cloud_vpc_id`, then its `onChange` runs `handleVpcChange`.
     */
    method SelectVpc(vpc: Vpc)
      modifies this`vpcId, this`vpcData, formModel`cloudVpcId, formModel`cloudSubnetId
      ensures formModel.cloudVpcId == vpc.id && vpcId == vpc.id && vpcData == old(vpcData)
      ensures old(vpcId) != vpc.id ==> formModel.cloudSubnetId.None?
      ensures old(vpcId) == vpc.id ==> formModel.cloudSubnetId == old(formModel.cloudSubnetId)
    {
      formModel.cloudVpcId := vpc.id;
      HandleVpcChange(Some(vpc));
    }

    /** The `.then` of the VPC detail fetch: whichever response arrives is stored. */
    method ReceiveVpcDetail(data: VpcDetail)
      modifies this`vpcData
      ensures vpcData == Some(data)
    {
      vpcData := Some(data);
    }
  }

  /** A zone change followed by a VPC pick leaves that VPC chosen and no subnet chosen. */
  method ZoneThenVpc(f: RenderForm, vpc: Vpc)
    modifies f, f.formModel
    ensures f.vpcId == vpc.id && f.formModel.cloudVpcId == vpc.id && f.formModel.cloudSubnetId.None?
  {
    f.HandleZoneChange();
    f.SelectVpc(vpc);
  }
}
