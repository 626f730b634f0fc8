/**
 * The image selector dialog of the resource-apply pages: the guard that
 * decides whether to query images at all, the filter rules built for the
 * image list request, the `list`/`loading` refs the watcher sets, the
 * `computedDisabled` flag and the confirm handler.
 *
 * The request itself is not sent here: the watcher returns the request it
 * would post, and the response is handed back through `ReceiveListResponse`.
 */
module ImageSelector {
  import opened Wrappers

  /** `VendorEnum` members the switch distinguishes. */
  const AWS := "aws"
  const HUAWEI := "huawei"
  const TCLOUD := "tcloud"
  const AZURE := "azure"
  const GCP := "gcp"

  datatype QueryOp = EQ | JSON_EQ | CS

  /** A rule's value; `values?.[0].id` yields undefined when `values` is absent. */
  datatype RuleValue = Str(s: string) | Undefined

  datatype Rule = Rule(field: string, op: QueryOp, value: RuleValue)

  datatype Page = Page(count: bool, start: int, limit: int)

  datatype ListRequest = ListRequest(op: string, rules: seq<Rule>, page: Page)

  /** The `machineType` prop. */
  datatype MachineType = MachineType(instanceType: string, architecture: Option<string>)

  /** One chip of the search box: `{ id, values }`. */
  datatype SearchValue = SearchValue(id: string)
  datatype SearchItem = SearchItem(id: string, values: Option<seq<SearchValue>>)

  datatype Image = Image(cloudId: string, name: string, architecture: string)

  /** What one run of the watcher did. */
  datatype WatchOutcome =
    | Cleared                   // guard failed: list emptied, no request
    | Requested(req: ListRequest)
    | Threw                     // `values?.[0].id` on an empty `values`: the callback rejects

  /** `machineType?.architecture`, with undefined read as the empty string (both falsy). */
  function Architecture(machineType: Option<MachineType>): string {
    if machineType.Some? && machineType.value.architecture.Some? then machineType.value.architecture.value else ""
  }

  /** The watcher's guard: no vendor, no region, or Azure without an architecture. */
  predicate QuerySkipped(vendor: string, region: string, machineType: Option<MachineType>)
    ensures vendor != AZURE ==> (QuerySkipped(vendor, region, machineType) <==> vendor == "" || region == "")
    ensures vendor == AZURE ==> (QuerySkipped(vendor, region, machineType) <==>
      region == "" || machineType.None? || machineType.value.architecture in {None, Some("")})
  {
    vendor == "" || region == "" || (vendor == AZURE && Architecture(machineType) == "")
  }

  /** `computedDisabled`: the select button needs a machine type, a vendor and a region. */
  function ComputedDisabled(machineType: Option<MachineType>, vendor: string, region: string): (r: bool)
    ensures !r <==> machineType.Some? && vendor != "" && region != ""
  {
    !(machineType.Some? && vendor != "" && region != "")
  }

  /** With the button enabled a query is built, except for an Azure machine type that has no architecture. */
  lemma EnabledMeansQueried(machineType: Option<MachineType>, vendor: string, region: string)
    requires !ComputedDisabled(machineType, vendor, region)
    ensures QuerySkipped(vendor, region, machineType) <==> vendor == AZURE && Architecture(machineType) == ""
  {
  }

  /** The three rules every query starts with. */
  function BaseRules(vendor: string, platform: string): seq<Rule> {
    [Rule("vendor", EQ, Str(vendor)), Rule("type", EQ, Str("public")), Rule("os_type", EQ, Str(platform))]
  }

  /** The rules the `switch (vendor)` pushes. */
  function VendorRules(vendor: string, region: string, architecture: string): (r: seq<Rule>)
    ensures vendor == AWS ==> r == [Rule("extension.region", JSON_EQ, Str(region)), Rule("state", EQ, Str("available"))]
    ensures vendor == HUAWEI ==> r == [Rule("extension.region", JSON_EQ, Str(region))]
    ensures vendor == TCLOUD ==> r == [Rule("state", EQ, Str("NORMAL"))]
    ensures vendor == AZURE ==> r == [Rule("architecture", EQ, Str(architecture))]
    ensures vendor == GCP ==> r == [Rule("state", EQ, Str("READY"))]
    ensures vendor !in {AWS, HUAWEI, TCLOUD, AZURE, GCP} ==> r == []
    ensures |r| <= 2
  {
    if vendor == AWS then [Rule("extension.region", JSON_EQ, Str(region)), Rule("state", EQ, Str("available"))]
    else if vendor == HUAWEI then [Rule("extension.region", JSON_EQ, Str(region))]
    else if vendor == TCLOUD then [Rule("state", EQ, Str("NORMAL"))]
    else if vendor == AZURE then [Rule("architecture", EQ, Str(architecture))]
    else if vendor == GCP then [Rule("state", EQ, Str("READY"))]
    else []
  }

  /** The CS rule for one search chip; `None` when reading the first value's id throws. */
  function SearchRule(item: SearchItem): (r: Option<Rule>)
    ensures r.None? <==> item.values == Some([])
    ensures r.Some? ==> r.value.field == item.id && r.value.op == CS
    ensures item.values.None? ==> r == Some(Rule(item.id, CS, Undefined))
    ensures item.values.Some? && item.values.value != [] ==> r == Some(Rule(item.id, CS, Str(item.values.value[0].id)))
  {
    match item.values
    case None => Some(Rule(item.id, CS, Undefined))
    case Some(vs) => if vs == [] then None else Some(Rule(item.id, CS, Str(vs[0].id)))
  }

  /** The specification of the `for…of` loop: one rule per chip, in order, unless a chip throws. */
  function SearchRules(items: seq<SearchItem>): (r: Option<seq<Rule>>)
    ensures r.None? <==> exists i :: 0 <= i < |items| && SearchRule(items[i]).None?
    ensures r.Some? ==> |r.value| == |items| && forall i :: 0 <= i < |items| ==> Some(r.value[i]) == SearchRule(items[i])
  {
    if items == [] then Some([])
    else
      var head := SearchRule(items[0]);
      var tail := SearchRules(items[1..]);
      assert forall i :: 1 <= i < |items| ==> items[i] == items[1..][i - 1];
      if head.None? then None
      else if tail.None? then None
      else Some([head.value] + tail.value)
  }

  /** The specification of the filter built by the watcher. */
  function FilterRules(vendor: string, region: string, platform: string, architecture: string, items: seq<SearchItem>): Option<seq<Rule>> {
    var s := SearchRules(items);
    if s.None? then None else Some(BaseRules(vendor, platform) + VendorRules(vendor, region, architecture) + s.value)
  }

  /** The request always asks for the first 500 images without a count. */
  const ImagePage := Page(false, 0, 500)

  /** The rule list is the three base rules, then the vendor's rules, then one rule per search chip, in order. */
  lemma FilterRulesShape(vendor: string, region: string, platform: string, architecture: string, items: seq<SearchItem>)
    requires FilterRules(vendor, region, platform, architecture, items).Some?
    ensures var r := FilterRules(vendor, region, platform, architecture, items).value;
      var v := VendorRules(vendor, region, architecture);
      && |r| == 3 + |v| + |items|
      && r[0] == Rule("vendor", EQ, Str(vendor))
      && r[1] == Rule("type", EQ, Str("public"))
      && r[2] == Rule("os_type", EQ, Str(platform))
      && r[3..3 + |v|] == v
      && forall i :: 0 <= i < |items| ==> Some(r[3 + |v| + i]) == SearchRule(items[i])
  {
    var r := FilterRules(vendor, region, platform, architecture, items).value;
    var v := VendorRules(vendor, region, architecture);
    var s := SearchRules(items).value;
    assert r == BaseRules(vendor, platform) + v + s;
    forall i | 0 <= i < |items| ensures Some(r[3 + |v| + i]) == SearchRule(items[i]) {
      assert r[3 + |v| + i] == s[i];
    }
  }

  /** The filter construction as the watcher runs it: three base rules, a `switch` of pushes, then a `for…of` loop. */
  method BuildFilterRules(vendor: string, region: string, platform: string, machineType: Option<MachineType>,
                          searchVal: seq<SearchItem>) returns (rules: Option<seq<Rule>>)
    ensures rules == FilterRules(vendor, region, platform, Architecture(machineType), searchVal)
  {
    var filterRules := [Rule("vendor", EQ, Str(vendor)), Rule("type", EQ, Str("public")), Rule("os_type", EQ, Str(platform))];
    if vendor == AWS {
      filterRules := filterRules + [Rule("extension.region", JSON_EQ, Str(region)), Rule("state", EQ, Str("available"))];
    } else if vendor == HUAWEI {
      filterRules := filterRules + [Rule("extension.region", JSON_EQ, Str(region))];
    } else if vendor == TCLOUD {
      filterRules := filterRules + [Rule("state", EQ, Str("NORMAL"))];
    } else if vendor == AZURE {
      filterRules := filterRules + [Rule("architecture", EQ, Str(Architecture(machineType)))];
    } else if vendor == GCP {
      filterRules := filterRules + [Rule("state", EQ, Str("READY"))];
    }
    assert filterRules == BaseRules(vendor, platform) + VendorRules(vendor, region, Architecture(machineType));
    var searchFilterRules: seq<Rule> := [];
    var i := 0;
    while i < |searchVal|
      invariant 0 <= i <= |searchVal|
      invariant SearchRules(searchVal[..i]) == Some(searchFilterRules)
    {
      var item := searchVal[i];
      if item.values == Some([]) {
        // the loop throws: every later chip is irrelevant
        SearchRulesFailAt(searchVal, i);
        return None;
      }
      var value := if item.values.None? then Undefined else Str(item.values.value[0].id);
      SearchRulesSnoc(searchVal[..i], item);
      assert searchVal[..i + 1] == searchVal[..i] + [item];
      searchFilterRules := searchFilterRules + [Rule(item.id, CS, value)];
      i := i + 1;
    }
    assert searchVal[..i] == searchVal;
    rules := Some(filterRules + searchFilterRules);
  }

  lemma SearchRulesSnoc(items: seq<SearchItem>, item: SearchItem)
    requires SearchRules(items).Some? && SearchRule(item).Some?
    ensures SearchRules(items + [item]) == Some(SearchRules(items).value + [SearchRule(item).value])
  {
    var s := SearchRules(items + [item]);
    var want := SearchRules(items).value + [SearchRule(item).value];
    assert forall i :: 0 <= i < |items| ==> (items + [item])[i] == items[i];
    assert (items + [item])[|items|] == item;
    assert s.Some?;
    assert |s.value| == |want|;
    forall i | 0 <= i < |want| ensures s.value[i] == want[i] {
      if i < |items| {
        assert Some(s.value[i]) == SearchRule(items[i]);
      } else {
        assert Some(s.value[i]) == SearchRule(item);
      }
    }
    assert s.value == want;
  }

  lemma SearchRulesFailAt(items: seq<SearchItem>, i: nat)
    requires i < |items| && SearchRule(items[i]).None?
    ensures SearchRules(items).None?
  {
  }

  class Selector {
    var list: seq<Image>
    var loading: bool
    var isDialogShow: bool
    var checkedImageId: string
    var selectedPlatform: string
    var searchVal: seq<SearchItem>
    /** `selected`: the `modelValue` the component reports to its parent. */
    var selected: string

    constructor (modelValue: string)
      ensures list == [] && !loading && !isDialogShow && checkedImageId == ""
      ensures selectedPlatform == "Linux" && searchVal == [] && selected == modelValue
    {
      list := [];
      loading := false;
      isDialogShow := false;
      checkedImageId := "";
      selectedPlatform := "Linux";
      searchVal := [];
      selected := modelValue;
    }

    /** The `watch` callback over vendor, region, machine type, platform and search chips. */
    method OnSourcesChange(vendor: string, region: string, machineType: Option<MachineType>) returns (outcome: WatchOutcome)
      modifies this`list, this`loading
      ensures QuerySkipped(vendor, region, machineType) ==>
        outcome == Cleared && list == [] && loading == old(loading)
      ensures !QuerySkipped(vendor, region, machineType) ==> loading && list == old(list)
      ensures !QuerySkipped(vendor, region, machineType) ==>
        var rules := FilterRules(vendor, region, selectedPlatform, Architecture(machineType), searchVal);
        (rules.None? ==> outcome == Threw) && (rules.Some? ==> outcome == Requested(ListRequest("and", rules.value, ImagePage)))
    {
      if QuerySkipped(vendor, region, machineType) {
        list := [];
        return Cleared;
      }
      loading := true;
      var rules := BuildFilterRules(vendor, region, selectedPlatform, machineType, searchVal);
      if rules.None? {
        return Threw;
      }
      outcome := Requested(ListRequest("and", rules.value, ImagePage));
    }

    /** The awaited response: its `details`, or nothing, replace the list whichever request it answers. */
    method ReceiveListResponse(details: Option<seq<Image>>)
      modifies this`list, this`loading
      ensures list == (if details.Some? then details.value else []) && !loading
    {
      list := details.GetOr([]);
      loading := false;
    }

    /** The dialog's `onConfirm`. */
    method Confirm()
      modifies this`selected, this`isDialogShow
      ensures selected == checkedImageId && !isDialogShow
    {
      selected := checkedImageId;
      isDialogShow := false;
    }
  }

  /**
   * Responses are applied in arrival order: when the answer to an older query
   * arrives after the answer to a newer one, the older list is what stays.
   */
  method LateResponseWins(s: Selector, newer: seq<Image>, older: seq<Image>)
    modifies s`list, s`loading
    ensures s.list == older && !s.loading
  {
    s.ReceiveListResponse(Some(newer));
    s.ReceiveListResponse(Some(older));
  }
}
