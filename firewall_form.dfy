/**
 * The GCP firewall rule form: its initial model, the allow/deny toggle that
 * moves the single draft protocol-and-port entry between `allowed` and
 * `denied`, the protocol and IP-type watchers, the protocol option lists and
 * the normalisation done by `handleSubmit` before the rule is sent.
 *
 * The draft entry is one object (`protocolAndPorts`) that the toggle pushes
 * into whichever list is active, so the list element and the draft are the
 * same object here too. A Vue watcher runs when its source changes value; each
 * setter method below changes the source and then runs the watcher if the
 * value changed.
 */
module FirewallForm {
  import opened Wrappers

  datatype Direction = Egress | Ingress   // 'EGRESS' / 'INGRESS'
  datatype IpType = IPv4 | IPv6           // 'IPv4' / 'IPv6'

  const ALL := "all"
  const TCP := "tcp"
  const UDP := "udp"
  const ICMP := "icmp"
  const ICMPV6 := "58"
  const GCP := "gcp"

  /** `ProtocolAndPorts.port`: `string | Array<string>`; submit rewrites a string into an array in place. */
  datatype Port = Text(s: string) | List(items: seq<Port>) {
    /** JavaScript `.length` of either form. */
    function Length(): nat {
      if Text? then |s| else |items|
    }
  }

  /** `port.length ? [port] : []`: a non-empty port becomes the one element of a list, an empty one an empty list. */
  function NormalisedPort(p: Port): (r: Port)
    ensures r.List? && |r.items| <= 1
    ensures r.items != [] <==> p.Length() > 0
    ensures r.items != [] ==> r.items[0] == p
  {
    if p.Length() > 0 then List([p]) else List([])
  }

  /** The rewrite is not idempotent: a port already turned into a list is wrapped once more. */
  lemma NormaliseTwiceWrapsAgain(s: string)
    requires s != ""
    ensures NormalisedPort(NormalisedPort(Text(s))) == List([List([Text(s)])])
    ensures NormalisedPort(NormalisedPort(Text(s))) != NormalisedPort(Text(s))
  {
    assert NormalisedPort(Text(s)) == List([Text(s)]);
    assert NormalisedPort(Text(s)).Length() == 1;
  }

  /** The shared draft entry `protocolAndPorts`. */
  class ProtocolAndPorts {
    var protocol: string
    var port: Port

    constructor (protocol: string, port: Port)
      ensures this.protocol == protocol && this.port == port
    {
      this.protocol := protocol;
      this.port := port;
    }
  }

  /** Every field of the form model except the two protocol lists. */
  datatype RuleFields = RuleFields(
    accountId: int,
    vendor: string,
    name: string,
    cloudVpcId: string,
    direction: Direction,
    priority: int,
    sourceTags: seq<string>,
    targetTags: seq<string>,
    sourceRanges: seq<string>,
    destinationRanges: seq<string>,
    disabled: bool,
    memo: string,
    id: string)

  /** `_formModel` without `allowed` and `denied` (both `[]` there). */
  const DefaultFields := RuleFields(0, GCP, "", "", Egress, 0, [], [], [], [], true, "", "")

  /** One protocol entry of an existing rule, as the server returns it (ports as a list). */
  datatype DetailEntry = DetailEntry(protocol: string, port: seq<string>)

  /** The `detail` prop: `None` is its default `{}`. */
  datatype RuleDetail = RuleDetail(fields: RuleFields, allowed: seq<DetailEntry>, denied: seq<DetailEntry>)

  /** `{..._formModel, ...(isEdit ? detail : {})}` without the lists. */
  function InitialFields(isEdit: bool, detail: Option<RuleDetail>): (r: RuleFields)
    ensures !isEdit || detail.None? ==> r == DefaultFields
    ensures isEdit && detail.Some? ==> r == detail.value.fields
  {
    if isEdit && detail.Some? then detail.value.fields else DefaultFields
  }

  /** `allowed` of the spread model, which `is_rule_allowed` reads before the toggle watcher replaces it. */
  function InitialAllowed(isEdit: bool, detail: Option<RuleDetail>): (r: seq<DetailEntry>)
    ensures !isEdit || detail.None? ==> r == []
    ensures isEdit && detail.Some? ==> r == detail.value.allowed
  {
    if isEdit && detail.Some? then detail.value.allowed else []
  }

  /** `a || b` on strings: the empty string and undefined are falsy. */
  function OrElse(a: string, b: string): string {
    if a != "" then a else b
  }

  function FirstProtocol(es: seq<DetailEntry>): string {
    if |es| > 0 then es[0].protocol else ""
  }

  function FirstPort(es: seq<DetailEntry>): string {
    if |es| > 0 && |es[0].port| > 0 then es[0].port[0] else ""
  }

  /**
   * The draft's initial protocol, read from `detail` whether or not the form edits:
   * the first allowed entry's, else the first denied entry's, else empty.
   */
  function InitialDraftProtocol(detail: Option<RuleDetail>): (r: string)
    ensures detail.None? ==> r == ""
    ensures detail.Some? && FirstProtocol(detail.value.allowed) != "" ==> r == detail.value.allowed[0].protocol
    ensures detail.Some? && FirstProtocol(detail.value.allowed) == "" ==> r == FirstProtocol(detail.value.denied)
  {
    if detail.None? then "" else OrElse(FirstProtocol(detail.value.allowed), OrElse(FirstProtocol(detail.value.denied), ""))
  }

  /** The draft's initial port; chosen independently of the protocol, so it may come from the other list. */
  function InitialDraftPort(detail: Option<RuleDetail>): (r: string)
    ensures detail.None? ==> r == ""
    ensures detail.Some? && FirstPort(detail.value.allowed) != "" ==> r == detail.value.allowed[0].port[0]
    ensures detail.Some? && FirstPort(detail.value.allowed) == "" ==> r == FirstPort(detail.value.denied)
  {
    if detail.None? then "" else OrElse(FirstPort(detail.value.allowed), OrElse(FirstPort(detail.value.denied), ""))
  }

  /** The protocols whose selection disables the port input (the switch ignores the IP type). */
  predicate PortsDisabledFor(protocol: string) {
    protocol == ALL || protocol == ICMP || protocol == ICMPV6
  }

  datatype ProtocolOption = ProtocolOption(key: string, value: string)

  /** The protocol select's options: `Protocols` followed by the IP type's special protocol. */
  function ProtocolOptions(t: IpType): (r: seq<ProtocolOption>)
    ensures |r| == 4
    ensures r[..3] == [ProtocolOption("ALL", ALL), ProtocolOption("TCP", TCP), ProtocolOption("UDP", UDP)]
    ensures t == IPv4 ==> r[3] == ProtocolOption("ICMP", ICMP)
    ensures t == IPv6 ==> r[3] == ProtocolOption("ICMPV6", ICMPV6)
  {
    var common := [ProtocolOption("ALL", ALL), ProtocolOption("TCP", TCP), ProtocolOption("UDP", UDP)];
    match t
    case IPv4 => common + [ProtocolOption("ICMP", ICMP)]
    case IPv6 => common + [ProtocolOption("ICMPV6", ICMPV6)]
  }

  /** Of the offered protocols, exactly TCP and UDP leave the port input enabled; icmp is IPv4-only, 58 IPv6-only. */
  lemma OfferedProtocolsAndPorts(t: IpType)
    ensures forall o :: o in ProtocolOptions(t) ==> (PortsDisabledFor(o.value) <==> o.value != TCP && o.value != UDP)
    ensures (exists o :: o in ProtocolOptions(t) && o.value == ICMP) <==> t == IPv4
    ensures (exists o :: o in ProtocolOptions(t) && o.value == ICMPV6) <==> t == IPv6
  {
    var r := ProtocolOptions(t);
    assert r == r[..3] + [r[3]];
    if t == IPv4 {
      assert r[3].value == ICMP;
    } else {
      assert r[3].value == ICMPV6;
    }
  }

  /** The rendered parts that appear conditionally. */
  datatype FirewallItem = SourceMarkToggle | SourceTagsInput | TargetTagsInput

  /** Visibility in the template: the source-mark toggle for ingress rules, each tag input after its flag. */
  predicate ItemShown(item: FirewallItem, direction: Direction, isSourceMarked: bool, isDestinationMarked: bool) {
    match item
    case SourceMarkToggle => direction == Ingress
    case SourceTagsInput => isSourceMarked
    case TargetTagsInput => isDestinationMarked
  }

  /** The source-tag input follows its flag alone: an egress rule with the flag set shows it without its toggle. */
  lemma SourceTagsWithoutToggle()
    ensures ItemShown(SourceTagsInput, Egress, true, false) && !ItemShown(SourceMarkToggle, Egress, true, false)
  {
  }

  /** What the form shows when it opens: the flags come from the lengths of the initial tags and ranges. */
  predicate InitiallyShown(item: FirewallItem, isEdit: bool, detail: Option<RuleDetail>) {
    var f := InitialFields(isEdit, detail);
    ItemShown(item, f.direction, |f.sourceTags| > 0, |f.destinationRanges| > 0)
  }

  /**
   * A new rule opens as an egress rule with neither tag input. An edited rule
   * shows the toggle iff it is ingress and the source-tag input iff it has
   * source tags; its target-tag input follows whether it has destination
   * ranges, whatever its target tags.
   */
  lemma InitialVisibility(isEdit: bool, detail: Option<RuleDetail>)
    ensures !isEdit || detail.None? ==>
      && !InitiallyShown(SourceMarkToggle, isEdit, detail)
      && !InitiallyShown(SourceTagsInput, isEdit, detail)
      && !InitiallyShown(TargetTagsInput, isEdit, detail)
    ensures isEdit && detail.Some? ==>
      && (InitiallyShown(SourceMarkToggle, isEdit, detail) <==> detail.value.fields.direction == Ingress)
      && (InitiallyShown(SourceTagsInput, isEdit, detail) <==> detail.value.fields.sourceTags != [])
      && (InitiallyShown(TargetTagsInput, isEdit, detail) <==> detail.value.fields.destinationRanges != [])
  {
  }

  /** One entry of the request body. */
  datatype PayloadEntry = PayloadEntry(protocol: string, port: Port)

  /** The request body; a `None` list is a deleted key. */
  datatype RulePayload = RulePayload(fields: RuleFields, allowed: Option<seq<PayloadEntry>>, denied: Option<seq<PayloadEntry>>)

  function Entries(es: seq<ProtocolAndPorts>): (r: seq<PayloadEntry>)
    reads set i | 0 <= i < |es| :: es[i]
    ensures |r| == |es|
    ensures forall i :: 0 <= i < |es| ==> r[i] == PayloadEntry(es[i].protocol, es[i].port)
  {
    if es == [] then [] else [PayloadEntry(es[0].protocol, es[0].port)] + Entries(es[1..])
  }

  lemma EntriesOfDraft(draft: ProtocolAndPorts)
    ensures Entries([draft]) == [PayloadEntry(draft.protocol, draft.port)]
  {
    var e := Entries([draft]);
    assert |e| == 1 && e[0] == PayloadEntry(draft.protocol, draft.port);
  }

  predicate EmptyOrDeleted(l: Option<seq<ProtocolAndPorts>>) {
    l == Some([]) || l.None?
  }

  /** `handleSubmit`'s `forEach`: rewrite each entry's port in place. */
  method NormalisePorts(entries: seq<ProtocolAndPorts>)
    requires forall i, j :: 0 <= i < j < |entries| ==> entries[i] != entries[j]
    modifies set i | 0 <= i < |entries| :: entries[i]
    ensures forall i :: 0 <= i < |entries| ==>
      entries[i].port == NormalisedPort(old(entries[i].port)) && entries[i].protocol == old(entries[i].protocol)
  {
    for i := 0 to |entries|
      invariant forall k :: 0 <= k < i ==>
        entries[k].port == NormalisedPort(old(entries[k].port)) && entries[k].protocol == old(entries[k].protocol)
      invariant forall k :: i <= k < |entries| ==>
        entries[k].port == old(entries[k].port) && entries[k].protocol == old(entries[k].protocol)
    {
      entries[i].port := NormalisedPort(entries[i].port);
    }
  }

  class Form {
    var fields: RuleFields
    var allowed: Option<seq<ProtocolAndPorts>>
    var denied: Option<seq<ProtocolAndPorts>>
    const draft: ProtocolAndPorts
    var ipType: IpType
    var isSourceMarked: bool
    var isDestinationMarked: bool
    var isRuleAllowed: bool
    var isPortsDisabled: bool

    /** The list chosen by the toggle holds the draft alone; the other is empty (or deleted by a submit). */
    ghost predicate Valid()
      reads this
    {
      if isRuleAllowed then allowed == Some([draft]) && EmptyOrDeleted(denied)
      else denied == Some([draft]) && EmptyOrDeleted(allowed)
    }

    /**
     * `setup`: the spread model, the initial refs and the `immediate` run of the
     * toggle watcher. `isIpv6Cidr` stands for `validateIpCidr(...) === 'ipv6'`.
     */
    constructor (isEdit: bool, detail: Option<RuleDetail>, isIpv6Cidr: Option<string> -> bool)
      ensures Valid() && fresh(draft)
      ensures fields == InitialFields(isEdit, detail)
      ensures ipType == (if isIpv6Cidr(if |fields.destinationRanges| > 0 then Some(fields.destinationRanges[0]) else None)
                         then IPv6 else IPv4)
      ensures isSourceMarked == (|fields.sourceTags| > 0)
      ensures isDestinationMarked == (|fields.destinationRanges| > 0)
      ensures isRuleAllowed == (|InitialAllowed(isEdit, detail)| > 0)
      ensures allowed == Some(if isRuleAllowed then [draft] else [])
      ensures denied == Some(if isRuleAllowed then [] else [draft])
      ensures draft.protocol == InitialDraftProtocol(detail) && draft.port == Text(InitialDraftPort(detail))
      ensures !isPortsDisabled
      ensures forall item :: ItemShown(item, fields.direction, isSourceMarked, isDestinationMarked)
                             <==> InitiallyShown(item, isEdit, detail)
    {
      var f := InitialFields(isEdit, detail);
      fields := f;
      ipType := if isIpv6Cidr(if |f.destinationRanges| > 0 then Some(f.destinationRanges[0]) else None)
                then IPv6 else IPv4;
      isSourceMarked := |f.sourceTags| > 0;
      isDestinationMarked := |f.destinationRanges| > 0;
      isRuleAllowed := |InitialAllowed(isEdit, detail)| > 0;
      draft := new ProtocolAndPorts(InitialDraftProtocol(detail), Text(InitialDraftPort(detail)));
      isPortsDisabled := false;
      allowed := None;
      denied := None;
      new;
      RuleAllowedWatcher();
    }

    /** The body of the `is_rule_allowed` watcher. */
    method RuleAllowedWatcher()
      modifies this`allowed, this`denied
      ensures Valid()
      ensures allowed == Some(if isRuleAllowed then [draft] else [])
      ensures denied == Some(if isRuleAllowed then [] else [draft])
    {
      allowed := Some([]);
      denied := Some([]);
      // `push` onto the list just emptied
      if isRuleAllowed {
        allowed := Some([draft]);
      } else {
        denied := Some([draft]);
      }
    }

    /** The allow/deny radio: moves the draft to the chosen list when the choice changes. */
    method SetRuleAllowed(b: bool)
      requires Valid()
      modifies this`isRuleAllowed, this`allowed, this`denied
      ensures Valid() && isRuleAllowed == b
      ensures b != old(isRuleAllowed) ==>
        allowed == Some(if b then [draft] else []) && denied == Some(if b then [] else [draft])
      ensures b == old(isRuleAllowed) ==> allowed == old(allowed) && denied == old(denied)
    {
      if b != isRuleAllowed {
        isRuleAllowed := b;
        RuleAllowedWatcher();
      }
    }

    /** The protocol select and its watcher: a new protocol clears the port and decides whether ports are disabled. */
    method SetProtocol(p: string)
      modifies draft, this`isPortsDisabled
      ensures draft.protocol == p
      ensures p != old(draft.protocol) ==> draft.port == Text("") && isPortsDisabled == PortsDisabledFor(p)
      ensures p == old(draft.protocol) ==> draft.port == old(draft.port) && isPortsDisabled == old(isPortsDisabled)
    {
      if p != draft.protocol {
        draft.protocol := p;
        draft.port := Text("");
        isPortsDisabled := PortsDisabledFor(p);
      }
    }

    /** The port input (`v-model`). */
    method SetPort(s: string)
      modifies draft`port
      ensures draft.port == Text(s)
    {
      draft.port := Text(s);
    }

    /**
     * The IP-type select and its watcher: a new type clears port and protocol;
     * clearing a non-empty protocol then runs the protocol watcher, which
     * enables the ports again.
     */
    method SetIpType(t: IpType)
      modifies this`ipType, draft, this`isPortsDisabled
      ensures ipType == t
      ensures t != old(ipType) ==>
        && draft.protocol == "" && draft.port == Text("")
        && isPortsDisabled == (if old(draft.protocol) != "" then false else old(isPortsDisabled))
      ensures t == old(ipType) ==>
        draft.protocol == old(draft.protocol) && draft.port == old(draft.port) && isPortsDisabled == old(isPortsDisabled)
    {
      if t != ipType {
        ipType := t;
        draft.port := Text("");
        SetProtocol("");
      }
    }

    /** The request body as it stands. */
    function Payload(): (r: RulePayload)
      requires Valid()
      reads this, draft
      ensures r.fields == fields
      ensures isRuleAllowed ==>
        (r.allowed == Some([PayloadEntry(draft.protocol, draft.port)])
         && (r.denied == Some([]) <==> denied == Some([])) && (r.denied.None? <==> denied.None?))
      ensures !isRuleAllowed ==>
        (r.denied == Some([PayloadEntry(draft.protocol, draft.port)])
         && (r.allowed == Some([]) <==> allowed == Some([])) && (r.allowed.None? <==> allowed.None?))
    {
      var a := if allowed.Some? then Some(Entries(allowed.value)) else None;
      var d := if denied.Some? then Some(Entries(denied.value)) else None;
      EntriesOfDraft(draft);
      RulePayload(fields, a, d)
    }

    /**
     * The normalisation part of `handleSubmit`: each entry's port becomes a
     * list, and an empty list is deleted from the model. The request itself
     * is not part of this model.
     */
    method Submit()
      requires Valid()
      modifies this`allowed, this`denied, draft
      ensures Valid() && draft.protocol == old(draft.protocol)
      ensures allowed == (if old(allowed).Some? && |old(allowed).value| > 0 then old(allowed) else None)
      ensures denied == (if old(denied).Some? && |old(denied).value| > 0 then old(denied) else None)
      ensures draft.port == NormalisedPort(old(draft.port))
      ensures Payload() == RulePayload(
        fields,
        if isRuleAllowed then Some([PayloadEntry(draft.protocol, NormalisedPort(old(draft.port)))]) else None,
        if isRuleAllowed then None else Some([PayloadEntry(draft.protocol, NormalisedPort(old(draft.port)))]))
    {
      if allowed.Some? && |allowed.value| > 0 {
        assert allowed.value == [draft] && allowed.value[0] == draft;
        NormalisePorts(allowed.value);
      } else {
        allowed := None;
      }
      if denied.Some? && |denied.value| > 0 {
        assert denied.value == [draft] && denied.value[0] == draft;
        NormalisePorts(denied.value);
      } else {
        denied := None;
      }
    }
  }

  /** Toggling twice brings the draft back to the first list, with the other list empty again. */
  method ToggleTwice(f: Form)
    requires f.Valid()
    modifies f
    ensures f.Valid() && f.isRuleAllowed == old(f.isRuleAllowed)
    ensures f.allowed == Some(if f.isRuleAllowed then [f.draft] else [])
    ensures f.denied == Some(if f.isRuleAllowed then [] else [f.draft])
  {
    f.SetRuleAllowed(!f.isRuleAllowed);
    f.SetRuleAllowed(!f.isRuleAllowed);
  }
}
