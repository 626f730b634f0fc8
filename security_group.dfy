/**
 * Request validators of the cloud-server security-group API: the guard-clause
 * `Validate` methods of `SecurityGroupUpdateReq`, `AssignSecurityGroupToBizReq`
 * and `SecurityGroupRuleCreateReq`.
 *
 * A Go `error` result is modelled as `Option<...Error>`: `None` is `nil`.
 * The foreign checks `validator.ValidateSecurityGroupName` and
 * `validator.ValidateSecurityGroupMemo` are parameters (`true` = accepted), and
 * so is the constant `constant.BatchOperationMaxLimit`.
 */
module SecurityGroup {
  import opened Wrappers

  // ---------------------------------------------------------------- Update

  /** `SecurityGroupUpdateReq`: `Memo` is a `*string`, so it may be absent (nil). */
  datatype UpdateReq = UpdateReq(name: string, memo: Option<string>)

  datatype UpdateError =
    | NameOrMemoRequired   // "name or memo is required"
    | InvalidName          // the error returned by ValidateSecurityGroupName
    | InvalidMemo          // the error returned by ValidateSecurityGroupMemo

  /** `SecurityGroupUpdateReq.Validate`: at least one of name and memo, then the name check, then the memo check. */
  function ValidateUpdate(req: UpdateReq, nameOk: string -> bool, memoOk: string -> bool): (r: Option<UpdateError>)
    // accepted exactly when something is to be updated and every given part passes its check
    ensures r.None? <==>
      && (req.name != [] || req.memo.Some?)
      && (req.name != [] ==> nameOk(req.name))
      && (req.memo.Some? ==> memoOk(req.memo.value))
    ensures r == Some(NameOrMemoRequired) <==> req.name == [] && req.memo.None?
    // an empty name is never checked; a bad non-empty name wins over a bad memo
    ensures r == Some(InvalidName) <==> req.name != [] && !nameOk(req.name)
    ensures r == Some(InvalidMemo) <==>
      && (req.name != [] ==> nameOk(req.name))
      && req.memo.Some? && !memoOk(req.memo.value)
  {
    if req.name == [] && req.memo.None? then Some(NameOrMemoRequired)
    else if req.name != [] && !nameOk(req.name) then Some(InvalidName)
    else if req.memo.Some? && !memoOk(req.memo.value) then Some(InvalidMemo)
    else None
  }

  /** A memo-only update never consults the name check, whatever it would say. */
  lemma EmptyNameSkipsNameCheck(memo: string, nameOk1: string -> bool, nameOk2: string -> bool, memoOk: string -> bool)
    ensures ValidateUpdate(UpdateReq([], Some(memo)), nameOk1, memoOk)
         == ValidateUpdate(UpdateReq([], Some(memo)), nameOk2, memoOk)
  {
  }

  // ---------------------------------------------------- Assign to business

  /**
   * `AssignSecurityGroupToBizReq`. `SecurityGroupIDs` is a Go slice, which may
   * be nil (`None`: the key was absent) or empty but present (`Some([])`).
   */
  datatype AssignReq = AssignReq(bkBizId: int, securityGroupIds: Option<seq<string>>)

  /** Fields named by a failing `validate:"required"` tag, in declaration order. */
  datatype AssignField = BkBizIdField | SecurityGroupIdsField

  datatype AssignError =
    | AssignStructInvalid(fields: seq<AssignField>)  // validator.Validate.Struct
    | BizIdNotPositive                                // "bk_biz_id should >= 0"
    | IdsRequired                                     // "security group ids is required"
    | TooManyIds(limit: int)                          // "security group ids should <= %d"

  /**
   * The `required` tags (pkg/api/cloud-server/security_group.go:101-102): an
   * integer must be non-zero, a slice must be non-nil.
   */
  function AssignTagViolations(req: AssignReq): (r: seq<AssignField>)
    ensures BkBizIdField in r <==> req.bkBizId == 0
    ensures SecurityGroupIdsField in r <==> req.securityGroupIds.None?
    ensures |r| <= 2 && (|r| == 2 ==> r == [BkBizIdField, SecurityGroupIdsField])
  {
    (if req.bkBizId == 0 then [BkBizIdField] else [])
    + (if req.securityGroupIds.None? then [SecurityGroupIdsField] else [])
  }

  /** `AssignSecurityGroupToBizReq.Validate`. */
  function ValidateAssign(req: AssignReq, batchOperationMaxLimit: int): (r: Option<AssignError>)
    ensures r.None? <==>
      && req.bkBizId > 0
      && req.securityGroupIds.Some?
      && 0 < |req.securityGroupIds.value| <= batchOperationMaxLimit
    // the order of the checks decides which error is reported
    ensures r.Some? && r.value.AssignStructInvalid? <==> req.bkBizId == 0 || req.securityGroupIds.None?
    ensures r == Some(BizIdNotPositive) <==> req.bkBizId < 0 && req.securityGroupIds.Some?
    ensures r == Some(IdsRequired) <==> req.bkBizId > 0 && req.securityGroupIds == Some([])
    ensures r.Some? && r.value.TooManyIds? ==> r.value.limit == batchOperationMaxLimit
    ensures r.Some? && r.value.TooManyIds? <==>
      req.bkBizId > 0 && req.securityGroupIds.Some? && |req.securityGroupIds.value| > batchOperationMaxLimit
        && req.securityGroupIds != Some([])
  {
    var tags := AssignTagViolations(req);
    if tags != [] then Some(AssignStructInvalid(tags))
    else if req.bkBizId <= 0 then Some(BizIdNotPositive)
    else if |req.securityGroupIds.value| == 0 then Some(IdsRequired)
    else if |req.securityGroupIds.value| > batchOperationMaxLimit then Some(TooManyIds(batchOperationMaxLimit))
    else None
  }

  /** A business id of 0 is refused, although the message speaks of ">= 0". */
  lemma ZeroBizIdRejected(ids: Option<seq<string>>, batchOperationMaxLimit: int)
    ensures ValidateAssign(AssignReq(0, ids), batchOperationMaxLimit).Some?
  {
  }

  /** The limit is inclusive: a list of exactly `BatchOperationMaxLimit` ids passes, one more fails. */
  lemma BatchLimitInclusive(bizId: int, ids: seq<string>, extra: string)
    requires bizId > 0 && |ids| > 0
    ensures ValidateAssign(AssignReq(bizId, Some(ids)), |ids|).None?
    ensures ValidateAssign(AssignReq(bizId, Some(ids + [extra])), |ids|) == Some(TooManyIds(|ids|))
  {
  }

  // ----------------------------------------------------------- Rule create

  /** `SecurityGroupRuleCreateReq[T]`: the vendor-specific rule type is generic. */
  datatype RuleCreateReq<T> = RuleCreateReq(egressRuleSet: seq<T>, ingressRuleSet: seq<T>)

  datatype RuleCreateError =
    | RuleRequired     // "egress rule or ingress rule is required"
    | OnlyOneAllowed   // "egress rule or ingress rule only one is allowed"

  /** `SecurityGroupRuleCreateReq.Validate`: exactly one of the two rule sets is non-empty. */
  function ValidateRuleCreate<T>(req: RuleCreateReq<T>): (r: Option<RuleCreateError>)
    ensures r.None? <==> (|req.egressRuleSet| == 0) != (|req.ingressRuleSet| == 0)
    ensures r == Some(RuleRequired) <==> |req.egressRuleSet| == 0 && |req.ingressRuleSet| == 0
    ensures r == Some(OnlyOneAllowed) <==> |req.egressRuleSet| != 0 && |req.ingressRuleSet| != 0
  {
    if |req.egressRuleSet| == 0 && |req.ingressRuleSet| == 0 then Some(RuleRequired)
    else if |req.egressRuleSet| != 0 && |req.ingressRuleSet| != 0 then Some(OnlyOneAllowed)
    else None
  }

  /** Swapping the directions of a request never changes the verdict. */
  lemma RuleCreateSymmetric<T>(egress: seq<T>, ingress: seq<T>)
    ensures ValidateRuleCreate(RuleCreateReq(egress, ingress)) == ValidateRuleCreate(RuleCreateReq(ingress, egress))
  {
  }
}
