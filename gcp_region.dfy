/**
 * The `gcp_region` table record and its two validators, `InsertValidate` and
 * `UpdateValidate`. Both are value-receiver Go methods, so they are functions
 * of the record here and cannot change it.
 *
 * `enumor.Vendor.Validate` is foreign and is the parameter `vendorOk`.
 * `validator.Validate.Struct` is modelled by the tags written on the struct:
 * `len=0`, `max=N` (a string of at most N characters), `min=-1` (an integer of
 * at least -1); `validate:"-"` on Vendor means the field is not checked.
 */
module GcpRegion {
  import opened Wrappers

  /** `GcpRegionTable`; the two timestamps are opaque instants. */
  datatype GcpRegionTable = GcpRegionTable(
    id: string,
    vendor: string,
    regionId: string,
    regionName: string,
    isAvailable: int,
    creator: string,
    reviser: string,
    createdAt: Option<int>,
    updatedAt: Option<int>)

  /** The fields that carry a checked tag, in declaration order. */
  datatype Field = Id | RegionId | RegionName | IsAvailable | Creator | Reviser

  function FieldIndex(f: Field): nat {
    match f
    case Id => 0
    case RegionId => 1
    case RegionName => 2
    case IsAvailable => 3
    case Creator => 4
    case Reviser => 5
  }

  const RegionIdMaxLength := 32
  const NameMaxLength := 64
  const IsAvailableMin := -1

  /** The tag written on field `f` holds for `v`. */
  predicate TagHolds(v: GcpRegionTable, f: Field) {
    match f
    case Id => |v.id| == 0
    case RegionId => |v.regionId| <= RegionIdMaxLength
    case RegionName => |v.regionName| <= NameMaxLength
    case IsAvailable => v.isAvailable >= IsAvailableMin
    case Creator => |v.creator| <= NameMaxLength
    case Reviser => |v.reviser| <= NameMaxLength
  }

  /** Every tagged field, in declaration order. */
  const AllFields: seq<Field> := [Id, RegionId, RegionName, IsAvailable, Creator, Reviser]

  /** Strictly increasing in declaration order: each field at most once, in struct order. */
  predicate InFieldOrder(fs: seq<Field>) {
    forall i, j :: 0 <= i < j < |fs| ==> FieldIndex(fs[i]) < FieldIndex(fs[j])
  }

  /** The fields of `fs` whose tag fails for `v`, in the order of `fs`. */
  function FailingAmong(v: GcpRegionTable, fs: seq<Field>): (r: seq<Field>)
    ensures forall f :: f in r <==> f in fs && !TagHolds(v, f)
    ensures InFieldOrder(fs) ==> InFieldOrder(r)
  {
    if fs == [] then []
    else
      var rest := FailingAmong(v, fs[1..]);
      assert forall f :: f in fs[1..] ==> f in fs;
      assert InFieldOrder(fs) ==> forall f :: f in rest ==> FieldIndex(fs[0]) < FieldIndex(f) by {
        if InFieldOrder(fs) {
          forall f | f in rest ensures FieldIndex(fs[0]) < FieldIndex(f) {
            var j :| 0 <= j < |fs[1..]| && fs[1..][j] == f;
            assert fs[j + 1] == f;
          }
        }
      }
      if TagHolds(v, fs[0]) then rest else [fs[0]] + rest
  }

  lemma EveryFieldListed(f: Field)
    ensures f in AllFields
  {
    match f
    case Id => assert AllFields[0] == f;
    case RegionId => assert AllFields[1] == f;
    case RegionName => assert AllFields[2] == f;
    case IsAvailable => assert AllFields[3] == f;
    case Creator => assert AllFields[4] == f;
    case Reviser => assert AllFields[5] == f;
  }

  /** The fields whose tag fails, as the struct validator reports them. */
  function TagViolations(v: GcpRegionTable): (r: seq<Field>)
    ensures forall f :: f in r <==> !TagHolds(v, f)
    ensures InFieldOrder(r)
  {
    forall f: Field ensures f in AllFields {
      EveryFieldListed(f);
    }
    FailingAmong(v, AllFields)
  }

  /** `validator.Validate.Struct(v)` succeeds. */
  predicate StructValid(v: GcpRegionTable) {
    TagViolations(v) == []
  }

  lemma StructValidMeans(v: GcpRegionTable)
    ensures StructValid(v) <==>
      && |v.id| == 0
      && |v.regionId| <= 32
      && |v.regionName| <= 64 && |v.creator| <= 64 && |v.reviser| <= 64
      && v.isAvailable >= -1
  {
    if !StructValid(v) {
      var f := TagViolations(v)[0];
      assert !TagHolds(v, f);
    } else {
      forall f: Field ensures TagHolds(v, f) {
        assert f !in TagViolations(v);
      }
      assert TagHolds(v, Id) && TagHolds(v, RegionId) && TagHolds(v, RegionName);
      assert TagHolds(v, IsAvailable) && TagHolds(v, Creator) && TagHolds(v, Reviser);
    }
  }

  function StructCheck(v: GcpRegionTable): (r: Option<RegionError>)
    ensures r.None? <==> StructValid(v)
    ensures r.Some? ==> r.value == TagInvalid(TagViolations(v))
  {
    var fs := TagViolations(v);
    if fs == [] then None else Some(TagInvalid(fs))
  }

  datatype RegionError =
    | VendorInvalid              // the error of Vendor.Validate
    | VendorEmpty                // "vendor can not be empty"
    | RegionIdEmpty              // "region id can not be empty"
    | CreatorEmpty               // "creator can not be empty"
    | CreatorNotUpdatable        // "creator can not update"
    | ReviserEmpty               // "reviser can not be empty"
    | TagInvalid(fields: seq<Field>)

  /** `GcpRegionTable.InsertValidate`. */
  function InsertValidate(v: GcpRegionTable, vendorOk: string -> bool): (r: Option<RegionError>)
    ensures r.None? <==>
      vendorOk(v.vendor) && v.vendor != [] && v.regionId != [] && v.creator != [] && StructValid(v)
    // the checks run in order; the first failing one is reported
    ensures r == Some(VendorInvalid) <==> !vendorOk(v.vendor)
    ensures r == Some(VendorEmpty) <==> vendorOk(v.vendor) && v.vendor == []
    ensures r == Some(RegionIdEmpty) <==> vendorOk(v.vendor) && v.vendor != [] && v.regionId == []
    ensures r == Some(CreatorEmpty) <==>
      vendorOk(v.vendor) && v.vendor != [] && v.regionId != [] && v.creator == []
    ensures r.Some? && r.value.TagInvalid? <==>
      vendorOk(v.vendor) && v.vendor != [] && v.regionId != [] && v.creator != [] && !StructValid(v)
  {
    if !vendorOk(v.vendor) then Some(VendorInvalid)
    else if |v.vendor| == 0 then Some(VendorEmpty)
    else if |v.regionId| == 0 then Some(RegionIdEmpty)
    else if |v.creator| == 0 then Some(CreatorEmpty)
    else StructCheck(v)
  }

  /** The guards of `UpdateValidate` before its final struct check. */
  function UpdateGuards(v: GcpRegionTable): (r: Option<RegionError>)
    ensures r.None? <==> StructValid(v) && v.vendor != [] && v.creator == [] && v.reviser != []
    ensures r.Some? && r.value.TagInvalid? <==> !StructValid(v)
    ensures r == Some(VendorEmpty) <==> StructValid(v) && v.vendor == []
    ensures r == Some(CreatorNotUpdatable) <==> StructValid(v) && v.vendor != [] && v.creator != []
    ensures r == Some(ReviserEmpty) <==>
      StructValid(v) && v.vendor != [] && v.creator == [] && v.reviser == []
  {
    var s := StructCheck(v);
    if s.Some? then s
    else if |v.vendor| == 0 then Some(VendorEmpty)
    else if |v.creator| != 0 then Some(CreatorNotUpdatable)
    else if |v.reviser| == 0 then Some(ReviserEmpty)
    else None
  }

  /** `GcpRegionTable.UpdateValidate`: the guards, then the struct check once more. */
  function UpdateValidate(v: GcpRegionTable): (r: Option<RegionError>)
    ensures r.None? <==> StructValid(v) && v.vendor != [] && v.creator == [] && v.reviser != []
  {
    var g := UpdateGuards(v);
    if g.Some? then g else StructCheck(v)
  }

  /** The repeated struct check at the end of `UpdateValidate` never changes its outcome. */
  lemma UpdateFinalCheckRedundant(v: GcpRegionTable)
    ensures UpdateValidate(v) == UpdateGuards(v)
  {
  }

  /** No record is valid both for insert and for update: insert wants a creator, update forbids one. */
  lemma InsertAndUpdateExclusive(v: GcpRegionTable, vendorOk: string -> bool)
    ensures !(InsertValidate(v, vendorOk).None? && UpdateValidate(v).None?)
  {
  }

  /** A record that passes insert is refused by update with exactly "creator can not update". */
  lemma InsertedRecordRejectedOnUpdate(v: GcpRegionTable, vendorOk: string -> bool)
    requires InsertValidate(v, vendorOk).None?
    ensures UpdateValidate(v) == Some(CreatorNotUpdatable)
  {
  }
}
