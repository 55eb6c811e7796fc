/** The brand handlers: create, list, get, update, soft delete and
    duplicate, as operations on the brand table. `caller` is the id of the
    authenticated user. */
module Brands {
  import opened Wrappers
  import opened Json
  import opened Models
  import opened Tables

  /** A `BrandUpdate` body after `dict(exclude_unset=True)`: each field is
      `None` when the client did not send it and `Some(v)` when it did. The
      owner is not among the fields. */
  datatype BrandPatch = BrandPatch(
    name: Option<string>,
    description: Option<Option<string>>,
    industry: Option<Option<string>>,
    websiteUrl: Option<Option<string>>,
    brandVoice: Option<Option<string>>,
    colorPalette: Option<JsonValue>,
    typography: Option<JsonValue>,
    logoUrls: Option<Option<seq<string>>>,
    imageryStyle: Option<Option<string>>,
    messagingPillars: Option<JsonValue>,
    targetAudience: Option<JsonValue>,
    brandValues: Option<JsonValue>,
    competitors: Option<JsonValue>,
    contentGuidelines: Option<JsonValue>,
    approvedHashtags: Option<Option<seq<string>>>,
    bannedWords: Option<Option<seq<string>>>,
    styleGuideUrl: Option<Option<string>>,
    socialMediaHandles: Option<JsonValue>,
    isActive: Option<bool>)

  /** A body that sends no field. */
  const NoChange := BrandPatch(None, None, None, None, None, None, None, None, None, None,
                               None, None, None, None, None, None, None, None, None)

  /** The `setattr` loop: every sent field overwrites the column of the same
      name. The fields of the body are distinct, so their order does not
      matter. */
  function Patched(b: Brand, p: BrandPatch): (r: Brand)
    ensures r.ownerId == b.ownerId
  {
    b.(name := p.name.GetOr(b.name),
       description := p.description.GetOr(b.description),
       industry := p.industry.GetOr(b.industry),
       websiteUrl := p.websiteUrl.GetOr(b.websiteUrl),
       brandVoice := p.brandVoice.GetOr(b.brandVoice),
       colorPalette := p.colorPalette.GetOr(b.colorPalette),
       typography := p.typography.GetOr(b.typography),
       logoUrls := p.logoUrls.GetOr(b.logoUrls),
       imageryStyle := p.imageryStyle.GetOr(b.imageryStyle),
       messagingPillars := p.messagingPillars.GetOr(b.messagingPillars),
       targetAudience := p.targetAudience.GetOr(b.targetAudience),
       brandValues := p.brandValues.GetOr(b.brandValues),
       competitors := p.competitors.GetOr(b.competitors),
       contentGuidelines := p.contentGuidelines.GetOr(b.contentGuidelines),
       approvedHashtags := p.approvedHashtags.GetOr(b.approvedHashtags),
       bannedWords := p.bannedWords.GetOr(b.bannedWords),
       styleGuideUrl := p.styleGuideUrl.GetOr(b.styleGuideUrl),
       socialMediaHandles := p.socialMediaHandles.GetOr(b.socialMediaHandles),
       isActive := p.isActive.GetOr(b.isActive))
  }

  /** Two bodies sent one after the other: the later one wins on the fields
      it sends. */
  function Then(p: BrandPatch, q: BrandPatch): BrandPatch {
    BrandPatch(
      if q.name.Some? then q.name else p.name,
      if q.description.Some? then q.description else p.description,
      if q.industry.Some? then q.industry else p.industry,
      if q.websiteUrl.Some? then q.websiteUrl else p.websiteUrl,
      if q.brandVoice.Some? then q.brandVoice else p.brandVoice,
      if q.colorPalette.Some? then q.colorPalette else p.colorPalette,
      if q.typography.Some? then q.typography else p.typography,
      if q.logoUrls.Some? then q.logoUrls else p.logoUrls,
      if q.imageryStyle.Some? then q.imageryStyle else p.imageryStyle,
      if q.messagingPillars.Some? then q.messagingPillars else p.messagingPillars,
      if q.targetAudience.Some? then q.targetAudience else p.targetAudience,
      if q.brandValues.Some? then q.brandValues else p.brandValues,
      if q.competitors.Some? then q.competitors else p.competitors,
      if q.contentGuidelines.Some? then q.contentGuidelines else p.contentGuidelines,
      if q.approvedHashtags.Some? then q.approvedHashtags else p.approvedHashtags,
      if q.bannedWords.Some? then q.bannedWords else p.bannedWords,
      if q.styleGuideUrl.Some? then q.styleGuideUrl else p.styleGuideUrl,
      if q.socialMediaHandles.Some? then q.socialMediaHandles else p.socialMediaHandles,
      if q.isActive.Some? then q.isActive else p.isActive)
  }

  /** An empty body changes nothing, sending a body twice is sending it
      once, and two bodies in a row act as their merge. */
  lemma PatchLaws(b: Brand, p: BrandPatch, q: BrandPatch)
    ensures Patched(b, NoChange) == b
    ensures Patched(Patched(b, p), p) == Patched(b, p)
    ensures Patched(Patched(b, p), q) == Patched(b, Then(p, q))
  {
  }

  /** A soft-deleted brand comes back when an update sends
      `is_active = true`, with every other column untouched. */
  lemma UpdateRestores(b: Brand)
    ensures Patched(b.(isActive := false), NoChange.(isActive := Some(true))) == b.(isActive := true)
  {
  }

  // ---------------------------------------------------------------------
  // Queries

  /** `filter(Brand.id == id, Brand.owner_id == caller).first()`. */
  function OwnedBrand(rows: seq<Row<Brand>>, id: int, caller: nat): (r: Option<nat>)
    ensures r.Some? ==> r.value < |rows| && rows[r.value].id == id && rows[r.value].value.ownerId == caller
    ensures r.None? ==> forall i :: 0 <= i < |rows| ==> !(rows[i].id == id && rows[i].value.ownerId == caller)
  {
    Find(rows, (x: Row<Brand>) => x.id == id && x.value.ownerId == caller)
  }

  /** The caller's active brands, in key order. */
  function ActiveBrandsOf(rows: seq<Row<Brand>>, caller: nat): (r: seq<Row<Brand>>)
    ensures forall i :: 0 <= i < |r| ==> r[i] in rows && r[i].value.ownerId == caller && r[i].value.isActive
    ensures forall i :: 0 <= i < |rows| && rows[i].value.ownerId == caller && rows[i].value.isActive ==> rows[i] in r
  {
    Select(rows, (x: Row<Brand>) => x.value.ownerId == caller && x.value.isActive)
  }

  /** `list_brands`: a page of the caller's active brands. */
  function ListBrands(rows: seq<Row<Brand>>, caller: nat, skip: nat, limit: nat): (r: seq<Row<Brand>>)
    ensures |r| <= limit
    ensures forall i :: 0 <= i < |r| ==> r[i] in rows && r[i].value.ownerId == caller && r[i].value.isActive
  {
    Page(ActiveBrandsOf(rows, caller), skip, limit)
  }

  /** The listing follows key order, and a first page as long as the
      caller's active brands holds every one of them. */
  lemma ListBrandsOrderAndCover(rows: seq<Row<Brand>>, caller: nat, limit: nat)
    requires KeysIncreasing(rows)
    ensures KeysIncreasing(ListBrands(rows, caller, 0, limit))
    ensures |ActiveBrandsOf(rows, caller)| <= limit ==>
              forall i :: 0 <= i < |rows| && rows[i].value.ownerId == caller && rows[i].value.isActive
                ==> rows[i] in ListBrands(rows, caller, 0, limit)
  {
    var all := ActiveBrandsOf(rows, caller);
    SelectKeepsOrder(rows, (x: Row<Brand>) => x.value.ownerId == caller && x.value.isActive);
    var page := ListBrands(rows, caller, 0, limit);
    assert forall i :: 0 <= i < |page| ==> page[i] == all[i];
    if |all| <= limit {
      WholePage(all, limit);
    }
  }

  /** `get_brand`: the caller's brand with that key, active or not. */
  function GetBrand(rows: seq<Row<Brand>>, caller: nat, id: int): (r: Outcome<Brand>)
    ensures r.Ok? <==> exists i :: 0 <= i < |rows| && rows[i].id == id && rows[i].value.ownerId == caller
    ensures r.Ok? ==> exists i :: 0 <= i < |rows| && rows[i].id == id && rows[i].value == r.value
    ensures r.Fail? ==> r.status == NotFound
  {
    match OwnedBrand(rows, id, caller)
    case None => Fail(NotFound)
    case Some(k) => Ok(rows[k].value)
  }

  // ---------------------------------------------------------------------
  // Changes

  /** The record `create_brand` inserts: the body's columns, the caller as
      owner, and the column default for `is_active`. */
  function NewBrand(form: Brand, caller: nat): Brand {
    form.(ownerId := caller, isActive := DefaultIsActive)
  }

  /** `create_brand`. */
  method CreateBrand(db: Database, caller: nat, form: Brand) returns (r: Outcome<nat>)
    requires db.Valid()
    modifies db`brands, db`nextBrand
    ensures db.Valid()
    ensures r.Fail? <==> Taken(old(db.brands), BrandKey, (caller, form.name), None)
    ensures r.Fail? ==> r.status == BadRequest && db.brands == old(db.brands)
    ensures r.Ok? ==> db.brands == old(db.brands) + [Row(r.value, NewBrand(form, caller))]
  {
    if Taken(db.brands, BrandKey, (caller, form.name), None) {
      return Fail(BadRequest);
    }
    var row := Row(db.nextBrand, NewBrand(form, caller));
    AppendKeyed(db.brands, db.nextBrand, row.value);
    AppendUnique(db.brands, BrandKey, row);
    db.brands := db.brands + [row];
    db.nextBrand := db.nextBrand + 1;
    r := Ok(row.id);
  }

  /** The rename check of `update_brand`: a different name is refused when
      another brand of the same owner already has it. */
  predicate RenameConflict(rows: seq<Row<Brand>>, b: Brand, id: int, p: BrandPatch) {
    RenameChecked(p.name, b.name) && id >= 0 && Taken(rows, BrandKey, (b.ownerId, p.name.value), Some(id))
  }

  /** `update_brand`, with the rename guard as intended (see
      `EmptyRenameDuplicates`). */
  method UpdateBrand(db: Database, caller: nat, id: int, p: BrandPatch) returns (r: Outcome<Brand>)
    requires db.Valid()
    modifies db`brands
    ensures db.Valid()
    ensures r.Fail? ==> db.brands == old(db.brands)
    ensures OwnedBrand(old(db.brands), id, caller).None? ==> r == Fail(NotFound)
    ensures OwnedBrand(old(db.brands), id, caller).Some? ==>
              var k := OwnedBrand(old(db.brands), id, caller).value;
              var b := old(db.brands)[k].value;
              if RenameConflict(old(db.brands), b, id, p) then r == Fail(BadRequest)
              else r == Ok(Patched(b, p)) && db.brands == old(db.brands)[k := Row(id, Patched(b, p))]
  {
    var found := OwnedBrand(db.brands, id, caller);
    if found.None? {
      return Fail(NotFound);
    }
    var k := found.value;
    var b := db.brands[k].value;
    if RenameConflict(db.brands, b, id, p) {
      return Fail(BadRequest);
    }
    var updated := Patched(b, p);
    ReplaceKeyed(db.brands, db.nextBrand, k, updated);
    ReplaceUnique(db.brands, BrandKey, k, updated);
    db.brands := db.brands[k := Row(db.brands[k].id, updated)];
    r := Ok(updated);
  }

  /** `delete_brand`: the brand is kept, marked inactive. */
  method DeleteBrand(db: Database, caller: nat, id: int) returns (r: Outcome<()>)
    requires db.Valid()
    modifies db`brands
    ensures db.Valid()
    ensures r.Ok? <==> OwnedBrand(old(db.brands), id, caller).Some?
    ensures r.Fail? ==> r.status == NotFound && db.brands == old(db.brands)
    ensures r.Ok? ==>
              var k := OwnedBrand(old(db.brands), id, caller).value;
              db.brands == old(db.brands)[k := Row(id, old(db.brands)[k].value.(isActive := false))]
  {
    var found := OwnedBrand(db.brands, id, caller);
    if found.None? {
      return Fail(NotFound);
    }
    var k := found.value;
    var b := db.brands[k].value.(isActive := false);
    ReplaceKeyed(db.brands, db.nextBrand, k, b);
    ReplaceUnique(db.brands, BrandKey, k, b);
    db.brands := db.brands[k := Row(db.brands[k].id, b)];
    r := Ok(());
  }

  /** The record `duplicate_brand` inserts: every column of the original
      under the new name and the caller as owner, active by default. */
  function Duplicate(b: Brand, newName: string, caller: nat): Brand {
    b.(name := newName, ownerId := caller, isActive := DefaultIsActive)
  }

  /** The copy differs from the original in its name, owner and activity
      only: every guideline column is carried over. */
  lemma DuplicateCopiesGuidelines(b: Brand, newName: string, caller: nat)
    ensures Duplicate(b, newName, caller).(name := b.name, ownerId := b.ownerId, isActive := b.isActive) == b
  {
  }

  /** `duplicate_brand`. */
  method DuplicateBrand(db: Database, caller: nat, id: int, newName: string) returns (r: Outcome<nat>)
    requires db.Valid()
    modifies db`brands, db`nextBrand
    ensures db.Valid()
    ensures r.Fail? ==> db.brands == old(db.brands)
    ensures OwnedBrand(old(db.brands), id, caller).None? ==> r == Fail(NotFound)
    ensures OwnedBrand(old(db.brands), id, caller).Some? ==>
              var b := old(db.brands)[OwnedBrand(old(db.brands), id, caller).value].value;
              if Taken(old(db.brands), BrandKey, (caller, newName), None) then r == Fail(BadRequest)
              else r.Ok? && db.brands == old(db.brands) + [Row(r.value, Duplicate(b, newName, caller))]
  {
    var found := OwnedBrand(db.brands, id, caller);
    if found.None? {
      return Fail(NotFound);
    }
    if Taken(db.brands, BrandKey, (caller, newName), None) {
      return Fail(BadRequest);
    }
    var row := Row(db.nextBrand, Duplicate(db.brands[found.value].value, newName, caller));
    AppendKeyed(db.brands, db.nextBrand, row.value);
    AppendUnique(db.brands, BrandKey, row);
    db.brands := db.brands + [row];
    db.nextBrand := db.nextBrand + 1;
    r := Ok(row.id);
  }

  // ---------------------------------------------------------------------
  // The rename guard as written

  /** A brand with every optional column empty. */
  function Blank(name: string, owner: nat): Brand {
    Brand(name, None, owner, None, JNull, JNull, None, None, JNull, JNull, JNull, JNull, JNull,
          None, None, None, None, None, JNull, true)
  }

  /** Renaming to the empty name: the guard as written skips the rename
      check, and the update gives the owner two brands named "" (brand 1 is
      already named ""). The intended guard runs the check, which finds
      brand 1 and refuses. */
  lemma EmptyRenameDuplicates()
    ensures var rows := [Row(1, Blank("", 7)), Row(2, Blank("x", 7))];
            var p := NoChange.(name := Some(""));
            && UniqueBy(rows, BrandKey)
            && !RenameCheckedAsWritten(p.name, rows[1].value.name)
            && !UniqueBy(rows[1 := Row(2, Patched(rows[1].value, p))], BrandKey)
            && RenameConflict(rows, rows[1].value, 2, p)
  {
    var rows := [Row(1, Blank("", 7)), Row(2, Blank("x", 7))];
    var p := NoChange.(name := Some(""));
    var after := rows[1 := Row(2, Patched(rows[1].value, p))];
    assert BrandKey(after[0].value) == BrandKey(after[1].value);
    assert BrandKey(rows[0].value) == (7, "");
  }
}
