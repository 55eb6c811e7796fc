/** The campaign handlers: create, list, get, update, soft delete,
    duplicate and the campaign's content list. A campaign belongs to the
    user who created it; `caller` is the id of the authenticated user. */
module Campaigns {
  import opened Wrappers
  import opened Json
  import opened Models
  import opened Tables
  import opened Brands

  /** A `CampaignUpdate` body after `dict(exclude_unset=True)`: `None` for a
      field the client did not send. The brand and the creator are not
      among the fields. */
  datatype CampaignPatch = CampaignPatch(
    name: Option<string>,
    description: Option<Option<string>>,
    objective: Option<Option<string>>,
    targetAudience: Option<JsonValue>,
    budget: Option<Option<Float>>,
    startDate: Option<Option<DateTime>>,
    endDate: Option<Option<DateTime>>,
    platforms: Option<Option<seq<string>>>,
    contentTypes: Option<Option<seq<string>>>,
    contentCount: Option<JsonValue>,
    contentSpecs: Option<JsonValue>,
    status: Option<string>,
    progress: Option<Float>,
    isActive: Option<bool>)

  /** A body that sends no field. */
  const NoChange := CampaignPatch(None, None, None, None, None, None, None, None, None, None,
                                  None, None, None, None)

  /** The `setattr` loop over the sent fields. */
  function Patched(c: Campaign, p: CampaignPatch): (r: Campaign)
    ensures r.brandId == c.brandId && r.creatorId == c.creatorId
  {
    c.(name := p.name.GetOr(c.name),
       description := p.description.GetOr(c.description),
       objective := p.objective.GetOr(c.objective),
       targetAudience := p.targetAudience.GetOr(c.targetAudience),
       budget := p.budget.GetOr(c.budget),
       startDate := p.startDate.GetOr(c.startDate),
       endDate := p.endDate.GetOr(c.endDate),
       platforms := p.platforms.GetOr(c.platforms),
       contentTypes := p.contentTypes.GetOr(c.contentTypes),
       contentCount := p.contentCount.GetOr(c.contentCount),
       contentSpecs := p.contentSpecs.GetOr(c.contentSpecs),
       status := p.status.GetOr(c.status),
       progress := p.progress.GetOr(c.progress),
       isActive := p.isActive.GetOr(c.isActive))
  }

  /** An empty body changes nothing, a body sent twice acts once, and a
      body that sends only the status changes only the status. */
  lemma PatchLaws(c: Campaign, p: CampaignPatch, s: string)
    ensures Patched(c, NoChange) == c
    ensures Patched(Patched(c, p), p) == Patched(c, p)
    ensures Patched(c, NoChange.(status := Some(s))) == c.(status := s)
  {
  }

  // ---------------------------------------------------------------------
  // Queries

  /** `filter(Campaign.id == id, Campaign.creator_id == caller).first()`. */
  function OwnCampaign(rows: seq<Row<Campaign>>, id: int, caller: nat): (r: Option<nat>)
    ensures r.Some? ==> r.value < |rows| && rows[r.value].id == id && rows[r.value].value.creatorId == caller
    ensures r.None? ==> forall i :: 0 <= i < |rows| ==> !(rows[i].id == id && rows[i].value.creatorId == caller)
  {
    Find(rows, (x: Row<Campaign>) => x.id == id && x.value.creatorId == caller)
  }

  /** The `brand_id` filter of `list_campaigns` applies when it is given
      and not zero. */
  predicate BrandFilterOn(brandFilter: Option<int>) {
    brandFilter.Some? && brandFilter.value != 0
  }

  /** The `status` filter applies when it is given and not empty. */
  predicate StatusFilterOn(statusFilter: Option<string>) {
    statusFilter.Some? && statusFilter.value != ""
  }

  /** Whether `list_campaigns` admits a campaign: the caller created it, it
      is active, and it passes the filters that apply. */
  predicate Listed(c: Campaign, caller: nat, brandFilter: Option<int>, statusFilter: Option<string>) {
    && c.creatorId == caller && c.isActive
    && (BrandFilterOn(brandFilter) ==> c.brandId == brandFilter.value)
    && (StatusFilterOn(statusFilter) ==> c.status == statusFilter.value)
  }

  /** `list_campaigns` with the intended refusal: a brand filter naming a
      brand the caller does not own gets a 404; otherwise a page of the
      admitted campaigns. */
  function ListCampaigns(brands: seq<Row<Brand>>, campaigns: seq<Row<Campaign>>, caller: nat, brandFilter: Option<int>,
                         statusFilter: Option<string>, skip: nat, limit: nat): (r: Outcome<seq<Row<Campaign>>>)
    ensures r.Fail? <==> BrandFilterOn(brandFilter) && OwnedBrand(brands, brandFilter.value, caller).None?
    ensures r.Fail? ==> r.status == NotFound
    ensures r.Ok? ==> |r.value| <= limit
    ensures r.Ok? ==> forall i :: 0 <= i < |r.value| ==>
                        r.value[i] in campaigns && Listed(r.value[i].value, caller, brandFilter, statusFilter)
  {
    if BrandFilterOn(brandFilter) && OwnedBrand(brands, brandFilter.value, caller).None? then Fail(NotFound)
    else Ok(Page(Select(campaigns, (x: Row<Campaign>) => Listed(x.value, caller, brandFilter, statusFilter)), skip, limit))
  }

  /** A first page long enough holds every admitted campaign, in key
      order. */
  /** `list_campaigns` as written: the refusal of a foreign brand filter
      reads `HTTP_404_NOT_FOUND` off `status`, but inside the handler that
      name is the `status` query parameter (a string or `None`), which hides
      the imported `fastapi.status` module. The lookup raises, nothing
      catches it, and the client gets a 500. Every other reply is the
      intended one. */
  function ListCampaignsAsWritten(brands: seq<Row<Brand>>, campaigns: seq<Row<Campaign>>, caller: nat,
                                  brandFilter: Option<int>, statusFilter: Option<string>, skip: nat, limit: nat)
    : (r: Outcome<seq<Row<Campaign>>>)
    ensures r.Fail? <==> BrandFilterOn(brandFilter) && OwnedBrand(brands, brandFilter.value, caller).None?
    ensures r.Fail? ==> r.status == ServerError
    ensures r.Ok? ==> r == ListCampaigns(brands, campaigns, caller, brandFilter, statusFilter, skip, limit)
  {
    if BrandFilterOn(brandFilter) && OwnedBrand(brands, brandFilter.value, caller).None? then Fail(ServerError)
    else ListCampaigns(brands, campaigns, caller, brandFilter, statusFilter, skip, limit)
  }

  /** Brand 3 belongs to user 8. User 7 listing with `brand_id=3` gets a
      500 from the handler as written, where a 404 is intended, whether or
      not a status filter is sent. */
  lemma ForeignBrandFilterFails(statusFilter: Option<string>)
    ensures var brands := [Row(3, Brands.Blank("b", 8))];
            && ListCampaignsAsWritten(brands, [], 7, Some(3), statusFilter, 0, 100) == Fail(ServerError)
            && ListCampaigns(brands, [], 7, Some(3), statusFilter, 0, 100) == Fail(NotFound)
  {
    var brands := [Row(3, Brands.Blank("b", 8))];
    assert OwnedBrand(brands, 3, 7).None?;
  }

  lemma ListCampaignsComplete(brands: seq<Row<Brand>>, campaigns: seq<Row<Campaign>>, caller: nat, brandFilter: Option<int>,
                              statusFilter: Option<string>, limit: nat)
    requires KeysIncreasing(campaigns) && |campaigns| <= limit
    requires !BrandFilterOn(brandFilter) || OwnedBrand(brands, brandFilter.value, caller).Some?
    ensures var r := ListCampaigns(brands, campaigns, caller, brandFilter, statusFilter, 0, limit);
            && r.Ok? && KeysIncreasing(r.value)
            && forall i :: 0 <= i < |campaigns| && Listed(campaigns[i].value, caller, brandFilter, statusFilter) ==>
                 campaigns[i] in r.value
  {
    var keep := (x: Row<Campaign>) => Listed(x.value, caller, brandFilter, statusFilter);
    SelectKeepsOrder(campaigns, keep);
    WholePage(Select(campaigns, keep), limit);
  }

  /** `get_campaign`: the caller's campaign with that key, active or not. */
  function GetCampaign(rows: seq<Row<Campaign>>, caller: nat, id: int): (r: Outcome<Campaign>)
    ensures r.Ok? <==> exists i :: 0 <= i < |rows| && rows[i].id == id && rows[i].value.creatorId == caller
    ensures r.Ok? ==> exists i :: 0 <= i < |rows| && rows[i].id == id && rows[i].value == r.value
    ensures r.Fail? ==> r.status == NotFound
  {
    match OwnCampaign(rows, id, caller)
    case None => Fail(NotFound)
    case Some(k) => Ok(rows[k].value)
  }

  /** The body `get_campaign_content` returns. */
  datatype CampaignContent = CampaignContent(campaignId: int, campaignName: string,
                                             pieces: seq<Row<ContentPiece>>, total: nat)

  /** `get_campaign_content`: every content piece filed under the campaign,
      whoever created it and whether active or not, and their number. */
  function GetCampaignContent(campaigns: seq<Row<Campaign>>, pieces: seq<Row<ContentPiece>>, caller: nat, id: int)
    : (r: Outcome<CampaignContent>)
    ensures r.Fail? <==> OwnCampaign(campaigns, id, caller).None?
    ensures r.Fail? ==> r.status == NotFound
    ensures r.Ok? ==> r.value.campaignId == id && r.value.total == |r.value.pieces|
                      && r.value.campaignName == campaigns[OwnCampaign(campaigns, id, caller).value].value.name
    ensures r.Ok? ==> forall i :: 0 <= i < |r.value.pieces| ==>
                        r.value.pieces[i] in pieces && r.value.pieces[i].value.campaignId == Some(id)
    ensures r.Ok? ==> forall i :: 0 <= i < |pieces| && pieces[i].value.campaignId == Some(id) ==>
                        pieces[i] in r.value.pieces
  {
    match OwnCampaign(campaigns, id, caller)
    case None => Fail(NotFound)
    case Some(k) =>
      var filed := Select(pieces, (x: Row<ContentPiece>) => x.value.campaignId == Some(id));
      Ok(CampaignContent(id, campaigns[k].value.name, filed, |filed|))
  }

  // ---------------------------------------------------------------------
  // Changes

  /** The record `create_campaign` inserts: the body's columns, the caller
      as creator, and the column defaults for status, progress and
      activity. */
  function NewCampaign(form: Campaign, caller: nat): Campaign {
    form.(creatorId := caller, status := DefaultCampaignStatus, progress := DefaultProgress,
          isActive := DefaultIsActive)
  }

  /** `create_campaign`: the brand must be the caller's, and its campaigns'
      names, inactive ones included, must not include the new one. */
  method CreateCampaign(db: Database, caller: nat, form: Campaign) returns (r: Outcome<nat>)
    requires db.Valid()
    modifies db`campaigns, db`nextCampaign
    ensures db.Valid()
    ensures r.Fail? ==> db.campaigns == old(db.campaigns)
    ensures OwnedBrand(db.brands, form.brandId, caller).None? ==> r == Fail(NotFound)
    ensures OwnedBrand(db.brands, form.brandId, caller).Some? ==>
              if Taken(old(db.campaigns), CampaignKey, (form.brandId, form.name), None) then r == Fail(BadRequest)
              else r.Ok? && db.campaigns == old(db.campaigns) + [Row(r.value, NewCampaign(form, caller))]
  {
    if OwnedBrand(db.brands, form.brandId, caller).None? {
      return Fail(NotFound);
    }
    if Taken(db.campaigns, CampaignKey, (form.brandId, form.name), None) {
      return Fail(BadRequest);
    }
    var row := Row(db.nextCampaign, NewCampaign(form, caller));
    AppendKeyed(db.campaigns, db.nextCampaign, row.value);
    AppendUnique(db.campaigns, CampaignKey, row);
    db.campaigns := db.campaigns + [row];
    db.nextCampaign := db.nextCampaign + 1;
    r := Ok(row.id);
  }

  /** The rename check of `update_campaign`: a different name is refused
      when another campaign of the same brand already has it. */
  predicate RenameConflict(rows: seq<Row<Campaign>>, c: Campaign, id: int, p: CampaignPatch) {
    RenameChecked(p.name, c.name) && id >= 0 && Taken(rows, CampaignKey, (c.brandId, p.name.value), Some(id))
  }

  /** `update_campaign`, with the rename guard as intended (see
      `EmptyRenameDuplicates`). */
  method UpdateCampaign(db: Database, caller: nat, id: int, p: CampaignPatch) returns (r: Outcome<Campaign>)
    requires db.Valid()
    modifies db`campaigns
    ensures db.Valid()
    ensures r.Fail? ==> db.campaigns == old(db.campaigns)
    ensures OwnCampaign(old(db.campaigns), id, caller).None? ==> r == Fail(NotFound)
    ensures OwnCampaign(old(db.campaigns), id, caller).Some? ==>
              var k := OwnCampaign(old(db.campaigns), id, caller).value;
              var c := old(db.campaigns)[k].value;
              if RenameConflict(old(db.campaigns), c, id, p) then r == Fail(BadRequest)
              else r == Ok(Patched(c, p)) && db.campaigns == old(db.campaigns)[k := Row(id, Patched(c, p))]
  {
    var found := OwnCampaign(db.campaigns, id, caller);
    if found.None? {
      return Fail(NotFound);
    }
    var k := found.value;
    var c := db.campaigns[k].value;
    if RenameConflict(db.campaigns, c, id, p) {
      return Fail(BadRequest);
    }
    var updated := Patched(c, p);
    ReplaceKeyed(db.campaigns, db.nextCampaign, k, updated);
    ReplaceUnique(db.campaigns, CampaignKey, k, updated);
    db.campaigns := db.campaigns[k := Row(db.campaigns[k].id, updated)];
    r := Ok(updated);
  }

  /** `delete_campaign`: the campaign is kept, marked inactive. */
  method DeleteCampaign(db: Database, caller: nat, id: int) returns (r: Outcome<()>)
    requires db.Valid()
    modifies db`campaigns
    ensures db.Valid()
    ensures r.Ok? <==> OwnCampaign(old(db.campaigns), id, caller).Some?
    ensures r.Fail? ==> r.status == NotFound && db.campaigns == old(db.campaigns)
    ensures r.Ok? ==>
              var k := OwnCampaign(old(db.campaigns), id, caller).value;
              db.campaigns == old(db.campaigns)[k := Row(id, old(db.campaigns)[k].value.(isActive := false))]
  {
    var found := OwnCampaign(db.campaigns, id, caller);
    if found.None? {
      return Fail(NotFound);
    }
    var k := found.value;
    var c := db.campaigns[k].value.(isActive := false);
    ReplaceKeyed(db.campaigns, db.nextCampaign, k, c);
    ReplaceUnique(db.campaigns, CampaignKey, k, c);
    db.campaigns := db.campaigns[k := Row(db.campaigns[k].id, c)];
    r := Ok(());
  }

  /** The record `duplicate_campaign` inserts: the plan of the original
      under the new name and the caller as creator, back at "planning",
      without dates, at the default progress and active. */
  function Duplicate(c: Campaign, newName: string, caller: nat): Campaign {
    c.(name := newName, creatorId := caller, startDate := None, endDate := None,
       status := "planning", progress := DefaultProgress, isActive := DefaultIsActive)
  }

  /** The copy keeps the brand, objective, audience, budget, platforms,
      content types, counts and specs of the original, and starts over. */
  lemma DuplicateKeepsPlan(c: Campaign, newName: string, caller: nat)
    ensures var d := Duplicate(c, newName, caller);
            && d.(name := c.name, creatorId := c.creatorId, startDate := c.startDate, endDate := c.endDate,
                  status := c.status, progress := c.progress, isActive := c.isActive) == c
            && d.status == DefaultCampaignStatus && d.startDate.None? && d.endDate.None?
  {
  }

  /** `duplicate_campaign`. */
  method DuplicateCampaign(db: Database, caller: nat, id: int, newName: string) returns (r: Outcome<nat>)
    requires db.Valid()
    modifies db`campaigns, db`nextCampaign
    ensures db.Valid()
    ensures r.Fail? ==> db.campaigns == old(db.campaigns)
    ensures OwnCampaign(old(db.campaigns), id, caller).None? ==> r == Fail(NotFound)
    ensures OwnCampaign(old(db.campaigns), id, caller).Some? ==>
              var c := old(db.campaigns)[OwnCampaign(old(db.campaigns), id, caller).value].value;
              if Taken(old(db.campaigns), CampaignKey, (c.brandId, newName), None) then r == Fail(BadRequest)
              else r.Ok? && db.campaigns == old(db.campaigns) + [Row(r.value, Duplicate(c, newName, caller))]
  {
    var found := OwnCampaign(db.campaigns, id, caller);
    if found.None? {
      return Fail(NotFound);
    }
    var c := db.campaigns[found.value].value;
    if Taken(db.campaigns, CampaignKey, (c.brandId, newName), None) {
      return Fail(BadRequest);
    }
    var row := Row(db.nextCampaign, Duplicate(c, newName, caller));
    AppendKeyed(db.campaigns, db.nextCampaign, row.value);
    AppendUnique(db.campaigns, CampaignKey, row);
    db.campaigns := db.campaigns + [row];
    db.nextCampaign := db.nextCampaign + 1;
    r := Ok(row.id);
  }

  // ---------------------------------------------------------------------
  // The rename guard as written

  /** A campaign of brand 3 with every optional column empty. */
  function Blank(name: string): Campaign {
    Campaign(name, None, 3, 7, None, JNull, None, None, None, None, None, JNull, JNull,
             DefaultCampaignStatus, DefaultProgress, true)
  }

  /** Renaming a campaign to the empty name when another campaign of its
      brand already has it: the guard as written lets the update through
      and the brand ends with two campaigns named ""; the intended guard
      refuses. */
  lemma EmptyRenameDuplicates()
    ensures var rows := [Row(1, Blank("")), Row(2, Blank("x"))];
            var p := NoChange.(name := Some(""));
            && UniqueBy(rows, CampaignKey)
            && !RenameCheckedAsWritten(p.name, rows[1].value.name)
            && !UniqueBy(rows[1 := Row(2, Patched(rows[1].value, p))], CampaignKey)
            && RenameConflict(rows, rows[1].value, 2, p)
  {
    var rows := [Row(1, Blank("")), Row(2, Blank("x"))];
    var p := NoChange.(name := Some(""));
    var after := rows[1 := Row(2, Patched(rows[1].value, p))];
    assert CampaignKey(after[0].value) == CampaignKey(after[1].value);
    assert CampaignKey(rows[0].value) == (3, "");
  }
}
