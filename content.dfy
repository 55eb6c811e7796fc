/** The content-piece handlers: generation and its stored record, listing,
    lookup, status changes, the brand-consistency analysis, the image
    prompt and deletion. `caller` is the id of the authenticated user;
    `respond` and `parse` stand for the provider SDKs and `json.loads`, as
    in the generator services. */
module Content {
  import opened Wrappers
  import opened Text
  import opened Json
  import opened Models
  import opened Prompt
  import opened SidePrompts
  import opened Response
  import opened Providers
  import opened Tables
  import opened Brands

  /** A `ContentGenerationRequest` body. */
  datatype GenerationRequest = GenerationRequest(
    brandId: int,
    contentType: ContentType,
    brief: string,
    platform: Option<string>,
    campaignId: Option<int>,
    targetAudience: Option<Fields>,
    additionalContext: Option<Fields>,
    referenceIds: Option<seq<int>>,
    preferredProvider: Option<string>)

  // ---------------------------------------------------------------------
  // Reading the request

  /** The preferred provider: the lower-cased name converted to the
      enumeration, and no preference when the name is missing, empty or not
      a provider's value. */
  function PreferredProvider(name: Option<string>): (r: Option<AIProvider>)
    ensures r.Some? ==> name.Some? && r.value.Value() == Lower(name.value)
    ensures name.Some? && name.value != "" && r.None? ==> forall p: AIProvider :: p.Value() != Lower(name.value)
  {
    if name.Some? && name.value != "" then ProviderNamed(Lower(name.value)) else None
  }

  /** The name is read without regard to case. */
  lemma PreferredIgnoresCase(s: string)
    ensures PreferredProvider(Some(s)) == PreferredProvider(Some(Lower(s)))
  {
    LowerIdempotent(s);
  }

  /** The campaign is checked when its id is given and not zero. */
  predicate CampaignGiven(req: GenerationRequest) {
    req.campaignId.Some? && req.campaignId.value != 0
  }

  /** `filter(Campaign.id == id, Campaign.brand_id == brandId).first()`:
      the campaign must belong to the request's brand, whoever created it. */
  function BrandCampaign(rows: seq<Row<Campaign>>, id: int, brandId: int): (r: Option<nat>)
    ensures r.Some? ==> r.value < |rows| && rows[r.value].id == id && rows[r.value].value.brandId == brandId
    ensures r.None? ==> forall i :: 0 <= i < |rows| ==> !(rows[i].id == id && rows[i].value.brandId == brandId)
  {
    Find(rows, (x: Row<Campaign>) => x.id == id && x.value.brandId == brandId)
  }

  /** The reference materials handed to the generator: the rows of the
      request's brand whose key is among the given ids, in key order,
      active or not; none when no id is given. */
  function RequestedMaterials(rows: seq<Row<ReferenceMaterial>>, ids: Option<seq<int>>, brandId: int)
    : (r: seq<Row<ReferenceMaterial>>)
    ensures ids.None? || ids.value == [] ==> r == []
    ensures forall i :: 0 <= i < |r| ==>
              r[i] in rows && ids.Some? && r[i].id in ids.value && r[i].value.brandId == brandId
    ensures ids.Some? ==> forall i :: 0 <= i < |rows| && rows[i].id in ids.value && rows[i].value.brandId == brandId
                            ==> rows[i] in r
  {
    if ids.None? || ids.value == [] then []
    else Select(rows, (x: Row<ReferenceMaterial>) => x.id in ids.value && x.value.brandId == brandId)
  }

  /** The arguments of the generator call. */
  function PromptFor(req: GenerationRequest, brand: Brand, materials: seq<Row<ReferenceMaterial>>): PromptRequest {
    PromptRequest(brand, req.contentType, req.brief, req.platform, req.targetAudience, Records(materials),
                  req.additionalContext)
  }

  // ---------------------------------------------------------------------
  // The stored record

  /** The `parsed` test as written: `content_data.get("parsed")`. A decoded
      reply carries no such key, so the test fails for it too. */
  predicate ParsedAsWritten(content: JsonValue) {
    Truthy(Get(content, "parsed"))
  }

  /** The `parsed` test as intended: a missing key counts as parsed, and
      only the fallback record's `False` marks the raw text. */
  predicate Parsed(content: JsonValue) {
    content.JObject? && Truthy(Lookup(content.fields, "parsed", JBool(true)))
  }

  /** The value the counts are taken from: `main_text` when truthy, else
      `raw_content` when truthy, else nothing. */
  function CountedText(content: JsonValue): JsonValue {
    if Truthy(Get(content, "main_text")) then Get(content, "main_text")
    else if Truthy(Get(content, "raw_content")) then Get(content, "raw_content")
    else JNull
  }

  /** The word and character counts: unset when there is nothing to count;
      a value that is not a string cannot be split, which fails the
      request. */
  function Counts(content: JsonValue): Outcome<Option<(nat, nat)>> {
    var t := CountedText(content);
    if !Truthy(t) then Ok(None)
    else if t.JString? then Ok(Some((|Words(t.s)|, |t.s|)))
    else Fail(ServerError)
  }

  /** A text has no more words than characters, so the stored word count
      never exceeds the character count. */
  lemma CountsOrdered(content: JsonValue)
    requires Counts(content).Ok? && Counts(content).value.Some?
    ensures Counts(content).value.value.0 <= Counts(content).value.value.1
  {
    WordsAtMostChars(CountedText(content).s);
  }

  /** The counts of a reply that was not read as JSON are those of the
      reply's own text. */
  lemma RawCounts(text: string, ct: ContentType)
    ensures Counts(RawRecord(text, ct)) == if text == "" then Ok(None) else Ok(Some((|Words(text)|, |text|)))
  {
  }

  /** `main_text` wins over `raw_content` when it is a non-empty string. */
  lemma MainTextCounted(content: JsonValue, s: string)
    requires Get(content, "main_text") == JString(s) && s != ""
    ensures Counts(content) == Ok(Some((|Words(s)|, |s|)))
  {
  }

  /** The `ContentPiece` built from a successful generation, with `parsed`
      deciding between the raw text and the decoded structure. A content
      value that is not a dict has no `get`, which fails the request. */
  function Record(req: GenerationRequest, brand: Row<Brand>, caller: nat, refs: seq<nat>,
                  g: GenerationResult, parsed: bool): (r: Outcome<ContentPiece>)
    requires g.Succeeded?
  {
    var c := g.content;
    if !c.JObject? then Fail(ServerError)
    else match Counts(c)
      case Fail(status) => Fail(status)
      case Ok(counts) =>
        Ok(ContentPiece(
          DisplayName(req.contentType) + " - " + brand.value.name,
          req.contentType, brand.id, req.campaignId, caller,
          if parsed then JNull else Get(c, "raw_content"),
          Get(c, "image_prompt"), Get(c, "script"),
          if parsed then c else JNull,
          Some(g.modelUsed), Some(g.promptUsed), g.provider, Some(g.tokensUsed),
          refs, req.platform,
          if counts.Some? then Some(counts.value.0) else None,
          if counts.Some? then Some(counts.value.1) else None,
          Generated, None, DefaultRevisionCount, DefaultIsActive))
  }

  /** The record as written, with `get("parsed")`. */
  function RecordAsWritten(req: GenerationRequest, brand: Row<Brand>, caller: nat, refs: seq<nat>,
                           g: GenerationResult): (r: Outcome<ContentPiece>)
    requires g.Succeeded?
    ensures r.Ok? ==> r.value.generatedText == JNull || r.value.metadata == JNull
  {
    Record(req, brand, caller, refs, g, ParsedAsWritten(g.content))
  }

  /** The record the handler stores, with `parsed` read as intended. */
  function NewPiece(req: GenerationRequest, brand: Row<Brand>, caller: nat, refs: seq<nat>,
                    g: GenerationResult): (r: Outcome<ContentPiece>)
    requires g.Succeeded?
    ensures r.Fail? <==> !g.content.JObject? || Counts(g.content).Fail?
    ensures r.Fail? ==> r.status == ServerError
    ensures r.Ok? ==>
              && r.value.title == DisplayName(req.contentType) + " - " + brand.value.name
              && r.value.contentType == req.contentType && r.value.brandId == brand.id
              && r.value.campaignId == req.campaignId && r.value.creatorId == caller
              && r.value.platform == req.platform && r.value.referenceMaterialsUsed == refs
              && r.value.status == Generated && r.value.isActive && r.value.revisionCount == 0
              && r.value.aiModelUsed == Some(g.modelUsed) && r.value.generationPrompt == Some(g.promptUsed)
              && r.value.provider == g.provider && r.value.tokensUsed == Some(g.tokensUsed)
              && r.value.imagePrompt == Get(g.content, "image_prompt")
              && r.value.videoScript == Get(g.content, "script")
    ensures r.Ok? ==> r.value.generatedText == JNull || r.value.metadata == JNull
    ensures r.Ok? ==> (r.value.wordCount.Some? <==> Truthy(CountedText(g.content)))
                      && (r.value.wordCount.Some? ==> r.value.characterCount == Some(|CountedText(g.content).s|))
  {
    Record(req, brand, caller, refs, g, Parsed(g.content))
  }

  /** With `parsed` read as intended, a reply that was not read as JSON
      survives in the record as its generated text. */
  lemma RawReplyKept(req: GenerationRequest, brand: Row<Brand>, caller: nat, refs: seq<nat>,
                     g: GenerationResult, text: string)
    requires g.Succeeded? && g.content == RawRecord(text, req.contentType)
    ensures NewPiece(req, brand, caller, refs, g).Ok?
    ensures var p := NewPiece(req, brand, caller, refs, g).value;
            p.generatedText == JString(text) && p.metadata == JNull
  {
    RawCounts(text, req.contentType);
    assert !Parsed(g.content) by {
      assert g.content.fields[1].0 == "parsed";
      assert Lookup(g.content.fields, "parsed", JBool(true)) == JBool(false);
    }
    assert Get(g.content, "raw_content") == JString(text);
  }

  /** With `parsed` read as intended, a reply read as a JSON object without
      a `parsed` key survives in the record as its metadata. */
  lemma DecodedReplyKept(req: GenerationRequest, brand: Row<Brand>, caller: nat, refs: seq<nat>, g: GenerationResult)
    requires g.Succeeded? && g.content.JObject? && !HasKey(g.content.fields, "parsed")
    requires Counts(g.content).Ok?
    ensures NewPiece(req, brand, caller, refs, g).Ok?
    ensures var p := NewPiece(req, brand, caller, refs, g).value;
            p.metadata == g.content && p.generatedText == JNull
  {
    assert Lookup(g.content.fields, "parsed", JBool(true)) == JBool(true);
  }

  /** As written, the reply `{"main_text": "hi"}` is lost: the record keeps
      neither the text nor the decoded structure, though it counts one
      word. */
  lemma ParsedReplyLost(req: GenerationRequest, brand: Row<Brand>, caller: nat)
    ensures var g := Succeeded(JObject([("main_text", JString("hi"))]), None, "m", "p", 1);
            var r := RecordAsWritten(req, brand, caller, [], g);
            && r.Ok? && r.value.generatedText == JNull && r.value.metadata == JNull
            && r.value.wordCount == Some(1)
            && NewPiece(req, brand, caller, [], g).value.metadata == g.content
  {
    var c := JObject([("main_text", JString("hi"))]);
    assert Get(c, "main_text") == JString("hi");
    assert Words("hi") == ["hi"] by {
      assert IsWord("hi");
      WordsOfWord("hi");
    }
  }

  // ---------------------------------------------------------------------
  // Generation
  //
  // `generate_content` runs in two phases, modelled as two methods: the
  // checks and the generator call (`AskGenerator`), then the record and its
  // insert (`SaveGeneration`). The handler is the second run on what the
  // first returns.

  /** What the generator was asked and what it answered. */
  datatype Generation = Generation(result: GenerationResult, calls: seq<AIProvider>, prompt: string)

  /** The generator's promise for one request: the prompt it builds and the
      dispatch over the providers. */
  predicate Answered(gen: AIContentGenerator, req: PromptRequest, preferred: Option<AIProvider>,
                     respond: (AIProvider, string) -> ProviderReply, parse: string -> Option<JsonValue>, g: Generation)
    reads gen
  {
    g.prompt == PromptText(req) && gen.Dispatches(g.prompt, req.contentType, preferred, respond, parse, g.result, g.calls)
  }

  /** What the handler gathers before calling the generator. */
  datatype Prep = Prep(brand: Row<Brand>, materials: seq<Row<ReferenceMaterial>>)

  /** The checks of `generate_content` before the generator is called: the
      brand must be the caller's and a given campaign must belong to it. */
  function Prepared(brands: seq<Row<Brand>>, campaigns: seq<Row<Campaign>>, materials: seq<Row<ReferenceMaterial>>,
                    caller: nat, req: GenerationRequest): (r: Outcome<Prep>)
    ensures r.Fail? <==> OwnedBrand(brands, req.brandId, caller).None?
                         || (CampaignGiven(req) && BrandCampaign(campaigns, req.campaignId.value, req.brandId).None?)
    ensures r.Fail? ==> r.status == NotFound
    ensures r.Ok? ==> r.value.brand == brands[OwnedBrand(brands, req.brandId, caller).value]
                      && r.value.materials == RequestedMaterials(materials, req.referenceIds, req.brandId)
  {
    match OwnedBrand(brands, req.brandId, caller)
    case None => Fail(NotFound)
    case Some(k) =>
      if CampaignGiven(req) && BrandCampaign(campaigns, req.campaignId.value, req.brandId).None? then Fail(NotFound)
      else Ok(Prep(brands[k], RequestedMaterials(materials, req.referenceIds, req.brandId)))
  }

  /** The first phase of `generate_content`: a 404 when the brand is not the
      caller's or a given campaign is not the brand's, and otherwise one
      generator call on the prompt built from the brand, the request and the
      requested reference materials. */
  method AskGenerator(db: Database, gen: AIContentGenerator, caller: nat, req: GenerationRequest,
                      respond: (AIProvider, string) -> ProviderReply, parse: string -> Option<JsonValue>)
    returns (r: Outcome<Prep>, asked: Option<Generation>)
    ensures r == Prepared(db.brands, db.campaigns, db.materials, caller, req)
    ensures r.Fail? <==> asked.None?
    ensures r.Ok? ==> Answered(gen, PromptFor(req, r.value.brand.value, r.value.materials),
                               PreferredProvider(req.preferredProvider), respond, parse, asked.value)
  {
    r := Prepared(db.brands, db.campaigns, db.materials, caller, req);
    if r.Fail? {
      return r, None;
    }
    var result, calls, prompt := gen.GenerateContent(PromptFor(req, r.value.brand.value, r.value.materials),
                                                     PreferredProvider(req.preferredProvider), respond, parse);
    asked := Some(Generation(result, calls, prompt));
  }

  /** The record for a generation, or the 500 of a failed one. */
  function PieceFor(req: GenerationRequest, prep: Prep, caller: nat, g: GenerationResult): (r: Outcome<ContentPiece>)
    ensures g.Failed? ==> r == Fail(ServerError)
  {
    if g.Failed? then Fail(ServerError) else NewPiece(req, prep.brand, caller, Ids(prep.materials), g)
  }

  /** The outcome of an insert: a failed record is its error and stores
      nothing; otherwise the record is appended under a key, which is
      returned. */
  predicate Stored(before: seq<Row<ContentPiece>>, after: seq<Row<ContentPiece>>, r: Outcome<nat>,
                   piece: Outcome<ContentPiece>)
  {
    && (piece.Fail? ==> r == Fail(piece.status) && after == before)
    && (piece.Ok? ==> r.Ok? && after == before + [Row(r.value, piece.value)])
  }

  /** `db.add(piece)` and the commit, or the error of a record that could
      not be built. The new key is the next one. */
  method Store(db: Database, piece: Outcome<ContentPiece>) returns (r: Outcome<nat>)
    requires db.Valid()
    modifies db`pieces, db`nextPiece
    ensures db.Valid()
    ensures Stored(old(db.pieces), db.pieces, r, piece)
    ensures r.Ok? ==> r.value == old(db.nextPiece)
  {
    if piece.Fail? {
      return Fail(piece.status);
    }
    AppendKeyed(db.pieces, db.nextPiece, piece.value);
    db.pieces := db.pieces + [Row(db.nextPiece, piece.value)];
    r := Ok(db.nextPiece);
    db.nextPiece := db.nextPiece + 1;
  }

  /** The second phase of `generate_content`: a failed generation or a
      record that cannot be built is a 500 and stores nothing; otherwise the
      record is appended under the next key, which is returned. */
  method SaveGeneration(db: Database, caller: nat, req: GenerationRequest, prep: Prep, g: GenerationResult)
    returns (r: Outcome<nat>)
    requires db.Valid()
    modifies db`pieces, db`nextPiece
    ensures db.Valid()
    ensures Stored(old(db.pieces), db.pieces, r, PieceFor(req, prep, caller, g))
    ensures r.Ok? ==> r.value == old(db.nextPiece)
  {
    r := Store(db, PieceFor(req, prep, caller, g));
  }

  // ---------------------------------------------------------------------
  // Queries

  /** `filter(ContentPiece.id == id, ContentPiece.creator_id == caller).first()`. */
  function OwnPiece(rows: seq<Row<ContentPiece>>, id: int, caller: nat): (r: Option<nat>)
    ensures r.Some? ==> r.value < |rows| && rows[r.value].id == id && rows[r.value].value.creatorId == caller
    ensures r.None? ==> forall i :: 0 <= i < |rows| ==> !(rows[i].id == id && rows[i].value.creatorId == caller)
  {
    Find(rows, (x: Row<ContentPiece>) => x.id == id && x.value.creatorId == caller)
  }

  /** The optional filters of `list_content`. The ids apply when given and
      not zero; a given type or status always applies. */
  datatype ContentFilter = ContentFilter(brandId: Option<int>, campaignId: Option<int>,
                                         contentType: Option<ContentType>, status: Option<ContentStatus>)

  predicate IdGiven(id: Option<int>) {
    id.Some? && id.value != 0
  }

  /** Whether `list_content` admits a piece: the caller created it and it
      passes the filters that apply. Deactivated pieces are not excluded. */
  predicate ContentListed(p: ContentPiece, caller: nat, f: ContentFilter) {
    && p.creatorId == caller
    && (IdGiven(f.brandId) ==> p.brandId == f.brandId.value)
    && (IdGiven(f.campaignId) ==> p.campaignId == f.campaignId)
    && (f.contentType.Some? ==> p.contentType == f.contentType.value)
    && (f.status.Some? ==> p.status == f.status.value)
  }

  /** `list_content` with the intended refusal: a brand filter naming a
      brand the caller does not own gets a 404; otherwise a page of the
      admitted pieces. */
  function ListContent(brands: seq<Row<Brand>>, pieces: seq<Row<ContentPiece>>, caller: nat, f: ContentFilter,
                       limit: nat, offset: nat): (r: Outcome<seq<Row<ContentPiece>>>)
    ensures r.Fail? <==> IdGiven(f.brandId) && OwnedBrand(brands, f.brandId.value, caller).None?
    ensures r.Fail? ==> r.status == NotFound
    ensures r.Ok? ==> |r.value| <= limit
    ensures r.Ok? ==> forall i :: 0 <= i < |r.value| ==> r.value[i] in pieces && ContentListed(r.value[i].value, caller, f)
  {
    if IdGiven(f.brandId) && OwnedBrand(brands, f.brandId.value, caller).None? then Fail(NotFound)
    else Ok(Page(Select(pieces, (x: Row<ContentPiece>) => ContentListed(x.value, caller, f)), offset, limit))
  }

  /** `list_content` as written: the refusal of a foreign brand filter reads
      `HTTP_404_NOT_FOUND` off `status`, but inside the handler that name is
      the `status` query parameter (a `ContentStatus` or `None`), which hides
      the imported `fastapi.status` module. The lookup raises, nothing
      catches it, and the client gets a 500. Every other reply is the
      intended one. */
  function ListContentAsWritten(brands: seq<Row<Brand>>, pieces: seq<Row<ContentPiece>>, caller: nat,
                                f: ContentFilter, limit: nat, offset: nat): (r: Outcome<seq<Row<ContentPiece>>>)
    ensures r.Fail? <==> IdGiven(f.brandId) && OwnedBrand(brands, f.brandId.value, caller).None?
    ensures r.Fail? ==> r.status == ServerError
    ensures r.Ok? ==> r == ListContent(brands, pieces, caller, f, limit, offset)
  {
    if IdGiven(f.brandId) && OwnedBrand(brands, f.brandId.value, caller).None? then Fail(ServerError)
    else ListContent(brands, pieces, caller, f, limit, offset)
  }

  /** Brand 3 belongs to user 8. User 7 listing with `brand_id=3` gets a
      500 from the handler as written, where a 404 is intended, whatever
      the other filters. */
  lemma ForeignBrandFilterFails(campaignId: Option<int>, contentType: Option<ContentType>,
                                status: Option<ContentStatus>)
    ensures var brands := [Row(3, Brands.Blank("b", 8))];
            var f := ContentFilter(Some(3), campaignId, contentType, status);
            && ListContentAsWritten(brands, [], 7, f, 100, 0) == Fail(ServerError)
            && ListContent(brands, [], 7, f, 100, 0) == Fail(NotFound)
  {
    var brands := [Row(3, Brands.Blank("b", 8))];
    assert OwnedBrand(brands, 3, 7).None?;
  }

  /** A first page long enough holds every admitted piece, in key order,
      and consecutive pages tile the listing. */
  lemma ListContentPages(brands: seq<Row<Brand>>, pieces: seq<Row<ContentPiece>>, caller: nat, f: ContentFilter,
                         limit: nat, offset: nat)
    requires KeysIncreasing(pieces)
    requires !IdGiven(f.brandId) || OwnedBrand(brands, f.brandId.value, caller).Some?
    ensures ListContent(brands, pieces, caller, f, limit, offset).value
            + ListContent(brands, pieces, caller, f, limit, offset + limit).value
            == ListContent(brands, pieces, caller, f, limit + limit, offset).value
    ensures |pieces| <= limit ==>
              var r := ListContent(brands, pieces, caller, f, limit, 0).value;
              && KeysIncreasing(r)
              && (forall i :: 0 <= i < |pieces| && ContentListed(pieces[i].value, caller, f) ==> pieces[i] in r)
  {
    var keep := (x: Row<ContentPiece>) => ContentListed(x.value, caller, f);
    PagesAdjoin(Select(pieces, keep), offset, limit, limit);
    SelectKeepsOrder(pieces, keep);
    if |pieces| <= limit {
      WholePage(Select(pieces, keep), limit);
    }
  }

  /** `get_content`: the caller's piece with that key. */
  function GetContent(rows: seq<Row<ContentPiece>>, caller: nat, id: int): (r: Outcome<ContentPiece>)
    ensures r.Ok? <==> exists i :: 0 <= i < |rows| && rows[i].id == id && rows[i].value.creatorId == caller
    ensures r.Ok? ==> exists i :: 0 <= i < |rows| && rows[i].id == id && rows[i].value == r.value
    ensures r.Fail? ==> r.status == NotFound
  {
    match OwnPiece(rows, id, caller)
    case None => Fail(NotFound)
    case Some(k) => Ok(rows[k].value)
  }

  // ---------------------------------------------------------------------
  // Status

  /** A piece after a status change: any status may follow any other, and
      the notes are replaced only by non-empty ones. */
  function WithStatus(p: ContentPiece, status: ContentStatus, notes: Option<string>): (r: ContentPiece)
    ensures r.(status := p.status, approvalNotes := p.approvalNotes) == p
  {
    p.(status := status, approvalNotes := if notes.Some? && notes.value != "" then notes else p.approvalNotes)
  }

  /** The new status is always the requested one, and missing or empty
      notes keep the earlier ones. */
  lemma StatusAlwaysSet(p: ContentPiece, status: ContentStatus, notes: Option<string>)
    ensures WithStatus(p, status, notes).status == status
    ensures notes.None? || notes.value == "" ==> WithStatus(p, status, notes).approvalNotes == p.approvalNotes
    ensures notes.Some? && notes.value != "" ==> WithStatus(p, status, notes).approvalNotes == notes
  {
  }

  /** `update_content_status`. */
  method UpdateContentStatus(db: Database, caller: nat, id: int, status: ContentStatus, notes: Option<string>)
    returns (r: Outcome<ContentStatus>)
    requires db.Valid()
    modifies db`pieces
    ensures db.Valid()
    ensures r.Ok? <==> OwnPiece(old(db.pieces), id, caller).Some?
    ensures r.Fail? ==> r.status == NotFound && db.pieces == old(db.pieces)
    ensures r.Ok? ==>
              var k := OwnPiece(old(db.pieces), id, caller).value;
              r.value == status
              && db.pieces == old(db.pieces)[k := Row(id, WithStatus(old(db.pieces)[k].value, status, notes))]
  {
    var found := OwnPiece(db.pieces, id, caller);
    if found.None? {
      return Fail(NotFound);
    }
    var k := found.value;
    var p := WithStatus(db.pieces[k].value, status, notes);
    ReplaceKeyed(db.pieces, db.nextPiece, k, p);
    db.pieces := db.pieces[k := Row(db.pieces[k].id, p)];
    r := Ok(status);
  }

  // ---------------------------------------------------------------------
  // Analysis

  /** The text analysed: the metadata's `main_text`, or the whole metadata
      as `str()` shows it when that is empty, when the metadata is a
      non-empty dict; otherwise the generated text. Empty when there is
      none. */
  function AnalysisText(p: ContentPiece): string {
    if Truthy(p.metadata) && p.metadata.JObject? then
      var t := Lookup(p.metadata.fields, "main_text", JString(""));
      if Truthy(t) then Str(t) else Str(p.metadata)
    else if Truthy(p.generatedText) then Str(p.generatedText)
    else ""
  }

  /** Truthy values print as non-empty text. */
  lemma StrOfTruthy(v: JsonValue)
    requires Truthy(v)
    ensures Str(v) != ""
  {
  }

  /** There is no text exactly when the metadata is not a non-empty dict and
      the generated text is empty: a non-empty dict always yields text. */
  lemma AnalysisTextEmpty(p: ContentPiece)
    ensures AnalysisText(p) == "" <==> !(Truthy(p.metadata) && p.metadata.JObject?) && !Truthy(p.generatedText)
  {
    if Truthy(p.metadata) && p.metadata.JObject? {
      var t := Lookup(p.metadata.fields, "main_text", JString(""));
      if Truthy(t) {
        StrOfTruthy(t);
      } else {
        StrOfObject(p.metadata.fields);
      }
    } else if Truthy(p.generatedText) {
      StrOfTruthy(p.generatedText);
    }
  }

  /** A non-empty `main_text` string is analysed as it is, whatever else
      the metadata or the generated text hold. */
  lemma MainTextAnalysed(p: ContentPiece, s: string)
    requires p.metadata.JObject? && Lookup(p.metadata.fields, "main_text", JString("")) == JString(s) && s != ""
    ensures AnalysisText(p) == s
  {
    assert HasKey(p.metadata.fields, "main_text");
  }

  /** The keys of `ContentAnalysisResponse`. */
  const AnalysisKeys := ["overall_score", "voice_alignment", "values_alignment", "guideline_compliance",
                         "strengths", "weaknesses", "suggestions", "brand_consistency"]

  /** The handler's reading of the analysis: a dict without an `error` key
      that has every response field; anything else is a 500. */
  function AcceptAnalysis(v: Option<JsonValue>): (r: Outcome<JsonValue>)
    ensures r.Ok? ==> v == Some(r.value) && r.value.JObject? && !HasKey(r.value.fields, "error")
    ensures r.Ok? ==> forall k :: k in AnalysisKeys ==> HasKey(r.value.fields, k)
    ensures r.Fail? ==> r.status == ServerError
  {
    if v.Some? && v.value.JObject? && !HasKey(v.value.fields, "error")
       && forall k :: k in AnalysisKeys ==> HasKey(v.value.fields, k)
    then Ok(v.value)
    else Fail(ServerError)
  }

  /** The generator's answers on failure never pass: no provider, a raised
      call (its record has an `error` key), and a reply that was not read as
      JSON (its record has no score) all become a 500. */
  lemma FailuresRejected(message: string, text: string, ct: ContentType)
    ensures AcceptAnalysis(None).Fail?
    ensures AcceptAnalysis(Some(AnalysisError(message))).Fail?
    ensures AcceptAnalysis(Some(RawRecord(text, ct))).Fail?
  {
    var e := AnalysisError(message);
    assert e.fields[0].0 == "error";
    var raw := RawRecord(text, ct);
    assert !HasKey(raw.fields, "overall_score") by {
      assert raw.fields[0].0 == "raw_content" && raw.fields[1].0 == "parsed" && raw.fields[2].0 == "content_type";
    }
    assert "overall_score" in AnalysisKeys;
  }

  /** `filter(Brand.id == id).first()`: any brand, whoever owns it. */
  function BrandById(rows: seq<Row<Brand>>, id: int): (r: Option<nat>)
    ensures r.Some? ==> r.value < |rows| && rows[r.value].id == id
    ensures r.None? ==> forall i :: 0 <= i < |rows| ==> rows[i].id != id
  {
    Find(rows, (x: Row<Brand>) => x.id == id)
  }

  /** `analyze_brand_consistency`: the caller's piece (404), some text to
      analyse (400), its brand, and an answer the response model accepts
      (500 otherwise). No provider is preferred. */
  method AnalyzeContent(db: Database, gen: AIContentGenerator, caller: nat, id: int,
                        respond: (AIProvider, string) -> ProviderReply, parse: string -> Option<JsonValue>)
    returns (r: Outcome<JsonValue>)
    ensures OwnPiece(db.pieces, id, caller).None? ==> r == Fail(NotFound)
    ensures OwnPiece(db.pieces, id, caller).Some? ==>
              var p := db.pieces[OwnPiece(db.pieces, id, caller).value].value;
              var b := BrandById(db.brands, p.brandId);
              && (AnalysisText(p) == "" ==> r == Fail(BadRequest))
              && (AnalysisText(p) != "" && b.None? ==> r == Fail(ServerError))
              && (AnalysisText(p) != "" && b.Some? && gen.SelectProvider(None).None? ==> r == Fail(ServerError))
              && (AnalysisText(p) != "" && b.Some? && gen.SelectProvider(None).Some? ==>
                    var reply := respond(gen.SelectProvider(None).value,
                                         AnalysisPrompt(db.brands[b.value].value, AnalysisText(p)));
                    (reply.ProviderError? ==> r == Fail(ServerError))
                    && (reply.Reply? ==> r == AcceptAnalysis(Some(ParseResponse(reply.text, p.contentType, parse)))))
  {
    var found := OwnPiece(db.pieces, id, caller);
    if found.None? {
      return Fail(NotFound);
    }
    var p := db.pieces[found.value].value;
    var b := BrandById(db.brands, p.brandId);
    var text := AnalysisText(p);
    if text == "" {
      return Fail(BadRequest);
    }
    if b.None? {
      return Fail(ServerError);
    }
    var analysis, _ := gen.AnalyzeBrandConsistency(db.brands[b.value].value, text, p.contentType, None, respond, parse);
    FailuresRejected(if analysis.Some? && analysis.value.JObject? && |analysis.value.fields| > 0 && analysis.value.fields[0].1.JString?
                     then analysis.value.fields[0].1.s else "", "", p.contentType);
    r := AcceptAnalysis(analysis);
  }

  // ---------------------------------------------------------------------
  // Image prompt and deletion

  /** The body `generate_image_prompt` returns. */
  datatype ImagePromptReply = ImagePromptReply(imagePrompt: Option<string>, brandName: string, description: string)

  /** `generate_image_prompt`: the caller's brand (404), then whatever the
      generator produced, `None` when no provider is available. */
  method GenerateImagePrompt(db: Database, gen: AIContentGenerator, caller: nat, brandId: int, description: string,
                             style: Option<Fields>, respond: (AIProvider, string) -> ProviderReply)
    returns (r: Outcome<ImagePromptReply>)
    ensures r.Fail? <==> OwnedBrand(db.brands, brandId, caller).None?
    ensures r.Fail? ==> r.status == NotFound
    ensures r.Ok? ==>
              var brand := db.brands[OwnedBrand(db.brands, brandId, caller).value].value;
              && r.value.brandName == brand.name && r.value.description == description
              && (r.value.imagePrompt.None? <==> gen.SelectProvider(None).None?)
              && (r.value.imagePrompt.Some? ==>
                    var reply := respond(gen.SelectProvider(None).value,
                                         Join(ImagePromptLines(brand, description, style), "\n"));
                    r.value.imagePrompt.value
                    == if reply.Reply? then Strip(reply.text) else ImageFallback(brand.name, description))
  {
    var b := OwnedBrand(db.brands, brandId, caller);
    if b.None? {
      return Fail(NotFound);
    }
    var brand := db.brands[b.value].value;
    var prompt := gen.GenerateImagePrompt(brand, description, style, None, respond);
    r := Ok(ImagePromptReply(prompt, brand.name, description));
  }

  /** `delete_content`: the row is removed from the table. */
  method DeleteContent(db: Database, caller: nat, id: int) returns (r: Outcome<()>)
    requires db.Valid()
    modifies db`pieces
    ensures db.Valid()
    ensures r.Ok? <==> OwnPiece(old(db.pieces), id, caller).Some?
    ensures r.Fail? ==> r.status == NotFound && db.pieces == old(db.pieces)
    ensures r.Ok? ==>
              var k := OwnPiece(old(db.pieces), id, caller).value;
              db.pieces == Removed(old(db.pieces), k)
  {
    var found := OwnPiece(db.pieces, id, caller);
    if found.None? {
      return Fail(NotFound);
    }
    var k := found.value;
    RemoveKeyed(db.pieces, db.nextPiece, k);
    db.pieces := Removed(db.pieces, k);
    r := Ok(());
  }
}
