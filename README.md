# Brand content backend: a Dafny model

This project models the core of a FastAPI/SQLAlchemy backend. The backend
keeps brands, their campaigns, generated content pieces and uploaded
reference materials. It asks a large language model to write content that
follows a brand's guidelines.

The model covers these parts of the backend:

- **The generator services.** The multi-provider `AIContentGenerator`
  (`providers.dfy`) and the single-provider `ClaudeContentGenerator`
  (`claude.dfy`). They share these pieces:
  - the prompt builder (`prompt.dfy`) and its formatters;
  - the image-prompt and brand-consistency prompts (`side_prompts.dfy`);
  - the normalisation of a model's reply into a JSON value
    (`response.dfy`).
- **The endpoint handlers** for content, campaigns, brands and uploads
  (`content.dfy`, `campaigns.dfy`, `brands.dfy`, `uploads.dfy`). They work
  on one `Tables.Database` object. Its four tables are sequences of keyed
  rows in primary-key order. `Database.Valid` states the invariants the
  handlers keep:
  - keys increase along each table and stay below the next key;
  - an owner's brand names are unique;
  - a brand's campaign names are unique.

  The handlers keep name uniqueness only with the intended rename guard.
  `update_brand` and `update_campaign` as written skip the check for a
  rename to "" and can break it (see "## Findings"); the handlers modelled
  here use the intended guard.
- **The settings** the core reads (`config.dfy`): the CORS origins
  property and the upload limits.

Supporting modules:

- `text.dfy` models the Python string operations used:
  - `lower`, `title`, `replace`, `split` with and without a separator,
    `strip` and `join`;
  - slicing;
  - `rfind` / `find`.
- `json.dfy` models decoded JSON values, Python truthiness, `dict.get`,
  `str()` and `repr()`.
- `models.dfy` holds the ORM records and enums.

Calls the model cannot see become parameters:

- A provider SDK call is the function `respond`. It returns the reply text
  and token count, or the message of the exception it raises.
- `json.loads` is `parse`. It returns the decoded value, or nothing when
  decoding raises.
- The authenticated user is the caller's id.
- Upload tokens (uuid) are the parameter `token`.
- Image dimensions are read by the imaging library and become the
  parameter `image`.
- The Claude and Gemini client constructors raising or not become the
  flags `claudeStarts` and `geminiStarts`.

An `HTTPException` is a `Fail(status)` outcome. Within a `try`, any
exception the handler catches becomes `Fail(ServerError)`.

## Model

| member | source | states |
|---|---|---|
| Config.AllowedOrigins | backend/app/core/config.py:49-53 | A list setting is returned unchanged. A text setting gives one origin per comma-separated piece, each with surrounding whitespace stripped. |
| Config.OriginsFromText | backend/app/core/config.py:49-53 | A text with n commas gives n+1 origins. No origin contains a comma, or starts or ends with whitespace. |
| Config.OriginsRoundTrip | backend/app/core/config.py:49-53 | Joining a list of stripped, comma-free origins with "," and reading it back yields that list. |
| Config.DefaultUploadSettingsShape | backend/app/core/config.py:36-39 | The default upload limit is 50 MB. No extension is both an image type and a document type. |
| Models.EnumValuesDistinct | backend/app/models/models.py:12-25 | Distinct content types, and distinct content statuses, have distinct stored string values. |
| Models.OrElse | backend/app/services/ai_service.py:223-224 | `x or default` on a text column: the value when it is non-empty, otherwise the default. |
| Json.Lookup | backend/app/api/endpoints/content.py:143-147 | `dict.get(key, default)` is the default exactly when the key is absent; otherwise it is a value stored under the key. |
| Prompt.FormatJsonListLines | backend/app/services/ai_service.py:341-345 | A list renders as one `- item` line per element, in order. Splitting the text at newlines gives those lines back. |
| Prompt.FormatFieldsLines | backend/app/services/ai_service.py:347-351 | A dict renders as one `- **Key:** value` line per entry, in order, with the key title-cased. |
| Prompt.FormatReferenceMaterials | backend/app/services/ai_service.py:353-362 | The loop builds exactly the line-by-line specification `ReferenceLines` of all materials, in order, joined by newlines. |
| Prompt.MaterialContentLine | backend/app/services/ai_service.py:353-362 | A material has a Content line exactly when its extracted text is non-empty. That line holds a prefix of the text of length min(500, length). |
| Prompt.MaterialTagsLine | backend/app/services/ai_service.py:353-362 | A material has a Tags line exactly when its tag list is non-empty. |
| Prompt.PlatformNamed | backend/app/services/ai_service.py:368-401 | A name finds a platform only when it is that platform's key. Any other name finds none. |
| Prompt.NamesDistinct | backend/app/services/ai_service.py:368-401 | Every platform is found by its own key, so the table's keys are distinct. |
| Prompt.PlatformExactEntry | backend/app/services/ai_service.py:368-401 | A known platform (compared lower-cased) with an entry for the content type gives exactly that entry. |
| Prompt.PlatformFallbackJoinsAll | backend/app/services/ai_service.py:368-401 | A known platform without an entry for the content type gives all of its entries joined by a newline. |
| Prompt.PlatformUnknownKeepsName | backend/app/services/ai_service.py:368-401 | An unknown platform gives the generic sentence naming the platform as the caller spelt it. |
| Prompt.PlatformCaseInsensitive | backend/app/services/ai_service.py:368-401 | Names that agree after lower-casing get the same guidance for a known platform. |
| Prompt.OutputFormat | backend/app/services/ai_service.py:403-477 | Every content type's instructions start with the shared preamble, open with a newline and end with the closing brace of the JSON template. |
| Prompt.AddBlock | backend/app/services/ai_service.py:228-234 | An optional block appends its header, body and blank line when its input is given, and nothing otherwise. |
| Prompt.AddBrandGuidance | backend/app/services/ai_service.py:228-266 | Appends the voice, audience, values, pillars and guideline blocks exactly as `BrandGuidance` lists them. The request's audience takes precedence over the brand's. |
| Prompt.AddContextBlocks | backend/app/services/ai_service.py:268-297 | Appends the hashtag, banned-word, reference and platform blocks exactly as `ContextBlocks` lists them. |
| Prompt.AddAdditionalContext | backend/app/services/ai_service.py:307-313 | Appends the additional-context block when the context is non-empty. |
| Prompt.BuildPrompt | backend/app/services/ai_service.py:202-333 | The builder's text is the newline join of `PromptParts`. It always ends with the final instruction. |
| Prompt.BriefIncluded | backend/app/services/ai_service.py:299-305 | The brief line is always among the prompt's lines. |
| Prompt.SectionShown | backend/app/services/ai_service.py:228-313 | Each optional section whose input is truthy has its header in the prompt. |
| Prompt.HeaderShownIff | backend/app/services/ai_service.py:228-313 | A section's header is among the prompt's lines if and only if its input is truthy. This holds when no section body happens to equal that header. |
| Prompt.HeadersDistinct | backend/app/services/ai_service.py:228-313 | Different sections have different headers. |
| Prompt.HeaderIdentifies | backend/app/services/ai_service.py:228-313 | A header line names exactly one section. |
| Prompt.HeaderShape | backend/app/services/ai_service.py:217-320 | Optional headers are non-empty `#` lines, distinct from the four fixed headings. |
| SidePrompts.BuildImagePrompt | backend/app/services/ai_service.py:512-539 | The image request, built line by line, is the newline join of `ImagePromptLines` and ends with the request sentence. |
| SidePrompts.ImagePromptShows | backend/app/services/ai_service.py:512-539 | The image request always names the brand and the content. It shows the imagery style, the colours and the style preferences exactly when each is truthy, one line per truthy input. |
| SidePrompts.ImageFallback | backend/app/services/ai_service.py:563-565 | The fallback image prompt starts with "Create an image for" and the brand name, and ends with the description. |
| SidePrompts.ValuesText | backend/app/services/ai_service.py:587 | Brand values that are not truthy show as "Not specified". |
| SidePrompts.GuidelinesText | backend/app/services/ai_service.py:588 | Content guidelines that are not truthy show as "Not specified". |
| SidePrompts.AnalysisPromptShape | backend/app/services/ai_service.py:582-604 | The analysis request opens with the brand facts and the content to analyse, and closes with the JSON template. |
| Response.SearchSpan | backend/app/services/ai_service.py:479-501 | The span of the greedy `\{.*\}` search is the leftmost match and the longest from there. It is absent exactly when no `}` follows a `{`. |
| Response.JsonSpan | backend/app/services/ai_service.py:479-501 | A found span starts with `{` and ends with `}`. |
| Response.WholeReplySpan | backend/app/services/ai_service.py:479-501 | A reply that is one braced text is its own span. |
| Response.ProseAroundSpan | backend/app/services/ai_service.py:479-501 | Prose before the first `{` and after the last `}` is cut away. |
| Response.RawRecord | backend/app/services/ai_service.py:488-501 | The fallback record holds exactly the raw text, `parsed: False` and the content type. |
| Response.SpanDecides | backend/app/services/ai_service.py:479-501 | Replies with the same decodable span normalise to the same value, the decoded span. |
| Response.ParsedFlag | backend/app/services/ai_service.py:479-501 | The normalised value's `parsed` entry is False for the fallback record. Otherwise it is whatever the decoded JSON carries. |
| Response.AnalysisError | backend/app/services/ai_service.py:628-633 | A failed analysis carries the error message and a falsy score of 0. |
| Providers.ProviderNamed | backend/app/services/ai_service.py:13-15 | `AIProvider(value)` finds the member with that value, and no member for any other text. |
| Providers.ListedShape | backend/app/services/ai_service.py:18-43 | The available list has at most two entries, without repeats. When both are listed, Claude comes first. |
| Providers.FallbackFor | backend/app/services/ai_service.py:121-126 | The fallback is an available provider other than the primary. There is none exactly when every available provider is the primary. |
| Providers.FallbackIsFirst | backend/app/services/ai_service.py:121-126 | The fallback is the first available provider that differs from the primary. |
| Providers.AttemptReports | backend/app/services/ai_service.py:128-200 | A provider attempt returns exactly when the provider replies. The result then names the provider, its model, the prompt sent and the token count. |
| Providers.AIContentGenerator.constructor | backend/app/services/ai_service.py:18-43 | Claude is available if and only if the Anthropic key is non-empty and the client starts. Gemini is available if and only if a Google key is set and the model starts. |
| Providers.AIContentGenerator.SelectProvider | backend/app/services/ai_service.py:108-119 | An available preferred provider is chosen. Otherwise Claude is chosen when available, then Gemini. Nothing is chosen only when nothing is available. |
| Providers.AIContentGenerator.GetFallbackProvider | backend/app/services/ai_service.py:121-126 | The loop returns exactly `FallbackFor` of the available list. |
| Providers.AIContentGenerator.Dispatch | backend/app/services/ai_service.py:59-106 | See `Dispatches`. Nothing is called when no provider is available. The selected provider is tried first. After it raises, the fallback is tried once. A success is the last attempt's result. A total failure reports the primary's exception. |
| Providers.AIContentGenerator.GenerateContent | backend/app/services/ai_service.py:45-106 | The prompt is `PromptText` of the request, and the result obeys the dispatch promise. |
| Providers.AIContentGenerator.GenerateImagePrompt | backend/app/services/ai_service.py:503-565 | With no provider there is no result. Otherwise the result is the stripped reply, or the fallback prompt when the call raises. |
| Providers.AIContentGenerator.AnalyzeBrandConsistency | backend/app/services/ai_service.py:573-633 | With no provider there is no result. Otherwise the result is the normalised reply, or the error record when the call raises. |
| Providers.SomeoneListed | backend/app/services/ai_service.py:42-43 | The list is non-empty if and only if Claude or Gemini is in it. |
| Providers.FallbackDiffers | backend/app/services/ai_service.py:121-126 | For a listed primary, a fallback exists if and only if both providers are available. It is then the other one. |
| Claude.ClaudeContentGenerator.Send | backend/app/services/claude_service.py:41-66 | Success if and only if the call replies. The result carries the normalised reply, the model, the prompt and the tokens, and no provider name. A failure carries the exception's message. |
| Claude.ClaudeContentGenerator.GenerateContent | backend/app/services/claude_service.py:16-66 | The prompt is the same as the multi-provider builder's. A success equals that service's Claude attempt, without the provider name. |
| Claude.ClaudeContentGenerator.GenerateImagePrompt | backend/app/services/claude_service.py:373-421 | The result is the stripped reply to the shared image request, or the fallback prompt when the call raises. |
| Claude.ClaudeContentGenerator.AnalyzeBrandConsistency | backend/app/services/claude_service.py:429-477 | The analysis request is the shared one. The result is the normalised reply, or the error record. |
| Tables.Find | backend/app/api/endpoints/brands.py:153-156 | `.first()` returns the first row the filter admits, or none when no row does. |
| Tables.Select | backend/app/api/endpoints/brands.py:138-141 | A filter returns exactly the admitted rows of the table. |
| Tables.SelectKeepsOrder | backend/app/api/endpoints/brands.py:138-141 | Filtering keeps the rows in key order. |
| Tables.Page | backend/app/api/endpoints/brands.py:141 | `offset(skip).limit(limit)` is the window of at most `limit` rows starting at `skip`. |
| Tables.PagesAdjoin | backend/app/api/endpoints/brands.py:141 | Consecutive pages tile the list. |
| Tables.AppendUnique | backend/app/api/endpoints/brands.py:88-98 | Inserting a record whose name is not taken keeps names unique. |
| Tables.ReplaceUnique | backend/app/api/endpoints/brands.py:186-203 | An update that keeps the name, or takes a name no other row has, keeps names unique. |
| Tables.Removed | backend/app/api/endpoints/content.py:380-381 | Deleting the row at position k shifts later rows down by one. |
| Tables.RemovedGone | backend/app/api/endpoints/content.py:380-381 | After the delete, the row's key is gone and every other row is still present. |
| Tables.RenameGuardsDiffer | backend/app/api/endpoints/brands.py:187 | The written and intended rename guards disagree exactly when a non-empty name is renamed to the empty one. |
| Tables.Database.constructor | backend/app/models/models.py:45-74 | An empty database satisfies the invariant. |
| Brands.Patched | backend/app/api/endpoints/brands.py:200-203 | Applying the fields set in the request never changes the owner. |
| Brands.PatchLaws | backend/app/api/endpoints/brands.py:200-203 | An empty update changes nothing. Repeating an update is the same as doing it once. Two updates in a row act as their merge. |
| Brands.UpdateRestores | backend/app/api/endpoints/brands.py:200-203 | Setting `is_active` again through an update restores a soft-deleted brand. |
| Brands.OwnedBrand | backend/app/api/endpoints/brands.py:153-156 | Finds the brand with this id owned by the caller, or establishes that none exists. |
| Brands.ActiveBrandsOf | backend/app/api/endpoints/brands.py:138-141 | Exactly the caller's active brands. |
| Brands.ListBrands | backend/app/api/endpoints/brands.py:130-143 | At most `limit` brands, each active and the caller's. |
| Brands.ListBrandsOrderAndCover | backend/app/api/endpoints/brands.py:130-143 | The first page is in key order. When it is large enough, it holds every active brand of the caller. |
| Brands.GetBrand | backend/app/api/endpoints/brands.py:146-164 | Found if and only if the caller owns a brand with that id, active or not. Otherwise 404. |
| Brands.CreateBrand | backend/app/api/endpoints/brands.py:81-127 | 400 if and only if the caller already has a brand of that name, and then nothing changes. Otherwise one row with a fresh key is appended. |
| Brands.UpdateBrand | backend/app/api/endpoints/brands.py:167-208 | 404 for a brand the caller does not own. 400 when a rename collides with another brand of the caller. Otherwise only that row is replaced by the patched brand. |
| Brands.DeleteBrand | backend/app/api/endpoints/brands.py:211-233 | A soft delete: only that row's `is_active` becomes false. 404 leaves the table unchanged. |
| Brands.DuplicateCopiesGuidelines | backend/app/api/endpoints/brands.py:322-343 | The copy differs from the original only in name, owner and activity. |
| Brands.DuplicateBrand | backend/app/api/endpoints/brands.py:291-352 | 404 when the original is not the caller's. 400 when the new name is taken. Otherwise the copy is appended under a fresh key. |
| Brands.EmptyRenameDuplicates | backend/app/api/endpoints/brands.py:186-203 | A concrete table where the written guard lets a rename to "" produce two brands of one owner named "". The intended guard refuses it. |
| Campaigns.Patched | backend/app/api/endpoints/campaigns.py:209-212 | An update never changes the campaign's brand or creator. |
| Campaigns.PatchLaws | backend/app/api/endpoints/campaigns.py:209-212 | An empty update changes nothing. Updates are idempotent. A status-only update changes only the status. |
| Campaigns.OwnCampaign | backend/app/api/endpoints/campaigns.py:162-165 | Finds the caller's campaign with this id, or establishes that none exists. |
| Campaigns.ListCampaigns | backend/app/api/endpoints/campaigns.py:123-152 | The intended handler: 404 if and only if a brand filter names a brand the caller does not own. Otherwise at most `limit` campaigns, each admitted by every filter that applies. The handler as written replies 500 instead of that 404 (see "## Findings"). |
| Campaigns.ListCampaignsAsWritten | backend/app/api/endpoints/campaigns.py:123-152 | The handler as written: it fails if and only if a brand filter names a brand the caller does not own, and then with 500, because `status` there is the query parameter. Every successful reply is the intended one. |
| Campaigns.ForeignBrandFilterFails | backend/app/api/endpoints/campaigns.py:125-145 | For a brand owned by another user, with or without a status filter, the handler as written replies 500 where the intended handler replies 404. |
| Campaigns.ListCampaignsComplete | backend/app/api/endpoints/campaigns.py:123-152 | A large enough first page holds every admitted campaign, in key order. |
| Campaigns.GetCampaign | backend/app/api/endpoints/campaigns.py:155-173 | Found if and only if the caller created a campaign with that id. Otherwise 404. |
| Campaigns.GetCampaignContent | backend/app/api/endpoints/campaigns.py:245-274 | 404 for another's campaign. Otherwise exactly the pieces of that campaign, with their count and the campaign's name. |
| Campaigns.CreateCampaign | backend/app/api/endpoints/campaigns.py:68-120 | 404 when the brand is not the caller's. 400 when the brand already has a campaign of that name. Otherwise a fresh row with planning status is appended. |
| Campaigns.UpdateCampaign | backend/app/api/endpoints/campaigns.py:176-217 | 404 for another's campaign. 400 on a name collision within the brand. Otherwise only that row is replaced by the patched campaign. |
| Campaigns.DeleteCampaign | backend/app/api/endpoints/campaigns.py:220-242 | A soft delete of exactly that row, or a 404 that changes nothing. |
| Campaigns.DuplicateKeepsPlan | backend/app/api/endpoints/campaigns.py:371-384 | The copy keeps the brand and plan. It has planning status, no dates and zero progress. |
| Campaigns.DuplicateCampaign | backend/app/api/endpoints/campaigns.py:339-392 | 404 for another's campaign. 400 when the name is taken within the brand. Otherwise the copy is appended under a fresh key. |
| Campaigns.EmptyRenameDuplicates | backend/app/api/endpoints/campaigns.py:195-212 | A concrete table where the written guard lets a rename to "" produce two campaigns of one brand named "". The intended guard refuses it. |
| Content.PreferredProvider | backend/app/api/endpoints/content.py:107-112 | The preferred name, lower-cased, selects the provider with that value. An unknown name selects none instead of raising. |
| Content.PreferredIgnoresCase | backend/app/api/endpoints/content.py:107-112 | The choice of provider does not depend on the name's letter case. |
| Content.BrandCampaign | backend/app/api/endpoints/content.py:86-96 | A given campaign must belong to the request's brand, whoever created it. |
| Content.RequestedMaterials | backend/app/api/endpoints/content.py:99-104 | Exactly the rows whose id was requested and whose brand is the request's. None when no ids are given. |
| Content.CountsOrdered | backend/app/api/endpoints/content.py:156-161 | The stored word count never exceeds the character count. |
| Content.RawCounts | backend/app/api/endpoints/content.py:156-161 | For an undecoded reply, the counts are those of the raw text. Empty text leaves them unset. |
| Content.MainTextCounted | backend/app/api/endpoints/content.py:156-158 | A non-empty `main_text` is what gets counted. |
| Content.RecordAsWritten | backend/app/api/endpoints/content.py:137-153 | As written, a stored piece never keeps both the raw text and the metadata. |
| Content.NewPiece | backend/app/api/endpoints/content.py:137-161 | The record has the title "<Content Type> - <brand>" and the request's brand, campaign, creator, platform and materials. It records the generator's model, prompt, provider and tokens, and has status generated. The counts are set exactly when there is text to count. A reply whose counted value is not text fails with 500. |
| Content.RawReplyKept | backend/app/api/endpoints/content.py:143-146 | An undecoded reply keeps its raw text as the generated text, without metadata. |
| Content.DecodedReplyKept | backend/app/api/endpoints/content.py:143-146 | A decoded reply is kept whole as metadata (intended reading of `parsed`). |
| Content.ParsedReplyLost | backend/app/api/endpoints/content.py:143-146 | As written, a decoded reply with `main_text` is stored with neither generated text nor metadata, while the corrected record keeps it. |
| Content.Prepared | backend/app/api/endpoints/content.py:74-104 | 404 if and only if the brand is not the caller's, or a given campaign is not of that brand. Otherwise the brand row and the requested materials. |
| Content.AskGenerator | backend/app/api/endpoints/content.py:66-131 | The generator is called exactly when the checks pass. It gets the prompt built from the request, the brand and the materials, with the preferred provider. |
| Content.PieceFor | backend/app/api/endpoints/content.py:127-131 | A failed generation gives 500 and no record. |
| Content.Store | backend/app/api/endpoints/content.py:163-167 | A valid record is appended under the next key. A failure leaves the table unchanged. |
| Content.SaveGeneration | backend/app/api/endpoints/content.py:127-173 | The piece for the answer is appended, or the failure is returned with the table unchanged. The invariant holds. |
| Content.OwnPiece | backend/app/api/endpoints/content.py:223-226 | Finds the caller's piece with this id, or establishes that none exists. |
| Content.ListContent | backend/app/api/endpoints/content.py:176-213 | The intended handler: 404 if and only if a brand filter names a brand the caller does not own. Otherwise at most `limit` of the caller's pieces that pass every filter that applies. The handler as written replies 500 instead of that 404 (see "## Findings"). |
| Content.ListContentAsWritten | backend/app/api/endpoints/content.py:176-213 | The handler as written: it fails if and only if a brand filter names a brand the caller does not own, and then with 500, because `status` there is the query parameter. Every successful reply is the intended one. |
| Content.ForeignBrandFilterFails | backend/app/api/endpoints/content.py:180-200 | For a brand owned by another user, whatever the other filters, the handler as written replies 500 where the intended handler replies 404. |
| Content.ListContentPages | backend/app/api/endpoints/content.py:176-213 | Consecutive pages tile the listing. A large enough first page holds every admitted piece, in key order. |
| Content.GetContent | backend/app/api/endpoints/content.py:216-234 | Found if and only if the caller created a piece with that id. Otherwise 404. |
| Content.WithStatus | backend/app/api/endpoints/content.py:257-259 | A status update changes only the status and the approval notes. |
| Content.StatusAlwaysSet | backend/app/api/endpoints/content.py:257-259 | The status is always set. The notes are replaced only by non-empty notes. |
| Content.UpdateContentStatus | backend/app/api/endpoints/content.py:237-263 | 404 with nothing changed, or exactly that row updated and the new status returned. |
| Content.AnalysisTextEmpty | backend/app/api/endpoints/content.py:286-299 | The text to analyse is empty if and only if the piece has neither truthy dict metadata nor truthy generated text. |
| Content.MainTextAnalysed | backend/app/api/endpoints/content.py:288-291 | A non-empty `main_text` in the metadata is the text analysed. |
| Content.AcceptAnalysis | backend/app/api/endpoints/content.py:308-320 | An accepted analysis is a dict without `error` that has every key of the response model. Anything else is 500. |
| Content.FailuresRejected | backend/app/api/endpoints/content.py:301-320 | No provider, the error record and an undecoded reply are all rejected. |
| Content.BrandById | backend/app/api/endpoints/content.py:284 | Finds the brand with this id, or establishes that none exists. |
| Content.AnalyzeContent | backend/app/api/endpoints/content.py:266-320 | 404 for another's piece. 400 when there is nothing to analyse. 500 when the brand is missing, no provider is available or the call raises. Otherwise the checked normalised reply to the analysis prompt. |
| Content.GenerateImagePrompt | backend/app/api/endpoints/content.py:323-359 | 404 if and only if the brand is not the caller's. Otherwise the brand name, the description and the image prompt (absent when no provider exists). |
| Content.DeleteContent | backend/app/api/endpoints/content.py:362-383 | A hard delete of exactly that row, or a 404 that changes nothing. |
| Uploads.Extension | backend/app/api/endpoints/uploads.py:44-49 | The lower-cased text after the last dot. It is absent exactly when there is no dot. |
| Uploads.ExtensionOf | backend/app/api/endpoints/uploads.py:44-49 | The extension of `stem.ext` is `ext` lower-cased. |
| Uploads.AllowedFile | backend/app/api/endpoints/uploads.py:44-49 | A file without a dot is never allowed. |
| Uploads.AllowedIgnoresCase | backend/app/api/endpoints/uploads.py:44-49 | A name is allowed if and only if its lower-cased extension is listed, whatever the case of the name. |
| Uploads.FileType | backend/app/api/endpoints/uploads.py:51-63 | "unknown" exactly when the name has no dot. |
| Uploads.AllowedIsClassified | backend/app/api/endpoints/uploads.py:51-63 | A name passes the combined image and document check if and only if it is classified image or document. |
| Uploads.StoredNameKeepsExtension | backend/app/api/endpoints/uploads.py:139-141 | The stored name keeps the upload's extension, under any directory. |
| Uploads.FilePath | backend/app/api/endpoints/uploads.py:305-306 | A URL under `/uploads/` names the file at the URL without its leading slash. Other URLs name no file. |
| Uploads.ReferencePathRoundTrip | backend/app/api/endpoints/uploads.py:139-306 | Deleting a stored reference material names the file it was saved to. |
| Uploads.SizeBoundary | backend/app/api/endpoints/uploads.py:132-136 | A file of exactly the limit is accepted and one byte more is rejected. The default limit is 52428800 bytes. |
| Uploads.DimensionTags | backend/app/api/endpoints/uploads.py:156-181 | The first tag is landscape, portrait or square as width exceeds, falls short of or equals height. `high-resolution` is added exactly when a side is at least 1920. |
| Uploads.NewMaterial | backend/app/api/endpoints/uploads.py:184-202 | The inserted record's fields. Empty descriptions and tag lists are stored as null. |
| Uploads.UploadReferenceMaterial | backend/app/api/endpoints/uploads.py:96-202 | 404 for another's brand, 400 for a disallowed type, 400 for an oversize file. It succeeds if and only if all pass, and then appends exactly the new record under the next key. |
| Uploads.ListReferenceMaterials | backend/app/api/endpoints/uploads.py:204-236 | 404 if and only if the brand is not the caller's. Otherwise at most `limit` active materials of that brand and type. |
| Uploads.ListMaterialsComplete | backend/app/api/endpoints/uploads.py:204-236 | A large enough first page holds every admitted material, in key order. |
| Uploads.MaterialById | backend/app/api/endpoints/uploads.py:246-248 | Finds the material with this id, or establishes that none exists. |
| Uploads.Used | backend/app/api/endpoints/uploads.py:269 | One more use increments the usage count and changes nothing else. |
| Uploads.GetReferenceMaterial | backend/app/api/endpoints/uploads.py:238-272 | Found if and only if the material exists and its brand is the caller's. Its usage count is then incremented in place. |
| Uploads.DeleteReferenceMaterial | backend/app/api/endpoints/uploads.py:274-314 | A soft delete of exactly that material, returning the file to remove. A 404 changes nothing. |
| Uploads.DeletedHiddenNotGone | backend/app/api/endpoints/uploads.py:204-314 | After a soft delete, no listing shows the material, yet a lookup by id still finds it. |
| Uploads.WithLogo | backend/app/api/endpoints/uploads.py:366-369 | The new logo URL is appended to an existing list, or starts a new one. |
| Uploads.UploadBrandLogo | backend/app/api/endpoints/uploads.py:316-377 | 404, 400 for a non-image, 400 for an oversize file. Otherwise only that brand's logo list changes, with the new URL appended. |
| Uploads.LogoAppended | backend/app/api/endpoints/uploads.py:355-369 | Earlier logos are kept in order, and the new URL keeps the upload's extension. |

## Left out

- The analytics endpoints of brands and campaigns (`get_brand_analytics`, `get_campaign_analytics`) are not modelled. They only count and group rows for reporting, and their group-by queries go through SQL functions.
- `get_available_providers`, `is_provider_available` and the `providers/available` endpoint are not modelled. They return the available list unchanged.
- `get_upload_info` is not modelled. It returns constant settings.
- `analyze_image_colors` and the colour and style analysis of uploaded images are not modelled. They need the imaging library. The image's dimensions enter the model as a parameter.
- File I/O is not modelled: saving and removing files, and directory creation. Upload tokens (uuid), timestamps, logging and the session's commit and refresh are not modelled either.
- Exceptions raised while writing a file are not modelled.
- Temperature and maximum token settings of provider calls are not modelled. They do not affect what the backend does with the answer.
- Gemini's token count is taken as `respond` reports it, so the SDK's usage metadata is not modelled.
- Content.GenerateContent: `generate_content` is modelled as two phases, `AskGenerator` and then `SaveGeneration`, with no single method composing them. A composed method exceeds the verifier's resource limit. Each phase states its whole effect, and `SaveGeneration` takes the first phase's answer as input.
- Content.AcceptAnalysis: the check of the analysis response model is reduced to the presence of its keys. The types of the scores and lists are not checked.
- Brands.UpdateBrand and Campaigns.UpdateCampaign: an update that sends an explicit null for a field whose patch type is not optional (`name`; Campaign `status`, `progress` and `is_active`; Brand `is_active`) is not modelled. A patch field there is either absent or a value. In the source, a null `name` fails the commit (the column is NOT NULL), so the client gets a 500 and nothing is stored. The other four columns are nullable: the null is committed, then the reply fails response validation. The client gets a 500 while the null stays stored, which the model does not capture.
- Brands.ListBrands, Campaigns.ListCampaigns, Content.ListContent and Uploads.ListReferenceMaterials: `skip` and `limit` are natural numbers. Negative values, which the database refuses, are not modelled.
- Uploads.UploadBrandLogo: `logo_urls` is a JSON column that the handler appends to in place. Whether the ORM notices that change is not modelled. The model stores the extended list.
- Json.Repr: Python's choice of quotes and its escaping in `repr()` are not modelled. Strings are shown between single quotes.
- Text.Lower and Text.Title: only ASCII letters change case.
- The `ClaudeContentGenerator` client setup and the Gemini SDK configuration are not modelled beyond the flags saying whether each client starts.
- The response models and the request schemas are represented only by the fields the handlers read or write.

## Findings

| source | as written | input that shows it | evidently intended | confidence | as-written member | corrected member |
|---|---|---|---|---|---|---|
| backend/app/api/endpoints/brands.py:187 | The rename check runs only when the new name is truthy, so a rename to "" skips it (the same guard is at campaigns.py:196). | The owner has brands "" (id 1) and "x" (id 2). Updating brand 2 with `name: ""` leaves two brands named "". | Every supplied name that differs from the current one is checked for collisions. | not executed | Brands.EmptyRenameDuplicates | Brands.UpdateBrand |
| backend/app/api/endpoints/campaigns.py:143 | The refusal of a foreign brand filter reads `status.HTTP_404_NOT_FOUND`, but the handler's `status` query parameter (line 125) hides the imported `fastapi.status` module. The attribute lookup raises, and the client gets a 500 (the same at content.py:198, hidden by the parameter at content.py:180). | User 7 lists campaigns (or content) with `brand_id=3`, where brand 3 belongs to user 8. | A 404 "Brand not found". | not executed | Campaigns.ForeignBrandFilterFails | Campaigns.ListCampaigns |
| backend/app/api/endpoints/content.py:143-146 | `generated_text` and `metadata` are chosen by `content_data.get("parsed")`. A decoded reply has no such key, so it is treated as unparsed: `generated_text` becomes its missing `raw_content` (None) and its metadata is dropped. | A reply `{"main_text": "hi"}` is stored with neither text nor metadata, although its word count is 1. | A decoded reply is kept as metadata, and only the fallback record (`parsed: False`) keeps raw text. | not executed | Content.ParsedReplyLost | Content.DecodedReplyKept |
