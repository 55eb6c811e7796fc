/** The generation prompt: a fixed skeleton with one optional block per
    brand guideline that is set, platform guidance looked up by name, and an
    output-format template per content type. Both generator services
    (backend/app/services/ai_service.py and claude_service.py) assemble the
    same prompt from the same constants. */
module Prompt {
  import opened Wrappers
  import opened Text
  import opened Json
  import opened Models

  /** The arguments of the prompt builder. `None` and an empty value are the
      same "not given" to the builder, which only tests their truthiness. */
  datatype PromptRequest = PromptRequest(
    brand: Brand,
    contentType: ContentType,
    brief: string,
    platform: Option<string>,
    targetAudience: Option<Fields>,
    references: seq<ReferenceMaterial>,
    additionalContext: Option<Fields>)

  // ---------------------------------------------------------------------
  // Formatting helpers

  /** The `- **Key:** value` line of one dict entry, key title-cased. */
  function EntryLine(entry: (string, JsonValue)): string {
    "- **" + Title(entry.0) + ":** " + Str(entry.1)
  }

  /** A dict rendered one entry per line (the audience, guideline and
      additional-context formatters). */
  function FormatFields(fields: Fields): string {
    Join(seq(|fields|, i requires 0 <= i < |fields| => EntryLine(fields[i])), "\n")
  }

  /** The audience and content-guideline formatters: a dict one entry per
      line, anything else as `str()`. */
  function FormatMapping(v: JsonValue): (r: string)
    ensures !v.JObject? ==> r == Str(v)
  {
    if v.JObject? then FormatFields(v.fields) else Str(v)
  }

  function BulletLine(item: JsonValue): string {
    "- " + Str(item)
  }

  /** A list rendered as one `- item` line per element, anything else as
      `str()`. */
  function FormatJsonList(v: JsonValue): (r: string)
    ensures !v.JArray? ==> r == Str(v)
  {
    if v.JArray? then Join(seq(|v.items|, i requires 0 <= i < |v.items| => BulletLine(v.items[i])), "\n")
    else Str(v)
  }

  /** A colour palette: a dict as `key: value` pairs separated by commas,
      anything else as `str()`. */
  function FormatColorPalette(v: JsonValue): (r: string)
    ensures !v.JObject? ==> r == Str(v)
  {
    if v.JObject? then
      Join(seq(|v.fields|, i requires 0 <= i < |v.fields| => v.fields[i].0 + ": " + Str(v.fields[i].1)), ", ")
    else Str(v)
  }

  /** Lines that hold no newline come back one by one when the joined text
      is split on newlines. */
  lemma LinesRoundTrip(lines: seq<string>)
    requires lines != []
    requires forall i :: 0 <= i < |lines| ==> '\n' !in lines[i]
    ensures Split(Join(lines, "\n"), '\n') == lines
  {
    assert "\n" == ['\n'];
    SplitJoin(lines, '\n');
  }

  /** A list of items without newlines renders as exactly one `- item` line
      per element, in order. */
  lemma FormatJsonListLines(items: seq<JsonValue>)
    requires items != []
    requires forall i :: 0 <= i < |items| ==> '\n' !in Str(items[i])
    ensures var lines := Split(FormatJsonList(JArray(items)), '\n');
      |lines| == |items| && forall i :: 0 <= i < |items| ==> lines[i] == "- " + Str(items[i])
  {
    var lines := seq(|items|, i requires 0 <= i < |items| => BulletLine(items[i]));
    forall i | 0 <= i < |lines| ensures '\n' !in lines[i] {
      assert lines[i] == "- " + Str(items[i]);
    }
    LinesRoundTrip(lines);
  }

  /** A dict whose keys and values hold no newlines renders as exactly one
      `- **Key:** value` line per entry, in order. */
  lemma FormatFieldsLines(fields: Fields)
    requires fields != []
    requires forall i :: 0 <= i < |fields| ==> '\n' !in fields[i].0 && '\n' !in Str(fields[i].1)
    ensures var lines := Split(FormatFields(fields), '\n');
      |lines| == |fields| &&
      forall i :: 0 <= i < |fields| ==> lines[i] == "- **" + Title(fields[i].0) + ":** " + Str(fields[i].1)
  {
    var lines := seq(|fields|, i requires 0 <= i < |fields| => EntryLine(fields[i]));
    forall i | 0 <= i < |lines| ensures '\n' !in lines[i] {
      TitleKeepsNonLetters(fields[i].0, false, '\n');
      assert lines[i] == "- **" + Title(fields[i].0) + ":** " + Str(fields[i].1);
    }
    LinesRoundTrip(lines);
  }

  // ---------------------------------------------------------------------
  // Reference materials

  /** The lines one reference material contributes: its name and
      description, then its text cut to 500 characters when it has text, then
      its tags when it has tags. */
  function MaterialLines(m: ReferenceMaterial): seq<string> {
    ["- **" + m.name + ":** " + OrElse(m.description, "No description")]
    + (if NonEmpty(m.extractedText) then ["  Content: " + Take(m.extractedText.value, 500) + "..."] else [])
    + (if NonEmpty(m.contentTags) then ["  Tags: " + Join(m.contentTags.value, ", ")] else [])
  }

  /** The lines of all materials, in the given order. */
  function ReferenceLines(materials: seq<ReferenceMaterial>): seq<string> {
    if materials == [] then []
    else ReferenceLines(materials[..|materials| - 1]) + MaterialLines(materials[|materials| - 1])
  }

  /** Renders the reference materials line by line. */
  method FormatReferenceMaterials(materials: seq<ReferenceMaterial>) returns (r: string)
    ensures r == Join(ReferenceLines(materials), "\n")
  {
    var formatted: seq<string> := [];
    for i := 0 to |materials|
      invariant formatted == ReferenceLines(materials[..i])
    {
      var m := materials[i];
      formatted := formatted + ["- **" + m.name + ":** " + OrElse(m.description, "No description")];
      if NonEmpty(m.extractedText) {
        formatted := formatted + ["  Content: " + Take(m.extractedText.value, 500) + "..."];
      }
      if NonEmpty(m.contentTags) {
        formatted := formatted + ["  Tags: " + Join(m.contentTags.value, ", ")];
      }
      assert materials[..i + 1][..i] == materials[..i];
    }
    assert materials[..|materials|] == materials;
    r := Join(formatted, "\n");
  }

  predicate HasLineStarting(lines: seq<string>, p: string) {
    exists i :: 0 <= i < |lines| && StartsWith(lines[i], p)
  }

  /** A material has a Content line exactly when it has extracted text, and
      that line carries the first `min(500, |text|)` characters of it and
      nothing more of it. */
  lemma MaterialContentLine(m: ReferenceMaterial)
    ensures HasLineStarting(MaterialLines(m), "  Content: ") <==> NonEmpty(m.extractedText)
    ensures NonEmpty(m.extractedText) ==>
      var text := m.extractedText.value;
      exists t :: MaterialLines(m)[1] == "  Content: " + t + "..." && t <= text
        && |t| == (if |text| < 500 then |text| else 500)
  {
    var lines := MaterialLines(m);
    var head := "- **" + m.name + ":** " + OrElse(m.description, "No description");
    assert lines[0] == head && head[0] == '-';
    if NonEmpty(m.extractedText) {
      var t := Take(m.extractedText.value, 500);
      assert StartsWith(lines[1], "  Content: ");
      assert lines[1] == "  Content: " + t + "...";
    } else {
      if NonEmpty(m.contentTags) {
        assert lines == [head, "  Tags: " + Join(m.contentTags.value, ", ")];
        assert lines[1][2] == 'T';
      }
      forall i | 0 <= i < |lines| ensures !StartsWith(lines[i], "  Content: ") {
        assert lines[i][0] == '-' || lines[i][2] == 'T';
      }
    }
  }

  /** A material has a Tags line exactly when it has tags. */
  lemma MaterialTagsLine(m: ReferenceMaterial)
    ensures HasLineStarting(MaterialLines(m), "  Tags: ") <==> NonEmpty(m.contentTags)
  {
    var lines := MaterialLines(m);
    var head := "- **" + m.name + ":** " + OrElse(m.description, "No description");
    assert lines[0] == head && head[0] == '-';
    if NonEmpty(m.contentTags) {
      assert StartsWith(lines[|lines| - 1], "  Tags: ");
    } else {
      if NonEmpty(m.extractedText) {
        assert lines == [head, "  Content: " + Take(m.extractedText.value, 500) + "..."];
        assert lines[1][2] == 'C';
      }
      forall i | 0 <= i < |lines| ensures !StartsWith(lines[i], "  Tags: ") {
        assert lines[i][0] == '-' || lines[i][2] == 'C';
      }
    }
  }

  // ---------------------------------------------------------------------
  // Platform guidance

  /** The platforms the guidance table knows, by their lower-case names. */
  datatype KnownPlatform = Instagram | Facebook | Twitter | Linkedin | Tiktok {
    function Name(): string {
      match this
      case Instagram => "instagram"
      case Facebook => "facebook"
      case Twitter => "twitter"
      case Linkedin => "linkedin"
      case Tiktok => "tiktok"
    }

    /** The content types the platform has guidance for, in the table's
        order. */
    function Keys(): (r: seq<ContentType>)
      ensures |r| == 2 && r[0] == SocialPost && r[0] != r[1]
    {
      if this == Tiktok then [SocialPost, VideoScript] else [SocialPost, BannerAd]
    }
  }

  /** The table entry for a lower-case platform name. */
  function PlatformNamed(name: string): (r: Option<KnownPlatform>)
    ensures r.Some? ==> r.value.Name() == name
    ensures r.None? ==> forall p: KnownPlatform :: p.Name() != name
  {
    if name == "instagram" then Some(Instagram)
    else if name == "facebook" then Some(Facebook)
    else if name == "twitter" then Some(Twitter)
    else if name == "linkedin" then Some(Linkedin)
    else if name == "tiktok" then Some(Tiktok)
    else None
  }

  /** The guidance text of a table entry (empty for a content type the
      platform has no entry for). */
  function GuidanceText(p: KnownPlatform, ct: ContentType): string {
    match (p, ct)
    case (Instagram, SocialPost) => "- Optimal length: 125-150 characters\n"
                                    + "- Use 3-5 relevant hashtags\n"
                                    + "- Include engaging visual description\n"
                                    + "- Encourage interaction"
    case (Instagram, BannerAd) => "- Square format (1080x1080) or story format (1080x1920)\n"
                                  + "- Clear, bold text\n"
                                  + "- Strong visual hierarchy\n"
                                  + "- Compelling CTA"
    case (Facebook, SocialPost) => "- Optimal length: 40-80 characters for engagement\n"
                                   + "- Use 1-2 hashtags maximum\n"
                                   + "- Include question or call-to-action\n"
                                   + "- Visual content performs better"
    case (Facebook, BannerAd) => "- Multiple format options\n"
                                 + "- Clear value proposition\n"
                                 + "- Minimal text on image\n"
                                 + "- Strong CTA button"
    case (Twitter, SocialPost) => "- Maximum 280 characters\n"
                                  + "- Use 1-2 hashtags\n"
                                  + "- Include mentions when relevant\n"
                                  + "- Encourage retweets and replies"
    case (Twitter, BannerAd) => "- Concise messaging\n"
                                + "- Clear CTA\n"
                                + "- Mobile-optimized\n"
                                + "- Video performs well"
    case (Linkedin, SocialPost) => "- Professional tone\n"
                                   + "- 150-300 characters for best engagement\n"
                                   + "- Industry-relevant hashtags\n"
                                   + "- Thought leadership angle"
    case (Linkedin, BannerAd) => "- Professional imagery\n"
                                 + "- B2B focused messaging\n"
                                 + "- Clear ROI or benefit\n"
                                 + "- Professional CTA"
    case (Tiktok, SocialPost) => "- Trending hashtags\n"
                                 + "- Short, punchy captions\n"
                                 + "- Encourage video creation\n"
                                 + "- Fun, authentic tone"
    case (Tiktok, VideoScript) => "- Hook in first 3 seconds\n"
                                  + "- 15-60 seconds optimal\n"
                                  + "- Vertical format\n"
                                  + "- Trending sounds/effects"
    case _ => ""
  }

  /** A platform's entries in table order, one per content type it lists. */
  function Entries(p: KnownPlatform): seq<string> {
    [GuidanceText(p, p.Keys()[0]), GuidanceText(p, p.Keys()[1])]
  }

  /** Guidance for a platform and content type: the exact entry when the
      lower-cased platform has one for the type, otherwise every entry of
      that platform one after another, otherwise a generic sentence that
      names the platform as given. The function carries no `ensures` of its
      own: its contract is the four lemmas below (`PlatformExactEntry`,
      `PlatformFallbackJoinsAll`, `PlatformUnknownKeepsName`,
      `PlatformCaseInsensitive`), each one case of the lookup. */
  function PlatformGuidelines(platform: string, ct: ContentType): (r: string)
  {
    match PlatformNamed(Lower(platform))
    case None => "Create content optimized for " + platform
    case Some(p) =>
      if ct in p.Keys() then GuidanceText(p, ct)
      else Join(Entries(p), "\n")
  }

  /** A known platform, in any ASCII casing, gets its own entry for a
      content type it lists. */
  lemma PlatformExactEntry(platform: string, p: KnownPlatform, ct: ContentType)
    requires Lower(platform) == p.Name() && ct in p.Keys()
    ensures PlatformGuidelines(platform, ct) == GuidanceText(p, ct)
  {
    NamesDistinct(p);
  }

  /** A known platform gets all of its entries, in table order and one per
      line, for a content type it does not list. */
  lemma PlatformFallbackJoinsAll(platform: string, p: KnownPlatform, ct: ContentType)
    requires Lower(platform) == p.Name() && ct !in p.Keys()
    ensures PlatformGuidelines(platform, ct)
      == GuidanceText(p, p.Keys()[0]) + "\n" + GuidanceText(p, p.Keys()[1])
  {
    NamesDistinct(p);
    JoinTwo(GuidanceText(p, p.Keys()[0]), GuidanceText(p, p.Keys()[1]), "\n");
  }


  /** An unknown platform is named back with its original casing. */
  lemma PlatformUnknownKeepsName(platform: string, ct: ContentType)
    requires forall p: KnownPlatform :: p.Name() != Lower(platform)
    ensures PlatformGuidelines(platform, ct) == "Create content optimized for " + platform
  {
  }

  /** Platform names that lower-case alike get the same guidance whenever
      the platform is known; an unknown name is echoed as given. */
  lemma PlatformCaseInsensitive(platform: string, other: string, ct: ContentType)
    requires Lower(platform) == Lower(other)
    ensures PlatformNamed(Lower(platform)).Some? ==>
      PlatformGuidelines(platform, ct) == PlatformGuidelines(other, ct)
  {
  }

  lemma NamesDistinct(p: KnownPlatform)
    ensures PlatformNamed(p.Name()) == Some(p)
  {
  }

  // ---------------------------------------------------------------------
  // Output-format templates

  const FormatPreamble := "\nProvide the output in JSON format:\n{"

  /** The JSON template the model is asked to fill in: a preamble, the
      fields of the content type, and the closing brace. Every content type
      has one, so the table's generic default is never used. */
  function OutputFormat(ct: ContentType): (r: string)
    ensures StartsWith(r, FormatPreamble) && EndsWith(r, "}\n")
    ensures r[0] == '\n'
  {
    var r := FormatPreamble + TemplateFields(ct) + "}\n";
    assert r[..|FormatPreamble|] == FormatPreamble;
    assert r[|r| - 2..] == "}\n";
    r
  }

  /** The fields each template asks for, with their descriptions. */
  function TemplateFields(ct: ContentType): string {
    match ct
    case SocialPost =>
      "\n    \"main_text\": \"Primary post content\",\n"
      + "    \"hashtags\": [\"#hashtag1\", \"#hashtag2\"],\n"
      + "    \"call_to_action\": \"Specific CTA\",\n"
      + "    \"image_description\": \"Description for visual content\",\n"
      + "    \"alternative_versions\": [\"Alternative text 1\", "
      + "\"Alternative text 2\"]\n"
    case BannerAd =>
      "\n    \"headline\": \"Main headline\",\n"
      + "    \"subheading\": \"Supporting text\",\n"
      + "    \"body_text\": \"Main ad copy\",\n"
      + "    \"call_to_action\": \"CTA button text\",\n"
      + "    \"image_prompt\": \"Detailed description for image generation\",\n"
      + "    \"design_notes\": \"Visual design guidance\"\n"
    case VideoScript =>
      "\n    \"title\": \"Video title\",\n"
      + "    \"hook\": \"Opening hook (first 3-5 seconds)\",\n"
      + "    \"script\": \"Full video script with timestamps\",\n"
      + "    \"key_messages\": [\"Message 1\", \"Message 2\"],\n"
      + "    \"call_to_action\": \"End CTA\",\n"
      + "    \"visual_notes\": \"Visual direction and style notes\",\n"
      + "    \"duration_estimate\": \"Estimated duration in seconds\"\n"
    case EmailCampaign =>
      "\n    \"subject_line\": \"Email subject\",\n"
      + "    \"preview_text\": \"Preview/preheader text\",\n"
      + "    \"headline\": \"Main email headline\",\n"
      + "    \"body_text\": \"Full email content\",\n"
      + "    \"call_to_action\": \"Primary CTA\",\n"
      + "    \"alternative_subject_lines\": [\"Alt subject 1\", "
      + "\"Alt subject 2\"]\n"
    case BlogPost =>
      "\n    \"title\": \"Blog post title\",\n"
      + "    \"meta_description\": \"SEO meta description\",\n"
      + "    \"introduction\": \"Opening paragraph\",\n"
      + "    \"main_content\": \"Full blog post content\",\n"
      + "    \"conclusion\": \"Closing paragraph\",\n"
      + "    \"call_to_action\": \"End CTA\",\n"
      + "    \"suggested_images\": [\"Image 1 description\", \"Image 2 description\"],\n"
      + "    \"seo_keywords\": [\"keyword1\", \"keyword2\"]\n"
    case ProductDescription =>
      "\n    \"title\": \"Product title\",\n"
      + "    \"short_description\": \"Brief product summary\",\n"
      + "    \"detailed_description\": \"Full product description\",\n"
      + "    \"key_features\": [\"Feature 1\", \"Feature 2\"],\n"
      + "    \"benefits\": [\"Benefit 1\", \"Benefit 2\"],\n"
      + "    \"call_to_action\": \"Purchase CTA\",\n"
      + "    \"seo_keywords\": [\"keyword1\", \"keyword2\"]\n"
  }

  // ---------------------------------------------------------------------
  // The prompt

  /** The optional blocks of the prompt, in the order they appear. */
  datatype Section =
    | Voice | Audience | Values | Pillars | Guidelines | Hashtags | Banned | References | Platform
    | Additional
  {
    function Header(): string {
      match this
      case Voice => "## BRAND VOICE & PERSONALITY"
      case Audience => "## TARGET AUDIENCE"
      case Values => "## BRAND VALUES"
      case Pillars => "## KEY MESSAGING PILLARS"
      case Guidelines => "## CONTENT GUIDELINES"
      case Hashtags => "## APPROVED HASHTAGS"
      case Banned => "## WORDS TO AVOID"
      case References => "## REFERENCE MATERIALS"
      case Platform => "## PLATFORM SPECIFICATIONS"
      case Additional => "## ADDITIONAL CONTEXT"
    }
  }

  /** A section's lines: its header, its body and a blank line when the
      section is enabled, nothing otherwise. */
  function Block(k: Section, enabled: bool, body: string): seq<string> {
    if enabled then [k.Header(), body, ""] else []
  }
  /** The section a header line names, if any. */
  function SectionNamed(line: string): Option<Section> {
    if line == Voice.Header() then Some(Voice)
    else if line == Audience.Header() then Some(Audience)
    else if line == Values.Header() then Some(Values)
    else if line == Pillars.Header() then Some(Pillars)
    else if line == Guidelines.Header() then Some(Guidelines)
    else if line == Hashtags.Header() then Some(Hashtags)
    else if line == Banned.Header() then Some(Banned)
    else if line == References.Header() then Some(References)
    else if line == Platform.Header() then Some(Platform)
    else if line == Additional.Header() then Some(Additional)
    else None
  }

  /** Every header is a non-empty line. */
  lemma HeaderNonEmpty(k: Section)
    ensures k.Header() != ""
  {
  }

  /** A header names its own section, so no two sections share one. */
  lemma HeaderIdentifies(k: Section)
    ensures SectionNamed(k.Header()) == Some(k)
  {
  }


  /** The audience text: the request's audience wins over the brand's. */
  function AudienceBody(req: PromptRequest): string {
    if NonEmpty(req.targetAudience) then FormatFields(req.targetAudience.value)
    else FormatMapping(req.brand.targetAudience)
  }

  /** The blocks taken from the brand's guidelines: voice, audience, values,
      messaging pillars and content guidelines. Each appears when its input
      is truthy; the audience also when only the request names one. */
  function BrandGuidance(req: PromptRequest): seq<string> {
    Block(Voice, NonEmpty(req.brand.brandVoice), req.brand.brandVoice.GetOr(""))
    + Block(Audience, NonEmpty(req.targetAudience) || Truthy(req.brand.targetAudience), AudienceBody(req))
    + Block(Values, Truthy(req.brand.brandValues), FormatJsonList(req.brand.brandValues))
    + Block(Pillars, Truthy(req.brand.messagingPillars), FormatJsonList(req.brand.messagingPillars))
    + Block(Guidelines, Truthy(req.brand.contentGuidelines), FormatMapping(req.brand.contentGuidelines))
  }

  /** The blocks of the generation context: approved hashtags, banned words,
      reference materials and platform guidance. */
  function ContextBlocks(req: PromptRequest): seq<string> {
    Block(Hashtags, NonEmpty(req.brand.approvedHashtags), Join(req.brand.approvedHashtags.GetOr([]), ", "))
    + Block(Banned, NonEmpty(req.brand.bannedWords), Join(req.brand.bannedWords.GetOr([]), ", "))
    + Block(References, req.references != [], Join(ReferenceLines(req.references), "\n"))
    + Block(Platform, NonEmpty(req.platform), PlatformGuidelines(req.platform.GetOr(""), req.contentType))
  }

  /** The additional-context block. */
  function AdditionalBlock(req: PromptRequest): seq<string> {
    Block(Additional, NonEmpty(req.additionalContext), FormatFields(req.additionalContext.GetOr([])))
  }

  const BrandHeading := "## BRAND INFORMATION"
  const RequirementsHeading := "## CONTENT REQUIREMENTS"
  const OutputHeading := "## OUTPUT FORMAT"
  const ChecklistHeading := "## REQUIREMENTS"

  const Intro: seq<string> :=
    [ "You are an expert brand content creator and copywriter. "
      + "Your task is to generate high-quality, brand-consistent content that perfectly aligns with the provided brand guidelines.",
      "",
      BrandHeading ]

  function BrandInfo(brand: Brand): seq<string> {
    [ "**Brand Name:** " + brand.name,
      "**Industry:** " + OrElse(brand.industry, "Not specified"),
      "**Description:** " + OrElse(brand.description, "Not provided"),
      "" ]
  }

  /** The content type as shown to the model: its value with underscores
      turned into spaces, title-cased. */
  function DisplayName(ct: ContentType): string {
    Title(ReplaceChar(ct.Value(), '_', ' '))
  }

  function BriefLine(brief: string): string {
    "**Brief:** " + brief
  }

  function Requirements(req: PromptRequest): seq<string> {
    [ RequirementsHeading,
      "**Content Type:** " + DisplayName(req.contentType),
      BriefLine(req.brief),
      "" ]
  }

  const FinalLine := "Generate the content now:"

  const RequirementBullets: seq<string> :=
    [ "- Ensure ALL content aligns perfectly with the brand voice and guidelines",
      "- Incorporate relevant brand values and messaging pillars naturally",
      "- Avoid any banned words or phrases",
      "- Use approved hashtags where appropriate",
      "- Consider the target audience in tone and messaging",
      "- Follow platform-specific best practices",
      "- Be creative while staying brand-consistent",
      "- Include specific calls-to-action when appropriate" ]

  function Trailer(ct: ContentType): seq<string> {
    [OutputHeading, OutputFormat(ct), "", ChecklistHeading] + RequirementBullets + ["", FinalLine]
  }

  /** The lines of the prompt, which the builder joins with newlines. */
  function PromptParts(req: PromptRequest): seq<string> {
    Intro + BrandInfo(req.brand) + BrandGuidance(req) + ContextBlocks(req)
    + Requirements(req) + AdditionalBlock(req) + Trailer(req.contentType)
  }

  /** The prompt text the builder returns. */
  function PromptText(req: PromptRequest): string {
    Join(PromptParts(req), "\n")
  }

  /** Appends a section's header, body and blank line when its input is
      given, as each optional block of the builder does. */
  method AddBlock(parts: seq<string>, k: Section, enabled: bool, body: string) returns (r: seq<string>)
    ensures r == parts + Block(k, enabled, body)
  {
    r := parts;
    if enabled {
      r := r + [k.Header(), body, ""];
    }
  }

  /** Appending five pieces one after another appends their concatenation. */
  lemma Regroup<T>(p: seq<T>, a: seq<T>, b: seq<T>, c: seq<T>, d: seq<T>, e: seq<T>)
    ensures p + a + b + c + d + e == p + (a + b + c + d + e)
    ensures p + a + b + c + d == p + (a + b + c + d)
  {
  }

  /** Appends the blocks drawn from the brand's guidelines. */
  method AddBrandGuidance(parts: seq<string>, req: PromptRequest) returns (r: seq<string>)
    ensures r == parts + BrandGuidance(req)
  {
    r := AddBlock(parts, Voice, NonEmpty(req.brand.brandVoice), req.brand.brandVoice.GetOr(""));
    r := AddBlock(r, Audience, NonEmpty(req.targetAudience) || Truthy(req.brand.targetAudience), AudienceBody(req));
    r := AddBlock(r, Values, Truthy(req.brand.brandValues), FormatJsonList(req.brand.brandValues));
    r := AddBlock(r, Pillars, Truthy(req.brand.messagingPillars), FormatJsonList(req.brand.messagingPillars));
    r := AddBlock(r, Guidelines, Truthy(req.brand.contentGuidelines), FormatMapping(req.brand.contentGuidelines));
    Regroup(parts, Block(Voice, NonEmpty(req.brand.brandVoice), req.brand.brandVoice.GetOr("")),
      Block(Audience, NonEmpty(req.targetAudience) || Truthy(req.brand.targetAudience), AudienceBody(req)),
      Block(Values, Truthy(req.brand.brandValues), FormatJsonList(req.brand.brandValues)),
      Block(Pillars, Truthy(req.brand.messagingPillars), FormatJsonList(req.brand.messagingPillars)),
      Block(Guidelines, Truthy(req.brand.contentGuidelines), FormatMapping(req.brand.contentGuidelines)));
  }

  /** Appends the hashtag, banned-word, reference and platform blocks. The
      reference materials are formatted only when there are some. */
  method AddContextBlocks(parts: seq<string>, req: PromptRequest) returns (r: seq<string>)
    ensures r == parts + ContextBlocks(req)
  {
    r := AddBlock(parts, Hashtags, NonEmpty(req.brand.approvedHashtags), Join(req.brand.approvedHashtags.GetOr([]), ", "));
    r := AddBlock(r, Banned, NonEmpty(req.brand.bannedWords), Join(req.brand.bannedWords.GetOr([]), ", "));
    var formatted := "";
    if req.references != [] {
      formatted := FormatReferenceMaterials(req.references);
    }
    r := AddBlock(r, References, req.references != [], formatted);
    r := AddBlock(r, Platform, NonEmpty(req.platform), PlatformGuidelines(req.platform.GetOr(""), req.contentType));
    Regroup(parts, Block(Hashtags, NonEmpty(req.brand.approvedHashtags), Join(req.brand.approvedHashtags.GetOr([]), ", ")),
      Block(Banned, NonEmpty(req.brand.bannedWords), Join(req.brand.bannedWords.GetOr([]), ", ")),
      Block(References, req.references != [], Join(ReferenceLines(req.references), "\n")),
      Block(Platform, NonEmpty(req.platform), PlatformGuidelines(req.platform.GetOr(""), req.contentType)), []);
  }

  /** Appends the additional-context block. */
  method AddAdditionalContext(parts: seq<string>, req: PromptRequest) returns (r: seq<string>)
    ensures r == parts + AdditionalBlock(req)
  {
    r := AddBlock(parts, Additional, NonEmpty(req.additionalContext), FormatFields(req.additionalContext.GetOr([])));
  }

  /** Assembles the prompt line by line: the fixed opening and brand
      details, each optional block whose input is given, the content
      requirements, the additional context, and the fixed closing. */
  method BuildPrompt(req: PromptRequest) returns (prompt: string)
    ensures prompt == Join(PromptParts(req), "\n")
    ensures EndsWith(prompt, FinalLine)
  {
    var parts := Intro + BrandInfo(req.brand);
    parts := AddBrandGuidance(parts, req);
    parts := AddContextBlocks(parts, req);
    parts := parts + Requirements(req);
    parts := AddAdditionalContext(parts, req);
    parts := parts + Trailer(req.contentType);
    prompt := Join(parts, "\n");
    JoinEndsWithLast(parts, "\n");
  }

  /** Whether the builder receives a truthy input for a section. */
  predicate Enabled(req: PromptRequest, k: Section) {
    match k
    case Voice => NonEmpty(req.brand.brandVoice)
    case Audience => NonEmpty(req.targetAudience) || Truthy(req.brand.targetAudience)
    case Values => Truthy(req.brand.brandValues)
    case Pillars => Truthy(req.brand.messagingPillars)
    case Guidelines => Truthy(req.brand.contentGuidelines)
    case Hashtags => NonEmpty(req.brand.approvedHashtags)
    case Banned => NonEmpty(req.brand.bannedWords)
    case References => req.references != []
    case Platform => NonEmpty(req.platform)
    case Additional => NonEmpty(req.additionalContext)
  }

  /** The brief is always part of the prompt. */
  lemma BriefIncluded(req: PromptRequest)
    ensures BriefLine(req.brief) in PromptParts(req)
  {
    assert BriefLine(req.brief) in Requirements(req);
  }

  /** Every section whose input is truthy has its header in the prompt. */
  lemma SectionShown(req: PromptRequest, k: Section)
    requires Enabled(req, k)
    ensures k.Header() in PromptParts(req)
  {
    assert k.Header() in BrandGuidance(req) + ContextBlocks(req) + AdditionalBlock(req);
  }

  /** No body the prompt shows is exactly the line `h`. Bodies are the
      caller's text (a brand voice, a hashtag list, a JSON string value), so
      nothing else rules this out. */
  predicate NoBodyIs(req: PromptRequest, h: string) {
    NoGuidanceBodyIs(req, h) && NoContextBodyIs(req, h)
    && (NonEmpty(req.additionalContext) ==> FormatFields(req.additionalContext.GetOr([])) != h)
  }

  predicate NoGuidanceBodyIs(req: PromptRequest, h: string) {
    && (NonEmpty(req.brand.brandVoice) ==> req.brand.brandVoice.GetOr("") != h)
    && (NonEmpty(req.targetAudience) || Truthy(req.brand.targetAudience) ==> AudienceBody(req) != h)
    && (Truthy(req.brand.brandValues) ==> FormatJsonList(req.brand.brandValues) != h)
    && (Truthy(req.brand.messagingPillars) ==> FormatJsonList(req.brand.messagingPillars) != h)
    && (Truthy(req.brand.contentGuidelines) ==> FormatMapping(req.brand.contentGuidelines) != h)
  }

  predicate NoContextBodyIs(req: PromptRequest, h: string) {
    && (NonEmpty(req.brand.approvedHashtags) ==> Join(req.brand.approvedHashtags.GetOr([]), ", ") != h)
    && (NonEmpty(req.brand.bannedWords) ==> Join(req.brand.bannedWords.GetOr([]), ", ") != h)
    && (req.references != [] ==> Join(ReferenceLines(req.references), "\n") != h)
    && (NonEmpty(req.platform) ==> PlatformGuidelines(req.platform.GetOr(""), req.contentType) != h)
  }


  /** A section's header is absent from another section's block, and from
      a hidden block, unless it is the block's body. */
  lemma NotInBlock(j: Section, enabled: bool, body: string, k: Section)
    requires enabled ==> j != k && k.Header() != body
    ensures k.Header() !in Block(j, enabled, body)
  {
    HeaderNonEmpty(k);
    HeadersDistinct(j, k);
  }

  /** A section's header is absent from five blocks that are hidden or
      belong to other sections, none of whose bodies is that header. */
  lemma NotInBlocks(k: Section, j1: Section, e1: bool, b1: string, j2: Section, e2: bool, b2: string,
                    j3: Section, e3: bool, b3: string, j4: Section, e4: bool, b4: string,
                    j5: Section, e5: bool, b5: string)
    requires e1 ==> j1 != k && k.Header() != b1
    requires e2 ==> j2 != k && k.Header() != b2
    requires e3 ==> j3 != k && k.Header() != b3
    requires e4 ==> j4 != k && k.Header() != b4
    requires e5 ==> j5 != k && k.Header() != b5
    ensures k.Header() !in Block(j1, e1, b1) + Block(j2, e2, b2) + Block(j3, e3, b3) + Block(j4, e4, b4) + Block(j5, e5, b5)
  {
    NotInBlock(j1, e1, b1, k);
    NotInBlock(j2, e2, b2, k);
    NotInBlock(j3, e3, b3, k);
    NotInBlock(j4, e4, b4, k);
    NotInBlock(j5, e5, b5, k);
  }

  /** A section's header is absent from the brand-guidance blocks when its
      input is not truthy and no shown body is exactly that header. */
  lemma HiddenFromGuidance(req: PromptRequest, k: Section)
    requires !Enabled(req, k) && NoGuidanceBodyIs(req, k.Header())
    ensures k.Header() !in BrandGuidance(req)
  {
    NotInBlocks(k, Voice, NonEmpty(req.brand.brandVoice), req.brand.brandVoice.GetOr(""),
      Audience, NonEmpty(req.targetAudience) || Truthy(req.brand.targetAudience), AudienceBody(req),
      Values, Truthy(req.brand.brandValues), FormatJsonList(req.brand.brandValues),
      Pillars, Truthy(req.brand.messagingPillars), FormatJsonList(req.brand.messagingPillars),
      Guidelines, Truthy(req.brand.contentGuidelines), FormatMapping(req.brand.contentGuidelines));
  }

  /** The same for the context blocks and the additional-context block. */
  lemma HiddenFromRest(req: PromptRequest, k: Section)
    requires !Enabled(req, k) && NoContextBodyIs(req, k.Header())
    requires NonEmpty(req.additionalContext) ==> FormatFields(req.additionalContext.GetOr([])) != k.Header()
    ensures k.Header() !in ContextBlocks(req) + AdditionalBlock(req)
  {
    NotInBlocks(k, Hashtags, NonEmpty(req.brand.approvedHashtags), Join(req.brand.approvedHashtags.GetOr([]), ", "),
      Banned, NonEmpty(req.brand.bannedWords), Join(req.brand.bannedWords.GetOr([]), ", "),
      References, req.references != [], Join(ReferenceLines(req.references), "\n"),
      Platform, NonEmpty(req.platform), PlatformGuidelines(req.platform.GetOr(""), req.contentType),
      Additional, NonEmpty(req.additionalContext), FormatFields(req.additionalContext.GetOr([])));
  }

  /** A header opens with '#' and is none of the builder's fixed
      headings. */
  lemma HeaderShape(k: Section)
    ensures |k.Header()| > 0 && k.Header()[0] == '#'
    ensures k.Header() != BrandHeading && k.Header() != RequirementsHeading
    ensures k.Header() != OutputHeading && k.Header() != ChecklistHeading
  {
    assert |BrandHeading| == 20 && BrandHeading[3] == 'B';
    assert |RequirementsHeading| == 23;
    assert |OutputHeading| == 16;
    assert |ChecklistHeading| == 15 && ChecklistHeading[3] == 'R';
  }

  /** No line the builder always writes is a section header. */
  lemma HeaderNotFixed(req: PromptRequest, k: Section)
    ensures k.Header() !in Intro + BrandInfo(req.brand)
    ensures k.Header() !in Requirements(req)
  {
    HeaderShape(k);
  }

  /** The same for the closing lines. */
  lemma HeaderNotInTrailer(ct: ContentType, k: Section)
    ensures k.Header() !in Trailer(ct)
  {
    HeaderNotClosing(OutputFormat(ct), k);
  }

  /** No header is among the closing lines around a template that opens
      with a newline. */
  lemma HeaderNotClosing(format: string, k: Section)
    requires |format| > 0 && format[0] == '\n'
    ensures k.Header() !in [OutputHeading, format, "", ChecklistHeading] + RequirementBullets + ["", FinalLine]
  {
    HeaderShape(k);
    assert k.Header() !in [OutputHeading, format, "", ChecklistHeading];
    assert k.Header() !in RequirementBullets;
    assert k.Header() !in ["", FinalLine];
    NotInThree(k.Header(), [OutputHeading, format, "", ChecklistHeading], RequirementBullets, ["", FinalLine]);
  }

  /** A value absent from three sequences is absent from their concatenation. */
  lemma NotInThree<T>(x: T, a: seq<T>, b: seq<T>, c: seq<T>)
    requires x !in a && x !in b && x !in c
    ensures x !in a + b + c
  {
  }

  /** A section's header is in the prompt exactly when the builder received
      a truthy input for it, provided no caller-supplied body is itself that
      header line. */
  lemma HeaderShownIff(req: PromptRequest, k: Section)
    requires NoBodyIs(req, k.Header())
    ensures k.Header() in PromptParts(req) <==> Enabled(req, k)
  {
    if Enabled(req, k) {
      SectionShown(req, k);
    } else {
      HeaderNotFixed(req, k);
      HeaderNotInTrailer(req.contentType, k);
      HiddenFromGuidance(req, k);
      HiddenFromRest(req, k);
      NotInParts(k.Header(), Intro + BrandInfo(req.brand), BrandGuidance(req), ContextBlocks(req),
        Requirements(req), AdditionalBlock(req), Trailer(req.contentType));
    }
  }

  /** A value absent from the seven pieces of the prompt, the context and
      additional blocks taken together, is absent from the whole. */
  lemma NotInParts<T>(x: T, head: seq<T>, guidance: seq<T>, context: seq<T>, req: seq<T>, extra: seq<T>, tail: seq<T>)
    requires x !in head && x !in guidance && x !in context + extra && x !in req && x !in tail
    ensures x !in head + guidance + context + req + extra + tail
  {
    assert forall y :: y in context + extra <==> y in context || y in extra;
  }

  /** No two sections share a header. */
  lemma HeadersDistinct(j: Section, k: Section)
    ensures j.Header() == k.Header() <==> j == k
  {
    HeaderIdentifies(j);
    HeaderIdentifies(k);
  }

}
