/** The records of the relational schema (brands, campaigns, content pieces,
    reference materials), their enumerations and column defaults. Timestamps,
    colour and style analyses are not part of the model. */
module Models {
  import opened Wrappers
  import opened Json

  datatype ContentType =
    | SocialPost | BannerAd | VideoScript | EmailCampaign | BlogPost | ProductDescription
  {
    /** The enumeration's string value. */
    function Value(): string {
      match this
      case SocialPost => "social_post"
      case BannerAd => "banner_ad"
      case VideoScript => "video_script"
      case EmailCampaign => "email_campaign"
      case BlogPost => "blog_post"
      case ProductDescription => "product_description"
    }
  }

  datatype ContentStatus = Draft | Generated | Reviewed | Approved | Published {
    function Value(): string {
      match this
      case Draft => "draft"
      case Generated => "generated"
      case Reviewed => "reviewed"
      case Approved => "approved"
      case Published => "published"
    }
  }

  /** Distinct members have distinct string values, so a stored value names
      exactly one member. */
  lemma EnumValuesDistinct(a: ContentType, b: ContentType, s: ContentStatus, t: ContentStatus)
    ensures a.Value() == b.Value() ==> a == b
    ensures s.Value() == t.Value() ==> s == t
  {
  }

  /** A floating-point column (budget, progress): carried, never computed on. */
  datatype Float = Float(text: string)

  /** A date-time column: carried, never computed on. */
  datatype DateTime = DateTime(text: string)

  datatype Brand = Brand(
    name: string,
    description: Option<string>,
    ownerId: nat,
    brandVoice: Option<string>,
    colorPalette: JsonValue,
    typography: JsonValue,
    logoUrls: Option<seq<string>>,
    imageryStyle: Option<string>,
    messagingPillars: JsonValue,
    targetAudience: JsonValue,
    brandValues: JsonValue,
    competitors: JsonValue,
    contentGuidelines: JsonValue,
    approvedHashtags: Option<seq<string>>,
    bannedWords: Option<seq<string>>,
    styleGuideUrl: Option<string>,
    industry: Option<string>,
    websiteUrl: Option<string>,
    socialMediaHandles: JsonValue,
    isActive: bool)

  datatype Campaign = Campaign(
    name: string,
    description: Option<string>,
    brandId: nat,
    creatorId: nat,
    objective: Option<string>,
    targetAudience: JsonValue,
    budget: Option<Float>,
    startDate: Option<DateTime>,
    endDate: Option<DateTime>,
    platforms: Option<seq<string>>,
    contentTypes: Option<seq<string>>,
    contentCount: JsonValue,
    contentSpecs: JsonValue,
    status: string,
    progress: Float,
    isActive: bool)

  /** A content piece. The text-valued columns that are filled from the
      decoded model output hold whatever JSON value the output had there. */
  datatype ContentPiece = ContentPiece(
    title: string,
    contentType: ContentType,
    brandId: nat,
    campaignId: Option<int>,
    creatorId: nat,
    generatedText: JsonValue,
    imagePrompt: JsonValue,
    videoScript: JsonValue,
    metadata: JsonValue,
    aiModelUsed: Option<string>,
    generationPrompt: Option<string>,
    provider: Option<string>,
    tokensUsed: Option<int>,
    referenceMaterialsUsed: seq<nat>,
    platform: Option<string>,
    wordCount: Option<nat>,
    characterCount: Option<nat>,
    status: ContentStatus,
    approvalNotes: Option<string>,
    revisionCount: nat,
    isActive: bool)

  datatype ReferenceMaterial = ReferenceMaterial(
    brandId: nat,
    name: string,
    description: Option<string>,
    fileType: string,
    fileUrl: string,
    fileSize: nat,
    originalFilename: string,
    extractedText: Option<string>,
    contentTags: Option<seq<string>>,
    usageCount: nat,
    isActive: bool)

  // Column defaults.
  const DefaultIsActive := true
  const DefaultUsageCount: nat := 0
  const DefaultCampaignStatus := "planning"
  const DefaultProgress := Float("0.0")
  const DefaultContentStatus := Draft
  const DefaultRevisionCount: nat := 0

  /** Python's `x or default` on a nullable text column. */
  function OrElse(x: Option<string>, default: string): (r: string)
    ensures x.Some? && x.value != "" ==> r == x.value
    ensures x.None? || x.value == "" ==> r == default
  {
    if x.Some? && x.value != "" then x.value else default
  }

  /** Truthiness of a nullable list column. */
  predicate NonEmpty<T>(xs: Option<seq<T>>) {
    xs.Some? && xs.value != []
  }
}
