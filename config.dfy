/** Application settings: the CORS origin list and the upload limits. */
module Config {
  import opened Text

  /** `allowed_origins` is declared as a list, but an environment override
      may leave it as one comma-separated string. */
  datatype OriginsSetting = OriginsText(text: string) | OriginsList(origins: seq<string>)

  const DefaultAllowedOrigins := OriginsList(["http://localhost:3000", "http://localhost:5173"])

  /** The `ALLOWED_ORIGINS` property. */
  function AllowedOrigins(setting: OriginsSetting): (r: seq<string>)
    ensures setting.OriginsList? ==> r == setting.origins
    ensures setting.OriginsText? ==>
      |r| == |Split(setting.text, ',')|
      && forall i :: 0 <= i < |r| ==> r[i] == Strip(Split(setting.text, ',')[i])
  {
    match setting
    case OriginsList(origins) => origins
    case OriginsText(text) => StripAll(Split(text, ','))
  }

  function StripAll(pieces: seq<string>): (r: seq<string>)
    ensures |r| == |pieces| && forall i :: 0 <= i < |r| ==> r[i] == Strip(pieces[i])
  {
    if pieces == [] then [] else [Strip(pieces[0])] + StripAll(pieces[1..])
  }

  /** A comma-separated setting yields one origin more than it has commas,
      each without surrounding whitespace and without a comma. */
  lemma OriginsFromText(text: string)
    ensures |AllowedOrigins(OriginsText(text))| == Count(text, ',') + 1
    ensures forall i :: 0 <= i < |AllowedOrigins(OriginsText(text))| ==>
      var o := AllowedOrigins(OriginsText(text))[i];
      ',' !in o && (o == [] || (!IsSpace(o[0]) && !IsSpace(o[|o| - 1])))
  {
    var pieces := Split(text, ',');
    SplitLength(text, ',');
    SplitPiecesFree(text, ',');
    var r := StripAll(pieces);
    forall i | 0 <= i < |r| ensures ',' !in r[i] {
      assert pieces[i] in pieces;
      StripKeepsAbsent(pieces[i], ',');
    }
  }

  /** Origins written without padding are read back in order and unchanged:
      `",".join(o)` is recovered from its text. */
  lemma OriginsRoundTrip(origins: seq<string>)
    requires origins != []
    requires forall i :: 0 <= i < |origins| ==> ',' !in origins[i] && Strip(origins[i]) == origins[i]
    ensures AllowedOrigins(OriginsText(Join(origins, ","))) == origins
  {
    var pieces := Split(Join(origins, ","), ',');
    SplitJoin(origins, ',');
    assert pieces == origins;
    var r := StripAll(pieces);
    forall i | 0 <= i < |r| ensures r[i] == origins[i] {
      assert pieces[i] == origins[i];
    }
    SameElements(r, origins);
  }

  /** The upload settings. */
  datatype UploadSettings = UploadSettings(
    maxFileSizeMb: nat,
    allowedImageTypes: seq<string>,
    allowedDocumentTypes: seq<string>)

  const DefaultUploadSettings := UploadSettings(
    50, ["jpg", "jpeg", "png", "gif", "webp"], ["pdf", "docx", "txt"])

  /** The default limit is 50 MB and no default extension is both an image
      and a document type. */
  lemma DefaultUploadSettingsShape()
    ensures DefaultUploadSettings.maxFileSizeMb == 50
    ensures forall e :: e in DefaultUploadSettings.allowedImageTypes ==>
      e !in DefaultUploadSettings.allowedDocumentTypes
  {
  }
}
