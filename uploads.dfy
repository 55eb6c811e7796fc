/** The upload endpoints: reference materials and brand logos. File bytes,
    the file system, UUIDs and the image library are outside the model: an
    upload is its file name and its size, the UUID is a parameter, and an
    image's dimensions are given when the image library can open it. */
module Uploads {
  import opened Wrappers
  import opened Text
  import opened Models
  import opened Config
  import opened Tables
  import opened Brands

  /** An uploaded file: the client's file name and the length in bytes of
      what was read. */
  datatype Upload = Upload(filename: string, size: nat)

  // ---------------------------------------------------------------------
  // File names

  /** `filename.rsplit('.', 1)[1].lower()`: the text after the last `.`,
      lowercased, or nothing when the name has no `.`. */
  function Extension(filename: string): (r: Option<string>)
    ensures r.None? <==> '.' !in filename
    ensures r.Some? ==> '.' !in r.value
  {
    match LastIndexOf(filename, '.')
    case None => None
    case Some(k) =>
      LowerKeepsNonLetters(filename[k + 1..], '.');
      Some(Lower(filename[k + 1..]))
  }

  /** A name made of a stem, a `.` and an extension without a `.` has that
      extension, lowercased, whatever the stem holds. */
  lemma ExtensionOf(stem: string, ext: string)
    requires '.' !in ext
    ensures Extension(stem + "." + ext) == Some(Lower(ext))
  {
    var f := stem + "." + ext;
    assert f[|stem|] == '.';
    assert f[|stem| + 1..] == ext;
    LastIndexOfIs(f, '.', |stem|);
  }

  /** `allowed_file`: the name has a `.` and its lowercased extension is
      one of the allowed types. */
  function AllowedFile(filename: string, allowed: seq<string>): (r: bool)
    ensures r ==> '.' in filename
  {
    match Extension(filename)
    case None => false
    case Some(e) => e in allowed
  }

  /** The check ignores the case of the extension. */
  lemma AllowedIgnoresCase(stem: string, ext: string, allowed: seq<string>)
    requires '.' !in ext
    ensures AllowedFile(stem + "." + ext, allowed) == AllowedFile(stem + "." + Lower(ext), allowed)
    ensures AllowedFile(stem + "." + ext, allowed) <==> Lower(ext) in allowed
  {
    ExtensionOf(stem, ext);
    LowerKeepsNonLetters(ext, '.');
    ExtensionOf(stem, Lower(ext));
    LowerIdempotent(ext);
  }

  /** `get_file_type`: "unknown" without a `.`, otherwise "image",
      "document" or "other" by the lowercased extension, image types
      first. */
  function FileType(settings: UploadSettings, filename: string): (r: string)
    ensures r == "unknown" <==> '.' !in filename
  {
    match Extension(filename)
    case None => "unknown"
    case Some(e) =>
      if e in settings.allowedImageTypes then "image"
      else if e in settings.allowedDocumentTypes then "document"
      else "other"
  }

  /** A file passes the combined check of the reference upload exactly when
      it is classified as an image or a document. */
  lemma AllowedIsClassified(settings: UploadSettings, filename: string)
    ensures AllowedFile(filename, settings.allowedImageTypes + settings.allowedDocumentTypes)
            <==> FileType(settings, filename) == "image" || FileType(settings, filename) == "document"
  {
  }

  /** The extension the stored name keeps: the lowercased extension, or
      the empty text when the name has no `.`. */
  function ExtensionText(filename: string): (r: string)
    ensures '.' !in r
  {
    match Extension(filename)
    case None => ""
    case Some(e) => e
  }

  /** A stored file name: a unique stem, a `.` and the upload's extension. */
  function StoredName(stem: string, filename: string): string {
    stem + "." + ExtensionText(filename)
  }

  /** A stored name under any directory still has the upload's extension. */
  lemma StoredNameKeepsExtension(dir: string, stem: string, filename: string)
    requires '.' in filename
    ensures Extension(dir + StoredName(stem, filename)) == Extension(filename)
  {
    var k := LastIndexOf(filename, '.').value;
    var e := Lower(filename[k + 1..]);
    assert ExtensionText(filename) == e;
    assert dir + StoredName(stem, filename) == (dir + stem) + "." + e;
    ExtensionOf(dir + stem, e);
    LowerIdempotent(filename[k + 1..]);
  }

  /** The URL of a reference material stored under the name `token.ext`. */
  function ReferenceUrl(token: string, filename: string): string {
    "/uploads/" + ("reference/" + StoredName(token, filename))
  }

  /** The URL of a logo stored under the name `logo_{brand}_{token}.ext`. */
  function LogoUrl(brandId: int, token: string, filename: string): string {
    "/uploads/brands/" + StoredName("logo_" + IntToString(brandId) + "_" + token, filename)
  }

  /** The file a stored URL names: the URL without its leading `/` when it
      lies under `/uploads/`, and none otherwise. */
  function FilePath(url: string): (r: Option<string>)
    ensures r.Some? <==> StartsWith(url, "/uploads/")
    ensures r.Some? ==> "/" + r.value == url && StartsWith(r.value, "uploads/")
  {
    if StartsWith(url, "/uploads/") then Some(url[1..]) else None
  }

  /** A URL under `/uploads/` names the file at the same place without
      the leading `/`. */
  lemma UnderUploads(rest: string)
    ensures FilePath("/uploads/" + rest) == Some("uploads/" + rest)
  {
    var url := "/uploads/" + rest;
    assert url[..9] == "/uploads/";
    assert url[1..] == "uploads/" + rest;
  }

  /** Deleting a reference material finds the file it was saved to. */
  lemma ReferencePathRoundTrip(token: string, filename: string)
    ensures FilePath(ReferenceUrl(token, filename)) == Some("uploads/" + ("reference/" + StoredName(token, filename)))
  {
    UnderUploads("reference/" + StoredName(token, filename));
  }

  // ---------------------------------------------------------------------
  // Sizes

  /** `max_file_size_mb * 1024 * 1024`. */
  function SizeLimit(settings: UploadSettings): nat {
    settings.maxFileSizeMb * 1024 * 1024
  }

  /** An upload is rejected when it is larger than the limit. */
  predicate SizeAccepted(settings: UploadSettings, size: nat) {
    !(size > SizeLimit(settings))
  }

  /** A file of exactly the limit is accepted and one byte more is not; the
      default limit is 50 MiB. */
  lemma SizeBoundary(settings: UploadSettings)
    ensures SizeAccepted(settings, SizeLimit(settings))
    ensures !SizeAccepted(settings, SizeLimit(settings) + 1)
    ensures forall size: nat :: SizeAccepted(settings, size) <==> size <= SizeLimit(settings)
    ensures SizeLimit(DefaultUploadSettings) == 52428800
  {
  }

  // ---------------------------------------------------------------------
  // Image tags

  /** The side both dimensions are compared with for "high-resolution". */
  const HighResolution: nat := 1920

  /** The tags of an image of the given size: its orientation, then
      "high-resolution" when either side reaches 1920 pixels. */
  function DimensionTags(width: nat, height: nat): (r: seq<string>)
    ensures 1 <= |r| <= 2
    ensures r[0] == "landscape" <==> width > height
    ensures r[0] == "portrait" <==> height > width
    ensures r[0] == "square" <==> width == height
    ensures "high-resolution" in r <==> width >= HighResolution || height >= HighResolution
    ensures |r| == 2 <==> "high-resolution" in r
  {
    var orientation := if width > height then "landscape" else if height > width then "portrait" else "square";
    assert orientation != "high-resolution";
    [orientation] + if width >= HighResolution || height >= HighResolution then ["high-resolution"] else []
  }

  /** The tags of an upload: the dimension tags of an image the library
      could open, none for anything else. */
  function MaterialTags(fileType: string, image: Option<(nat, nat)>): seq<string> {
    if fileType == "image" && image.Some? then DimensionTags(image.value.0, image.value.1) else []
  }

  // ---------------------------------------------------------------------
  // Reference materials

  /** The record `upload_reference_material` inserts. An empty description
      is stored as `None`, and so is an empty tag list. */
  function NewMaterial(settings: UploadSettings, brandId: nat, name: string, description: string,
                       file: Upload, token: string, tags: seq<string>): (r: ReferenceMaterial)
    ensures r.brandId == brandId && r.name == name
    ensures r.description == if description == "" then None else Some(description)
    ensures r.fileType == FileType(settings, file.filename)
    ensures r.fileUrl == ReferenceUrl(token, file.filename)
    ensures r.fileSize == file.size && r.originalFilename == file.filename
    ensures r.contentTags == if tags == [] then None else Some(tags)
    ensures r.extractedText.None? && r.usageCount == 0 && r.isActive
  {
    ReferenceMaterial(
      brandId, name, if description != "" then Some(description) else None,
      FileType(settings, file.filename), ReferenceUrl(token, file.filename), file.size, file.filename,
      None, if tags != [] then Some(tags) else None, DefaultUsageCount, DefaultIsActive)
  }

  /** `upload_reference_material`: a 404 when the brand is not the
      caller's, a 400 for a type that is neither an image nor a document
      type or a file over the size limit, and otherwise a new record under
      the next key. The tags are built one `append` at a time. */
  method UploadReferenceMaterial(db: Database, settings: UploadSettings, caller: nat, brandId: int, name: string,
                                 description: string, file: Upload, token: string, image: Option<(nat, nat)>)
    returns (r: Outcome<nat>)
    requires db.Valid()
    modifies db`materials, db`nextMaterial
    ensures db.Valid()
    ensures var owned := OwnedBrand(db.brands, brandId, caller);
            var allowed := AllowedFile(file.filename, settings.allowedImageTypes + settings.allowedDocumentTypes);
            && (owned.None? ==> r == Fail(NotFound))
            && (owned.Some? && !allowed ==> r == Fail(BadRequest))
            && (owned.Some? && allowed && !SizeAccepted(settings, file.size) ==> r == Fail(BadRequest))
            && (r.Ok? <==> owned.Some? && allowed && SizeAccepted(settings, file.size))
    ensures r.Fail? ==> db.materials == old(db.materials) && db.nextMaterial == old(db.nextMaterial)
    ensures r.Ok? ==>
              var m := NewMaterial(settings, db.brands[OwnedBrand(db.brands, brandId, caller).value].id, name,
                                   description, file, token, MaterialTags(FileType(settings, file.filename), image));
              r.value == old(db.nextMaterial) && db.materials == old(db.materials) + [Row(r.value, m)]
  {
    var owned := OwnedBrand(db.brands, brandId, caller);
    if owned.None? {
      return Fail(NotFound);
    }
    if !AllowedFile(file.filename, settings.allowedImageTypes + settings.allowedDocumentTypes) {
      return Fail(BadRequest);
    }
    if file.size > SizeLimit(settings) {
      return Fail(BadRequest);
    }
    var fileType := FileType(settings, file.filename);
    var tags: seq<string> := [];
    if fileType == "image" && image.Some? {
      var (width, height) := image.value;
      if width > height {
        tags := tags + ["landscape"];
      } else if height > width {
        tags := tags + ["portrait"];
      } else {
        tags := tags + ["square"];
      }
      if width >= HighResolution || height >= HighResolution {
        tags := tags + ["high-resolution"];
      }
    }
    assert tags == MaterialTags(fileType, image);
    var m := NewMaterial(settings, db.brands[owned.value].id, name, description, file, token, tags);
    AppendKeyed(db.materials, db.nextMaterial, m);
    db.materials := db.materials + [Row(db.nextMaterial, m)];
    r := Ok(db.nextMaterial);
    db.nextMaterial := db.nextMaterial + 1;
  }

  /** The filter of `list_reference_materials`: the brand's active
      materials, of the given type when one is given. */
  predicate MaterialListed(m: ReferenceMaterial, brandId: int, fileType: Option<string>) {
    m.brandId == brandId && m.isActive && (fileType.None? || fileType.value == "" || m.fileType == fileType.value)
  }

  /** `list_reference_materials`: a 404 when the brand is not the caller's,
      otherwise one page of the admitted materials in key order. */
  function ListReferenceMaterials(brands: seq<Row<Brand>>, materials: seq<Row<ReferenceMaterial>>, caller: nat,
                                  brandId: int, fileType: Option<string>, skip: nat, limit: nat)
    : (r: Outcome<seq<Row<ReferenceMaterial>>>)
    ensures r.Fail? <==> OwnedBrand(brands, brandId, caller).None?
    ensures r.Fail? ==> r.status == NotFound
    ensures r.Ok? ==> |r.value| <= limit
    ensures r.Ok? ==> forall i :: 0 <= i < |r.value| ==>
                        r.value[i] in materials && MaterialListed(r.value[i].value, brandId, fileType)
  {
    if OwnedBrand(brands, brandId, caller).None? then Fail(NotFound)
    else
      var all := Select(materials, (x: Row<ReferenceMaterial>) => MaterialListed(x.value, brandId, fileType));
      var page := Page(all, skip, limit);
      assert forall i :: 0 <= i < |page| ==> page[i] == all[skip + i];
      Ok(page)
  }

  /** A first page long enough holds every admitted material, in key
      order. */
  lemma ListMaterialsComplete(brands: seq<Row<Brand>>, materials: seq<Row<ReferenceMaterial>>, caller: nat,
                              brandId: int, fileType: Option<string>, limit: nat)
    requires KeysIncreasing(materials) && |materials| <= limit
    requires OwnedBrand(brands, brandId, caller).Some?
    ensures var r := ListReferenceMaterials(brands, materials, caller, brandId, fileType, 0, limit);
            && r.Ok? && KeysIncreasing(r.value)
            && forall i :: 0 <= i < |materials| && MaterialListed(materials[i].value, brandId, fileType) ==>
                 materials[i] in r.value
  {
    var keep := (x: Row<ReferenceMaterial>) => MaterialListed(x.value, brandId, fileType);
    SelectKeepsOrder(materials, keep);
    WholePage(Select(materials, keep), limit);
  }

  /** `filter(ReferenceMaterial.id == id).first()`: by key alone, active or
      not. */
  function MaterialById(rows: seq<Row<ReferenceMaterial>>, id: int): (r: Option<nat>)
    ensures r.Some? ==> r.value < |rows| && rows[r.value].id == id
    ensures r.None? ==> forall i :: 0 <= i < |rows| ==> rows[i].id != id
  {
    Find(rows, (x: Row<ReferenceMaterial>) => x.id == id)
  }

  /** The material the caller may reach under `id`: it exists and its brand
      is the caller's. */
  predicate Reachable(brands: seq<Row<Brand>>, materials: seq<Row<ReferenceMaterial>>, caller: nat, id: int) {
    MaterialById(materials, id).Some?
    && OwnedBrand(brands, materials[MaterialById(materials, id).value].value.brandId, caller).Some?
  }

  /** A material after one more use. */
  function Used(m: ReferenceMaterial): (r: ReferenceMaterial)
    ensures r.usageCount == m.usageCount + 1
    ensures r.(usageCount := m.usageCount) == m
  {
    m.(usageCount := m.usageCount + 1)
  }

  /** `get_reference_material`: a 404 when no material has the key or its
      brand is not the caller's; otherwise its usage count grows by one,
      whether it is active or not, and the updated record is returned. */
  method GetReferenceMaterial(db: Database, caller: nat, id: int) returns (r: Outcome<ReferenceMaterial>)
    requires db.Valid()
    modifies db`materials
    ensures db.Valid()
    ensures r.Ok? <==> Reachable(db.brands, old(db.materials), caller, id)
    ensures r.Fail? ==> r == Fail(NotFound) && db.materials == old(db.materials)
    ensures r.Ok? ==>
              var k := MaterialById(old(db.materials), id).value;
              r.value == Used(old(db.materials)[k].value)
              && db.materials == old(db.materials)[k := Row(old(db.materials)[k].id, r.value)]
  {
    var found := MaterialById(db.materials, id);
    if found.None? {
      return Fail(NotFound);
    }
    var k := found.value;
    if OwnedBrand(db.brands, db.materials[k].value.brandId, caller).None? {
      return Fail(NotFound);
    }
    var m := Used(db.materials[k].value);
    ReplaceKeyed(db.materials, db.nextMaterial, k, m);
    db.materials := db.materials[k := Row(db.materials[k].id, m)];
    r := Ok(m);
  }

  /** `delete_reference_material`: a 404 when no material has the key or
      its brand is not the caller's; otherwise the file under `/uploads/`
      that the URL names, if any, is the one removed, and the record stays,
      marked inactive. */
  method DeleteReferenceMaterial(db: Database, caller: nat, id: int) returns (r: Outcome<Option<string>>)
    requires db.Valid()
    modifies db`materials
    ensures db.Valid()
    ensures r.Ok? <==> Reachable(db.brands, old(db.materials), caller, id)
    ensures r.Fail? ==> r == Fail(NotFound) && db.materials == old(db.materials)
    ensures r.Ok? ==>
              var k := MaterialById(old(db.materials), id).value;
              var m := old(db.materials)[k].value;
              r.value == FilePath(m.fileUrl)
              && db.materials == old(db.materials)[k := Row(old(db.materials)[k].id, m.(isActive := false))]
  {
    var found := MaterialById(db.materials, id);
    if found.None? {
      return Fail(NotFound);
    }
    var k := found.value;
    var m := db.materials[k].value;
    if OwnedBrand(db.brands, m.brandId, caller).None? {
      return Fail(NotFound);
    }
    ReplaceKeyed(db.materials, db.nextMaterial, k, m.(isActive := false));
    db.materials := db.materials[k := Row(db.materials[k].id, m.(isActive := false))];
    r := Ok(FilePath(m.fileUrl));
  }

  /** After a soft delete the material drops out of every listing but is
      still found by its key, so a later get still serves and counts it. */
  lemma DeletedHiddenNotGone(brands: seq<Row<Brand>>, materials: seq<Row<ReferenceMaterial>>, caller: nat, k: nat,
                             brandId: int, fileType: Option<string>, skip: nat, limit: nat)
    requires KeysIncreasing(materials) && k < |materials|
    ensures var after := materials[k := Row(materials[k].id, materials[k].value.(isActive := false))];
            var r := ListReferenceMaterials(brands, after, caller, brandId, fileType, skip, limit);
            && (r.Ok? ==> forall i :: 0 <= i < |r.value| ==> r.value[i].id != materials[k].id)
            && MaterialById(after, materials[k].id) == Some(k)
  {
    var after := materials[k := Row(materials[k].id, materials[k].value.(isActive := false))];
    var r := ListReferenceMaterials(brands, after, caller, brandId, fileType, skip, limit);
    if r.Ok? {
      forall i | 0 <= i < |r.value|
        ensures r.value[i].id != materials[k].id
      {
        var j :| 0 <= j < |after| && after[j] == r.value[i];
        if j != k {
          assert after[j].id == materials[j].id;
        }
      }
    }
    assert after[k].id == materials[k].id;
  }

  // ---------------------------------------------------------------------
  // Brand logos

  /** The logo list after an upload: the new URL appended to a non-empty
      list, or a list of just the new URL. */
  function WithLogo(urls: Option<seq<string>>, url: string): (r: seq<string>)
    ensures |r| >= 1 && r[|r| - 1] == url
    ensures urls.Some? && urls.value != [] ==> r[..|r| - 1] == urls.value
    ensures urls.None? || urls.value == [] ==> r == [url]
  {
    if urls.Some? && urls.value != [] then urls.value + [url] else [url]
  }

  /** `upload_brand_logo`: a 404 when the brand is not the caller's, a 400
      for a type that is not an image type or a file over the size limit,
      and otherwise the brand's logo list gains the new URL, which is
      returned. */
  method UploadBrandLogo(db: Database, settings: UploadSettings, caller: nat, brandId: int, file: Upload, token: string)
    returns (r: Outcome<string>)
    requires db.Valid()
    modifies db`brands
    ensures db.Valid()
    ensures var owned := OwnedBrand(old(db.brands), brandId, caller);
            var allowed := AllowedFile(file.filename, settings.allowedImageTypes);
            && (owned.None? ==> r == Fail(NotFound))
            && (owned.Some? && !allowed ==> r == Fail(BadRequest))
            && (owned.Some? && allowed && !SizeAccepted(settings, file.size) ==> r == Fail(BadRequest))
            && (r.Ok? <==> owned.Some? && allowed && SizeAccepted(settings, file.size))
    ensures r.Fail? ==> db.brands == old(db.brands)
    ensures r.Ok? ==>
              var k := OwnedBrand(old(db.brands), brandId, caller).value;
              var b := old(db.brands)[k].value;
              r.value == LogoUrl(brandId, token, file.filename)
              && db.brands == old(db.brands)[k := Row(brandId as nat, b.(logoUrls := Some(WithLogo(b.logoUrls, r.value))))]
  {
    var owned := OwnedBrand(db.brands, brandId, caller);
    if owned.None? {
      return Fail(NotFound);
    }
    if !AllowedFile(file.filename, settings.allowedImageTypes) {
      return Fail(BadRequest);
    }
    if file.size > SizeLimit(settings) {
      return Fail(BadRequest);
    }
    var k := owned.value;
    var url := LogoUrl(brandId, token, file.filename);
    var b := db.brands[k].value;
    var logos: seq<string>;
    if b.logoUrls.Some? && b.logoUrls.value != [] {
      logos := b.logoUrls.value + [url];
    } else {
      logos := [url];
    }
    var updated := b.(logoUrls := Some(logos));
    ReplaceKeyed(db.brands, db.nextBrand, k, updated);
    ReplaceUnique(db.brands, BrandKey, k, updated);
    db.brands := db.brands[k := Row(db.brands[k].id, updated)];
    r := Ok(url);
  }

  /** A logo upload keeps the earlier logos in order and adds the new one
      last, with the upload's extension. */
  lemma LogoAppended(urls: Option<seq<string>>, brandId: int, token: string, filename: string)
    requires '.' in filename
    ensures var url := LogoUrl(brandId, token, filename);
            var r := WithLogo(urls, url);
            && (urls.Some? ==> urls.value <= r)
            && Extension(r[|r| - 1]) == Extension(filename)
  {
    StoredNameKeepsExtension("/uploads/brands/", "logo_" + IntToString(brandId) + "_" + token, filename);
  }
}
