/**
 * The multer configuration in front of both upload routes (its file filter,
 * size limit and file-count limit) and the names and URLs the upload
 * handlers give to stored files.
 */
module Uploads {
  import opened Common
  import opened Text
  import opened Records

  /** `limits.fileSize`: 10 MB per file. */
  const MaxFileSize: int := 10 * 1024 * 1024

  /** `limits.files`, also the `maxCount` of `upload.array('images', 5)`. */
  const MaxFiles: int := 5

  /** The alternatives of `/jpeg|jpg|png|gif|pdf/`. */
  const AllowedTypes: seq<string> := ["jpeg", "jpg", "png", "gif", "pdf"]

  /** A file as multer hands it over: client file name, MIME type, byte count. */
  datatype UploadedFile = UploadedFile(originalName: string, mimeType: string, size: int)

  /** `/jpeg|jpg|png|gif|pdf/.test(s)`: unanchored, so any occurrence anywhere matches. */
  predicate MatchesAllowedType(s: string) {
    Contains(s, "jpeg") || Contains(s, "jpg") || Contains(s, "png")
    || Contains(s, "gif") || Contains(s, "pdf")
  }

  /** The `fileFilter` callback: the lower-cased extension and the MIME type must both match. */
  predicate FileFilter(f: UploadedFile) {
    MatchesAllowedType(f.mimeType) && MatchesAllowedType(ToLower(Extname(f.originalName)))
  }

  /** The regular expression matches exactly when one of its alternatives occurs in the text. */
  lemma MatchesAllowedTypeIff(s: string)
    ensures MatchesAllowedType(s) <==> exists t, i :: t in AllowedTypes && OccursAt(s, t, i)
  {
    forall t | t in AllowedTypes {
      ContainsIffOccurs(s, t);
    }
  }

  /** A file whose name has no dot has no extension, and the filter refuses it. */
  lemma NameWithoutDotRejected(f: UploadedFile)
    requires '.' !in f.originalName
    ensures !FileFilter(f)
  {
    NoDotNoExtension(f.originalName);
    assert ToLower("") == "";
  }

  /** Multer lets the request through: at most five files, each within the size limit and accepted by the filter. */
  predicate MulterAccepts(files: seq<UploadedFile>) {
    |files| <= MaxFiles
    && forall i :: 0 <= i < |files| ==> files[i].size <= MaxFileSize && FileFilter(files[i])
  }

  /**
   * What the clock and the random generator contribute to one stored file:
   * the `Date.now()` and `Math.random()` part of its name and the upload time.
   */
  datatype Stamp = Stamp(timestamp: int, randomPart: string, uploadedAt: int)

  /** `${timestamp}-${randomStr}${fileExt}`. */
  function StoredFileName(f: UploadedFile, stamp: Stamp): string {
    DecimalString(stamp.timestamp) + "-" + stamp.randomPart + Extname(f.originalName)
  }

  /** `/uploads/${tenantId}/${fileName}`. */
  function PublicUrl(owner: Id, fileName: string): (url: string)
    ensures "/uploads/" <= url
  {
    "/uploads/" + IdString(owner) + "/" + fileName
  }

  /** The metadata record an upload appends for `caller`, numbered `id`. */
  function UploadedImage(id: int, caller: Identity, f: UploadedFile, stamp: Stamp): Image {
    Image(id, caller.id, DisplayName(caller), PublicUrl(caller.id, StoredFileName(f, stamp)),
          f.originalName, f.size, Some(f.mimeType), stamp.uploadedAt)
  }

  /**
   * An uploaded file's record belongs to the caller, points under `/uploads/`
   * (which is what the delete handler tests before removing the file), and
   * its URL ends with the original name's extension.
   */
  lemma UploadedImageFields(id: int, caller: Identity, f: UploadedFile, stamp: Stamp)
    ensures var img := UploadedImage(id, caller, f, stamp);
      && img.id == id && img.tenantId == caller.id
      && "/uploads/" <= img.imageUrl
      && var ext := Extname(f.originalName);
         |ext| <= |img.imageUrl| && img.imageUrl[|img.imageUrl| - |ext|..] == ext
  {
    var img := UploadedImage(id, caller, f, stamp);
    var ext := Extname(f.originalName);
    var prefix := "/uploads/" + IdString(caller.id) + "/" + DecimalString(stamp.timestamp) + "-" + stamp.randomPart;
    assert img.imageUrl == prefix + ext;
  }

  /** "a.jpgx" has the extension ".jpgx". */
  lemma ExtnameOfSample()
    ensures Extname("a.jpgx") == ".jpgx"
  {
    var name := "a.jpgx";
    assert '/' !in name;
    assert LastIndexOf(name, '/') == None;
    assert BaseName(name) == name;
    assert name[1] == '.';
    var d := LastIndexOf(name, '.');
    assert d.Some?;
    assert forall k :: 0 <= k < |name| && k != 1 ==> name[k] != '.';
    assert d.value == 1;
  }

  /** The lower-cased ".jpgx" contains the alternative "jpg". */
  lemma SampleExtensionMatches()
    ensures MatchesAllowedType(ToLower(".jpgx"))
  {
    assert ToLower(".jpgx") == ".jpgx";
    assert Contains(".jpgx", "jpg") by {
      assert ".jpgx"[1..] == "jpgx";
      assert "jpg" <= "jpgx";
    }
  }

  /** "image/png" contains the alternative "png". */
  lemma SampleTypeMatches()
    ensures MatchesAllowedType("image/png")
  {
    ContainsIffOccurs("image/png", "png");
    assert "image/png"[6..9] == "png";
    assert OccursAt("image/png", "png", 6);
  }

  /** The unanchored pattern lets "a.jpgx" with an image/png type through. */
  lemma UnanchoredExtensionAccepted()
    ensures FileFilter(UploadedFile("a.jpgx", "image/png", 1))
  {
    ExtnameOfSample();
    SampleExtensionMatches();
    SampleTypeMatches();
  }
}
