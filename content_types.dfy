/** The upload client's choice of content type from a file's extension, and
    how that choice meets the upload allow-list. */
module ContentTypes {
  import opened Records
  import opened Paths

  const OctetStream: string := "application/octet-stream"

  /** The lower-cased extensions that have a content type of their own. */
  const KnownExtensions: set<string> := {".pdf", ".png", ".jpg", ".jpeg"}

  /** The content type for a path, chosen from its lower-cased extension;
      anything unrecognised, the empty extension included, falls back to
      `OctetStream`. Every recognised extension yields an allowed type and
      the fallback is not allowed. */
  function ContentTypeOf(path: string): (ct: string)
    ensures ct in AllowedContentTypes <==> Lower(Suffix(path)) in KnownExtensions
    ensures ct !in AllowedContentTypes <==> ct == OctetStream
  {
    ForExtension(Lower(Suffix(path)))
  }

  /** The table itself, on an already lower-cased extension. */
  function ForExtension(ext: string): (ct: string)
    ensures ct in AllowedContentTypes <==> ext in KnownExtensions
    ensures ct !in AllowedContentTypes <==> ct == OctetStream
  {
    if ext == ".pdf" then "application/pdf"
    else if ext == ".png" then "image/png"
    else if ext == ".jpg" || ext == ".jpeg" then "image/jpeg"
    else OctetStream
  }

  /** Paths that agree up to case get the same content type. */
  lemma ContentTypeIgnoresCase(a: string, b: string)
    requires Lower(a) == Lower(b)
    ensures ContentTypeOf(a) == ContentTypeOf(b)
  {
    SuffixIgnoresCase(a, b);
  }

  /** In particular, lower-casing a path does not change its content type. */
  lemma ContentTypeOfLowered(path: string)
    ensures ContentTypeOf(Lower(path)) == ContentTypeOf(path)
  {
    LowerIdempotent(path);
    ContentTypeIgnoresCase(Lower(path), path);
  }

  /** The fixed table: a file named `stem` + extension, in any case, maps to
      the content type of that extension. */
  lemma ContentTypeOfKnownExtension(stem: string, ext: string)
    requires stem != [] && stem[|stem| - 1] != '/'
    requires 2 <= |ext| && ext[0] == '.' && '.' !in ext[1..] && '/' !in ext
    ensures Lower(ext) == ".pdf" ==> ContentTypeOf(stem + ext) == "application/pdf"
    ensures Lower(ext) == ".png" ==> ContentTypeOf(stem + ext) == "image/png"
    ensures Lower(ext) == ".jpg" ==> ContentTypeOf(stem + ext) == "image/jpeg"
    ensures Lower(ext) == ".jpeg" ==> ContentTypeOf(stem + ext) == "image/jpeg"
    ensures Lower(ext) !in KnownExtensions ==> ContentTypeOf(stem + ext) == OctetStream
  {
    SuffixOfStemAndExtension(stem, ext);
  }

  /** A path without an extension falls back to `OctetStream`. */
  lemma NoExtensionFallsBack(path: string)
    requires '.' !in BaseName(path)
    ensures ContentTypeOf(path) == OctetStream
  {
  }
}
