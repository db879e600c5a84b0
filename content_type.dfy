/** MIME types and file extensions of fetched artifacts: GPT's `getFileExtension` table and its
    header fallback, and QuidQuestions' name-based MIME resolution. */
module ContentType {
  import opened Wrappers
  import opened JsText

  const OctetStream := "application/octet-stream"

  /** The five MIME types `getFileExtension` knows. */
  const KnownMimeTypes: set<string> := {"text/plain", "application/json", "application/pdf", "image/jpeg", "image/png"}

  /** `getFileExtension(mimeType)`: the table lookup `mimeToExt[mimeType] || ''`. Exactly the five
      listed types have an extension, each starting with a dot: `.txt`, `.json`, `.pdf`, `.jpg`
      and `.png` in the order of the list. */
  function GetFileExtension(mimeType: string): (ext: string)
    ensures ext != "" <==> mimeType in KnownMimeTypes
    ensures ext != "" ==> ext[0] == '.'
    ensures mimeType == "text/plain" ==> ext == ".txt"
    ensures mimeType == "application/json" ==> ext == ".json"
    ensures mimeType == "application/pdf" ==> ext == ".pdf"
    ensures mimeType == "image/jpeg" ==> ext == ".jpg"
    ensures mimeType == "image/png" ==> ext == ".png"
  {
    if mimeType == "text/plain" then ".txt"
    else if mimeType == "application/json" then ".json"
    else if mimeType == "application/pdf" then ".pdf"
    else if mimeType == "image/jpeg" then ".jpg"
    else if mimeType == "image/png" then ".png"
    else ""
  }

  /** The table is one-to-one: an extension names its MIME type. */
  lemma FileExtensionInjective(a: string, b: string)
    requires GetFileExtension(a) == GetFileExtension(b) != ""
    ensures a == b
  {
  }

  /** GPT's content type: the `content-type` header, or `application/octet-stream` when the header
      is absent or empty (`header || 'application/octet-stream'`). */
  function GptContentType(header: Option<string>): (contentType: string)
    ensures contentType != ""
    ensures header.Some? && header.value != "" ==> contentType == header.value
    ensures header.None? || header.value == "" ==> contentType == OctetStream
  {
    OrElse(header, OctetStream)
  }

  /** The file name GPT stores an artifact under: the artifact's name followed by the extension
      of its content type. Without a `content-type` header the name is left as it is. */
  function GptFileName(artifactName: string, header: Option<string>): (fileName: string)
    ensures |artifactName| <= |fileName| && fileName[..|artifactName|] == artifactName
    ensures fileName[|artifactName|..] == GetFileExtension(GptContentType(header))
    ensures header.None? ==> fileName == artifactName
  {
    artifactName + GetFileExtension(GptContentType(header))
  }

  /** QuidQuestions' MIME type: start from the `content-type` header (or
      `application/octet-stream`), then let the artifact's name override it, the first of
      `markdown`, `html`, `raw-result` that the name contains deciding. */
  function ResolveMimeType(artifactName: string, contentType: Option<string>): (mimeType: string)
    ensures Includes(artifactName, "markdown") ==> mimeType == "text/markdown"
    ensures !Includes(artifactName, "markdown") && Includes(artifactName, "html") ==> mimeType == "text/html"
    ensures !Includes(artifactName, "markdown") && !Includes(artifactName, "html") && Includes(artifactName, "raw-result")
      ==> mimeType == "application/json"
    ensures !Includes(artifactName, "markdown") && !Includes(artifactName, "html") && !Includes(artifactName, "raw-result")
      ==> mimeType == OrElse(contentType, OctetStream)
  {
    var fromHeader := OrElse(contentType, OctetStream);
    if Includes(artifactName, "markdown") then "text/markdown"
    else if Includes(artifactName, "html") then "text/html"
    else if Includes(artifactName, "raw-result") then "application/json"
    else fromHeader
  }

  /** The header decides only for names without any of the three hints; whatever decides, the
      MIME type is never empty. */
  lemma ResolvedMimeTypeSource(artifactName: string, a: Option<string>, b: Option<string>)
    ensures ResolveMimeType(artifactName, a) != ""
    ensures Includes(artifactName, "markdown") || Includes(artifactName, "html") || Includes(artifactName, "raw-result")
      ==> ResolveMimeType(artifactName, a) == ResolveMimeType(artifactName, b)
  {
  }

  /** The three outputs QuidQuestions' execution declares get their MIME type from their names
      alone, whatever header the artifact server sends. */
  lemma DeclaredOutputMimeTypes(header: Option<string>)
    ensures ResolveMimeType("raw-result", header) == "application/json"
    ensures ResolveMimeType("answer-markdown", header) == "text/markdown"
    ensures ResolveMimeType("answer-html", header) == "text/html"
  {
    assert OccursAt("raw-result", "raw-result", 0);
    NotIncludes("raw-result", "markdown", 0);
    NotIncludes("raw-result", "html", 0);
    NotIncludes("answer-html", "markdown", 3);
    assert OccursAt("answer-markdown", "markdown", 7);
    assert OccursAt("answer-html", "html", 7);
  }
}
