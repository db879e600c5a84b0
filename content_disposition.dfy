/** QuidQuestions' reading of the `content-disposition` header: the match of the regular
    expression `filename="(.+)"`, the extension `split('.').pop()` of the captured name, and the
    file name an artifact is stored under. */
module ContentDisposition {
  import opened Wrappers
  import opened JsText

  const FilenamePrefix := "filename=\""

  /** The characters a JavaScript `.` does not match. */
  predicate IsLineTerminator(c: char)
  {
    c == '\n' || c == '\r' || c == '\U{2028}' || c == '\U{2029}'
  }

  /** The regular expression `filename="(.+)"` matches `s` from index `p` with its closing quote
      at index `q`: the prefix `filename="`, at least one character other than a line terminator,
      then `"`. */
  ghost predicate MatchesAt(s: string, p: nat, q: nat)
  {
    p + |FilenamePrefix| < q < |s| && s[p..p + |FilenamePrefix|] == FilenamePrefix && s[q] == '"' &&
    forall j :: p + |FilenamePrefix| <= j < q ==> !IsLineTerminator(s[j])
  }

  /** The index of the first line terminator at or after `i`, or the end of `s`. */
  function RunEnd(s: string, i: nat): (e: nat)
    requires i <= |s|
    ensures i <= e <= |s|
    ensures e < |s| ==> IsLineTerminator(s[e])
    ensures forall j :: i <= j < e ==> !IsLineTerminator(s[j])
    decreases |s| - i
  {
    if i == |s| || IsLineTerminator(s[i]) then i else RunEnd(s, i + 1)
  }

  /** The largest index in `[lo, hi)` holding a quote. */
  function LastQuote(s: string, lo: nat, hi: nat): (r: Option<nat>)
    requires hi <= |s|
    ensures r.Some? ==> lo <= r.value < hi && s[r.value] == '"'
    ensures r.Some? ==> forall q :: r.value < q < hi ==> s[q] != '"'
    ensures r.None? ==> forall q :: lo <= q < hi ==> s[q] != '"'
    decreases hi
  {
    if hi <= lo then None
    else if s[hi - 1] == '"' then Some(hi - 1)
    else LastQuote(s, lo, hi - 1)
  }

  /** The closing quote the greedy `.+` settles on when the pattern is tried at `p`: the last
      quote before the first line terminator, at least one character past the prefix. */
  function CloseAt(s: string, p: nat): (r: Option<nat>)
    ensures r.Some? ==> MatchesAt(s, p, r.value)
    ensures r.Some? ==> forall q: nat :: r.value < q ==> !MatchesAt(s, p, q)
    ensures r.None? ==> forall q: nat :: !MatchesAt(s, p, q)
  {
    var n := |FilenamePrefix|;
    if p + n <= |s| && s[p..p + n] == FilenamePrefix then
      var e := RunEnd(s, p + n);
      var r := LastQuote(s, p + n + 1, e);
      assert forall q: nat :: MatchesAt(s, p, q) ==> q < e;
      r
    else
      None
  }

  /** The leftmost start at or after `p` where the pattern matches, with its closing quote. */
  function SearchFrom(s: string, p: nat): (r: Option<(nat, nat)>)
    ensures r.Some? ==> p <= r.value.0 && CloseAt(s, r.value.0) == Some(r.value.1)
    ensures r.Some? ==> forall p': nat :: p <= p' < r.value.0 ==> CloseAt(s, p').None?
    ensures r.None? ==> forall p': nat, q: nat :: p <= p' ==> !MatchesAt(s, p', q)
    decreases |s| - p
  {
    if p >= |s| then None
    else
      match CloseAt(s, p)
      case Some(q) => Some((p, q))
      case None => SearchFrom(s, p + 1)
  }

  /** `contentDisposition?.match(/filename="(.+)"/)?.[1]`: the captured file name, or None when
      the header is absent or does not match. */
  function FilenameMatch(header: Option<string>): Option<string>
  {
    if header.None? then None
    else
      match SearchFrom(header.value, 0)
      case None => None
      case Some((p, q)) => Some(header.value[p + |FilenamePrefix|..q])
  }

  /** FilenameMatch is the regular expression's first match: the capture lies between the
      leftmost `filename="` that is followed by a closing quote on the same line and the last
      such quote; it is never empty; and there is no match exactly when no start has one. */
  lemma FilenameMatchIsFirstMatch(s: string)
    ensures FilenameMatch(Some(s)).None? <==> forall p: nat, q: nat :: !MatchesAt(s, p, q)
    ensures FilenameMatch(Some(s)).Some? ==>
      exists p: nat, q: nat :: MatchesAt(s, p, q) && FilenameMatch(Some(s)).value == s[p + |FilenamePrefix|..q] &&
        (forall p': nat, q': nat :: p' < p ==> !MatchesAt(s, p', q')) &&
        (forall q': nat :: q < q' ==> !MatchesAt(s, p, q'))
    ensures FilenameMatch(Some(s)).Some? ==> FilenameMatch(Some(s)).value != ""
  {
    match SearchFrom(s, 0)
    case None =>
    case Some((p, q)) =>
      assert MatchesAt(s, p, q);
      forall p': nat, q': nat | p' < p ensures !MatchesAt(s, p', q') {
        assert CloseAt(s, p').None?;
      }
  }

  /** `name.split('.').pop()`: the text after the last `.`, or all of `name` when it has none. */
  function LastSegment(name: string): (ext: string)
    ensures |ext| <= |name| && ext == name[|name| - |ext|..]
    ensures '.' !in ext
    ensures |ext| < |name| ==> name[|name| - |ext| - 1] == '.'
    decreases |name|
  {
    if name == [] then []
    else if name[|name| - 1] == '.' then []
    else
      var init := name[..|name| - 1];
      var e := LastSegment(init);
      assert name[|name| - |e| - 1..] == init[|init| - |e|..] + [name[|name| - 1]];
      assert |e| < |init| ==> name[|name| - |e| - 2] == init[|init| - |e| - 1];
      e + [name[|name| - 1]]
  }

  /** The extension QuidQuestions reads off the header: `fileNameMatch?.[1]?.split('.').pop()`. */
  function Extension(header: Option<string>): Option<string>
  {
    match FilenameMatch(header)
    case None => None
    case Some(f) => Some(LastSegment(f))
  }

  /** The body is decompressed exactly when the header names a file whose last extension is `tgz`. */
  predicate IsTgz(header: Option<string>)
  {
    Extension(header) == Some("tgz")
  }

  /** As written: `fileNameMatch?.[1] || \`${artifact.name}${extension}\``. Without a match the
      extension is `undefined`, and the template literal spells it out. */
  function FileNameAsWritten(artifactName: string, header: Option<string>): string
  {
    var m := FilenameMatch(header);
    if m.Some? && m.value != "" then m.value else artifactName + Interpolate(Extension(header))
  }

  /** As written, an artifact served without a matching `content-disposition` is stored under
      its name followed by the text `undefined`. */
  lemma FileNameAsWrittenAppendsUndefined(artifactName: string, header: Option<string>)
    requires FilenameMatch(header).None?
    ensures FileNameAsWritten(artifactName, header) == artifactName + "undefined"
  {
  }

  /** The file name as evidently intended: the quoted name when the header has one, otherwise the
      artifact's own name. */
  function FileName(artifactName: string, header: Option<string>): (fileName: string)
    ensures FilenameMatch(header).None? ==> fileName == artifactName
    ensures FilenameMatch(header).Some? ==> fileName == FilenameMatch(header).value
    ensures fileName != "" || artifactName == ""
  {
    match FilenameMatch(header)
    case Some(f) => f
    case None => artifactName
  }

  /** The two agree whenever the header names a file, and differ exactly in the fallback. */
  lemma FileNameAgreesWhenMatched(artifactName: string, header: Option<string>)
    ensures FilenameMatch(header).Some? ==> FileNameAsWritten(artifactName, header) == FileName(artifactName, header)
    ensures FilenameMatch(header).None? ==> FileNameAsWritten(artifactName, header) == FileName(artifactName, header) + "undefined"
  {
    if header.Some? && FilenameMatch(header).Some? {
      FilenameMatchIsFirstMatch(header.value);
    }
  }
}
