/** QuidQuestions' `extractTgzBuffer`: after gzip and tar decoding, every data chunk of every
    archive entry is appended, decoded as text, to one string. Decompression and tar parsing are
    not modelled; the decoded archive is given as its entries, each the list of its chunks. */
module Archive {
  import opened Wrappers
  import opened JsText

  /** The text of one entry: its chunks' texts joined in order. */
  function EntryText(chunks: seq<Bytes>, decode: Bytes -> string): string
  {
    if chunks == [] then "" else EntryText(chunks[..|chunks| - 1], decode) + decode(chunks[|chunks| - 1])
  }

  /** The text of the archive: its entries' texts joined in order, with no separator and no
      trace of the entry names. */
  function ArchiveText(entries: seq<seq<Bytes>>, decode: Bytes -> string): string
  {
    if entries == [] then "" else ArchiveText(entries[..|entries| - 1], decode) + EntryText(entries[|entries| - 1], decode)
  }

  /** What `extractTgzBuffer` resolves to: the archive's text, or the decoding error it rejects with. */
  function ExtractedText(archive: Result<seq<seq<Bytes>>, string>, decode: Bytes -> string): Result<string, string>
  {
    match archive
    case Failure(e) => Failure(e)
    case Success(entries) => Success(ArchiveText(entries, decode))
  }

  /** Joining is associative over entries: the text of two archives back to back is the text of
      the first followed by the text of the second, so entry boundaries leave no mark. */
  lemma {:induction false} ArchiveTextAppend(a: seq<seq<Bytes>>, b: seq<seq<Bytes>>, decode: Bytes -> string)
    ensures ArchiveText(a + b, decode) == ArchiveText(a, decode) + ArchiveText(b, decode)
    decreases |b|
  {
    if b == [] {
      assert a + b == a;
    } else {
      var binit := b[..|b| - 1];
      assert (a + b)[..|a + b| - 1] == a + binit;
      assert (a + b)[|a + b| - 1] == b[|b| - 1];
      ArchiveTextAppend(a, binit, decode);
    }
  }

  /** The archive's text is every chunk's text in order: an entry that the archive holds at
      position i contributes its text right after the text of the entries before it. */
  lemma {:induction false} ArchiveTextSplit(entries: seq<seq<Bytes>>, i: nat, decode: Bytes -> string)
    requires i < |entries|
    ensures ArchiveText(entries, decode) ==
      ArchiveText(entries[..i], decode) + EntryText(entries[i], decode) + ArchiveText(entries[i + 1..], decode)
  {
    assert entries == entries[..i] + [entries[i]] + entries[i + 1..];
    ArchiveTextAppend(entries[..i] + [entries[i]], entries[i + 1..], decode);
    ArchiveTextAppend(entries[..i], [entries[i]], decode);
    assert ArchiveText([entries[i]], decode) == EntryText(entries[i], decode) by {
      assert [entries[i]][..0] == [];
    }
  }

  /** An archive of one entry with one chunk decodes to that chunk's text. */
  lemma SingleEntryArchive(chunk: Bytes, decode: Bytes -> string)
    ensures ArchiveText([[chunk]], decode) == decode(chunk)
  {
    assert [[chunk]][..0] == [];
    assert [chunk][..0] == [];
    assert EntryText([chunk], decode) == "" + decode(chunk);
    assert ArchiveText([[chunk]], decode) == "" + EntryText([chunk], decode);
  }

  /** `extractTgzBuffer`: `fileContent += chunk.toString()` for each chunk of each entry, in the
      order the tar stream emits them; a decoding error rejects. */
  method ExtractTgz(archive: Result<seq<seq<Bytes>>, string>, decode: Bytes -> string) returns (r: Result<string, string>)
    ensures r == ExtractedText(archive, decode)
  {
    if archive.Failure? {
      return Failure(archive.error);
    }
    var entries := archive.value;
    var fileContent := "";
    var i := 0;
    while i < |entries|
      invariant 0 <= i <= |entries|
      invariant fileContent == ArchiveText(entries[..i], decode)
    {
      var chunks := entries[i];
      var j := 0;
      while j < |chunks|
        invariant 0 <= j <= |chunks|
        invariant fileContent == ArchiveText(entries[..i], decode) + EntryText(chunks[..j], decode)
      {
        assert chunks[..j + 1][..j] == chunks[..j];
        fileContent := fileContent + decode(chunks[j]);
        j := j + 1;
      }
      assert chunks[..j] == chunks;
      assert entries[..i + 1][..i] == entries[..i];
      i := i + 1;
    }
    assert entries[..i] == entries;
    r := Success(fileContent);
  }
}
