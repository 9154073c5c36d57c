/** Reading a script file (src/pdxfile.rs): which text is handed to the
  * parser and what is reported about the file's byte-order mark. Reading
  * the file and decoding Windows-1252 happen outside the model: their
  * outcome is a parameter. The parser is not part of this model either, so
  * each reader yields the text it would parse, or nothing. */
module PdxFile {
  import opened Base
  import opened Report

  const Bom: char := '\U{FEFF}'

  /** What a UTF-8 BOM looks like after decoding as Windows-1252. */
  const BomFrom1252: string := "\U{00ef}\U{00bb}\U{00bf}"

  /** The outcome of reading the file: its contents, or the I/O error. */
  datatype ReadOutcome = Contents(text: string) | Failed(error: string)

  /** `str::strip_prefix`. */
  function StripPrefix(s: string, prefix: string): (r: Option<string>)
    ensures r.Some? <==> StartsWith(s, prefix)
    ensures r.Some? ==> prefix + r.value == s
  {
    if StartsWith(s, prefix) then Some(s[|prefix|..]) else None
  }

  /** `read_utf8`: a failed read is one ReadError and nothing to parse. */
  function ReadUtf8(at: Loc, outcome: ReadOutcome): (r: Checked<Option<string>>)
    ensures outcome.Contents? ==> r == Checked(Some(outcome.text), [])
    ensures outcome.Failed? ==> r.value.None? && |r.reports| == 1 && IsReport(r.reports[0], Error, ReadError, at)
  {
    match outcome
    case Contents(text) => Checked(Some(text), [])
    case Failed(e) => Checked(None, [ErrorInfoAt(at, ReadError, "could not read file", e)])
  }

  /** `read_no_bom`: the contents unchanged. */
  function ReadNoBom(at: Loc, outcome: ReadOutcome): (r: Checked<Option<string>>)
    ensures outcome.Contents? ==> r == Checked(Some(outcome.text), [])
    ensures outcome.Failed? ==> r == ReadUtf8(at, outcome)
  {
    ReadUtf8(at, outcome)
  }

  /** `read`: the BOM is required; without it one Encoding warning, and the
    * whole text is parsed anyway. */
  function Read(at: Loc, outcome: ReadOutcome): (r: Checked<Option<string>>)
    ensures outcome.Failed? ==> r == ReadUtf8(at, outcome)
    ensures outcome.Contents? && StartsWith(outcome.text, [Bom]) ==> r == Checked(Some(outcome.text[1..]), [])
    ensures outcome.Contents? && !StartsWith(outcome.text, [Bom]) ==>
      r.value == Some(outcome.text) && |r.reports| == 1 && IsReport(r.reports[0], Warning, Encoding, at)
  {
    match ReadUtf8(at, outcome)
    case Checked(None, reports) => Checked(None, reports)
    case Checked(Some(contents), _) =>
      match StripPrefix(contents, [Bom])
      case Some(bomless) => Checked(Some(bomless), [])
      case None => Checked(Some(contents), [WarnAt(at, Encoding, "file must start with a UTF-8 BOM")])
  }

  /** `read_optional_bom`: the BOM is stripped if there, never required. */
  function ReadOptionalBom(at: Loc, outcome: ReadOutcome): (r: Checked<Option<string>>)
    ensures outcome.Failed? ==> r == ReadUtf8(at, outcome)
    ensures outcome.Contents? ==> r.reports == []
  {
    match ReadUtf8(at, outcome)
    case Checked(None, reports) => Checked(None, reports)
    case Checked(Some(contents), _) =>
      match StripPrefix(contents, [Bom])
      case Some(bomless) => Checked(Some(bomless), [])
      case None => Checked(Some(contents), [])
  }

  /** The outcome of reading and decoding as Windows-1252: the I/O error,
    * or the decoded text if the bytes decode. */
  datatype Read1252Outcome = Decoded(text: Option<string>) | ReadFailed(error: string)

  /** `read_cp1252`: a mis-decoded BOM is stripped with one advice. */
  function ReadCp1252(at: Loc, outcome: Read1252Outcome): (r: Checked<Option<string>>)
    ensures outcome.ReadFailed? ==> r.value.None? && |r.reports| == 1 && IsReport(r.reports[0], Error, ReadError, at)
    ensures outcome == Decoded(None) ==> r == Checked(None, [])
    ensures outcome.Decoded? && outcome.text.Some? && StartsWith(outcome.text.value, BomFrom1252) ==>
      r.value == Some(outcome.text.value[3..]) && |r.reports| == 1 && IsReport(r.reports[0], Info, Encoding, at)
    ensures outcome.Decoded? && outcome.text.Some? && !StartsWith(outcome.text.value, BomFrom1252) ==>
      r == Checked(outcome.text, [])
  {
    match outcome
    case ReadFailed(e) => Checked(None, [ErrorInfoAt(at, ReadError, "could not read file", e)])
    case Decoded(None) => Checked(None, [])
    case Decoded(Some(contents)) =>
      match StripPrefix(contents, BomFrom1252)
      case Some(bomless) =>
        Checked(Some(bomless), [AdviceInfoAt(at, Encoding, "file should not start with a UTF-8 BOM",
                                             "This kind of file is expected to be in Windows-1252 encoding")])
      case None => Checked(Some(contents), [])
  }

  /** Writing a BOM in front of a text and reading it back gives the text,
    * silently, with either reader. */
  lemma BomRoundTrip(at: Loc, text: string)
    ensures Read(at, Contents([Bom] + text)) == Checked(Some(text), [])
    ensures ReadOptionalBom(at, Contents([Bom] + text)) == Checked(Some(text), [])
  {
    assert ([Bom] + text)[..1] == [Bom];
    assert ([Bom] + text)[1..] == text;
  }

  /** `read` and `read_optional_bom` parse the same text; they differ only
    * in the warning. */
  lemma ReadersAgree(at: Loc, outcome: ReadOutcome)
    ensures Read(at, outcome).value == ReadOptionalBom(at, outcome).value
    ensures outcome.Contents? ==> |Read(at, outcome).reports| <= 1 && ReadOptionalBom(at, outcome).reports == []
  {
  }

  /** Only one BOM is stripped: a doubled BOM leaves the second one in the
    * text parsed. */
  lemma OneBomStripped(at: Loc, text: string)
    ensures Read(at, Contents([Bom, Bom] + text)).value == Some([Bom] + text)
  {
    assert ([Bom, Bom] + text)[..1] == [Bom];
    assert ([Bom, Bom] + text)[1..] == [Bom] + text;
  }
}
