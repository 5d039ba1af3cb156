/** The two histories the application keeps: terminal lines and diagnostics. */
module Histories {
  import opened Prelude
  import opened Utf8
  import opened BoundedHistory

  const MAX_TERMINAL_HISTORY_LINES := 2000
  const MAX_TERMINAL_HISTORY_BYTES := 2 * 1024 * 1024
  const MAX_DIAGNOSTICS_HISTORY_ENTRIES := 500
  const MAX_DIAGNOSTICS_HISTORY_BYTES := 1024 * 1024
  const MAX_DIAGNOSTIC_MESSAGE_BYTES := 64 * 1024
  const MAX_DIAGNOSTIC_ID_CHARACTERS := 128
  const MAX_DIAGNOSTIC_TIMESTAMP_CHARACTERS := 64

  datatype TerminalLine = TerminalLine(id: nat, text: Utf16)

  /** `OtherSource` is a source name the application does not know. */
  datatype Source = Ssh | Xray | Routing | Update | App | OtherSource

  datatype DiagnosticsEntry = DiagnosticsEntry(id: Utf16, at: Utf16, message: Utf16, source: Option<Source>)

  function LineBytes(line: TerminalLine): nat { ByteLength(line.text) }

  function EntryBytes(entry: DiagnosticsEntry): nat {
    ByteLength(entry.id) + ByteLength(entry.at) + ByteLength(entry.message) + 16
  }

  function Sliced(s: Utf16, length: nat): Utf16 { if |s| <= length then s else s[..length] }

  /** `normalizeDiagnosticEntry`, for the marker its messages are cut with. */
  function Normalize(entry: DiagnosticsEntry, marker: Utf16): DiagnosticsEntry {
    DiagnosticsEntry(
      Sliced(entry.id, MAX_DIAGNOSTIC_ID_CHARACTERS),
      Sliced(entry.at, MAX_DIAGNOSTIC_TIMESTAMP_CHARACTERS),
      Truncated(entry.message, MAX_DIAGNOSTIC_MESSAGE_BYTES, marker),
      if entry.source == Some(OtherSource) then None else entry.source)
  }

  function NormalizeAll(entries: seq<DiagnosticsEntry>, marker: Utf16): seq<DiagnosticsEntry> {
    seq(|entries|, i requires 0 <= i < |entries| => Normalize(entries[i], marker))
  }

  lemma {:induction false} AtMostThreePerUnit(s: Utf16)
    ensures ByteLength(s) <= 3 * |s|
    decreases |s|
  {
    if s != [] { AtMostThreePerUnit(s[CharacterSize(s).width..]); }
  }

  /** Normalising twice changes nothing more, and no normalised entry is too large for the default history. */
  lemma NormalizedIsFixed(entry: DiagnosticsEntry, marker: Utf16)
    ensures Normalize(Normalize(entry, marker), marker) == Normalize(entry, marker)
    ensures EntryBytes(Normalize(entry, marker)) <= MAX_DIAGNOSTICS_HISTORY_BYTES
  {
    var normal := Normalize(entry, marker);
    TruncatedFits(entry.message, MAX_DIAGNOSTIC_MESSAGE_BYTES, marker);
    TruncatedFits(normal.message, MAX_DIAGNOSTIC_MESSAGE_BYTES, marker);
    AtMostThreePerUnit(normal.id);
    AtMostThreePerUnit(normal.at);
  }

  /** What normalising an entry leaves: each field as it is if it is within its limit, and else its longest beginning that
      is, a message with the marker after it; the source only if the application knows it. */
  lemma NormalizedKeeps(entry: DiagnosticsEntry, marker: Utf16)
    ensures var normal := Normalize(entry, marker);
      && normal.id <= entry.id && |normal.id| == Min(|entry.id|, 128)
      && normal.at <= entry.at && |normal.at| == Min(|entry.at|, 64)
      && (normal.message == entry.message <==> ByteLength(entry.message) <= 65536)
      && ByteLength(normal.message) <= 65536
      && normal.source == (if entry.source == Some(OtherSource) then None else entry.source)
  {
    TruncatedFits(entry.message, MAX_DIAGNOSTIC_MESSAGE_BYTES, marker);
  }

  /** The diagnostics after a batch: the longest suffix under both caps of what there was and what is small enough. */
  function AppendedEntries(history: seq<DiagnosticsEntry>, batch: seq<DiagnosticsEntry>, marker: Utf16, maxCount: int, maxBytes: int)
    : seq<DiagnosticsEntry>
  {
    if maxCount <= 0 || maxBytes <= 0 then []
    else Kept(history + Accepted(NormalizeAll(batch, marker), EntryBytes, maxBytes), EntryBytes, maxCount, maxBytes)
  }

  function TextOf(entries: seq<DiagnosticsEntry>): seq<Byte> {
    if entries == [] then []
    else Encode(entries[0].id) + Encode(entries[0].at) + Encode(entries[0].message) + TextOf(entries[1..])
  }

  /** A batch of diagnostics leaves the newest of what there was and what is small enough of it; an empty batch trims too. */
  lemma EntriesAreNewest(history: seq<DiagnosticsEntry>, batch: seq<DiagnosticsEntry>, marker: Utf16, maxCount: int, maxBytes: int)
    ensures var after := AppendedEntries(history, batch, marker, maxCount, maxBytes);
      if maxCount <= 0 || maxBytes <= 0 then after == []
      else Newest(after, history + Accepted(NormalizeAll(batch, marker), EntryBytes, maxBytes), EntryBytes, maxCount, maxBytes)
  {
    if maxCount > 0 && maxBytes > 0 {
      KeptIsLongestSuffix(history + Accepted(NormalizeAll(batch, marker), EntryBytes, maxBytes), EntryBytes, maxCount, maxBytes);
    }
  }

  /** The total of diagnostics is that of their text in UTF-8, and sixteen bytes more for each entry. */
  lemma {:induction false} TotalIsText(entries: seq<DiagnosticsEntry>)
    ensures Total(entries, EntryBytes) == |TextOf(entries)| + 16 * |entries|
    decreases |entries|
  {
    if entries != [] {
      LengthIsEncoded(entries[0].id);
      LengthIsEncoded(entries[0].at);
      LengthIsEncoded(entries[0].message);
      TotalIsText(entries[1..]);
    }
  }

  /** Two batches of diagnostics, either of them empty, leave what one batch of both leaves. */
  lemma EntriesInBatches(history: seq<DiagnosticsEntry>, a: seq<DiagnosticsEntry>, b: seq<DiagnosticsEntry>, marker: Utf16,
                         maxCount: int, maxBytes: int)
    ensures AppendedEntries(AppendedEntries(history, a, marker, maxCount, maxBytes), b, marker, maxCount, maxBytes)
         == AppendedEntries(history, a + b, marker, maxCount, maxBytes)
  {
    NormalizeBoth(a, b, marker);
    if maxCount > 0 && maxBytes > 0 {
      KeptInBatches(history, NormalizeAll(a, marker), NormalizeAll(b, marker), EntryBytes, maxCount, maxBytes);
    }
  }

  lemma NormalizeBoth(a: seq<DiagnosticsEntry>, b: seq<DiagnosticsEntry>, marker: Utf16)
    ensures NormalizeAll(a + b, marker) == NormalizeAll(a, marker) + NormalizeAll(b, marker)
  {
    var x, y := NormalizeAll(a, marker), NormalizeAll(b, marker);
    forall i | 0 <= i < |a + b| ensures NormalizeAll(a + b, marker)[i] == (x + y)[i] {
      assert (a + b)[i] == if i < |a| then a[i] else b[i - |a|];
    }
  }

  method NormalizeDiagnosticEntry(entry: DiagnosticsEntry, marker: Utf16) returns (normal: DiagnosticsEntry)
    ensures normal == Normalize(entry, marker)
  {
    var message := TruncateUtf8(entry.message, MAX_DIAGNOSTIC_MESSAGE_BYTES, marker);
    normal := DiagnosticsEntry(
      Sliced(entry.id, MAX_DIAGNOSTIC_ID_CHARACTERS), Sliced(entry.at, MAX_DIAGNOSTIC_TIMESTAMP_CHARACTERS), message,
      if entry.source == Some(OtherSource) then None else entry.source);
  }

  method AppendBoundedDiagnosticEntries(log: BoundedLog<DiagnosticsEntry>, entries: Lines<DiagnosticsEntry>,
                                        appended: seq<DiagnosticsEntry>, marker: Utf16, maxCount: int, maxBytes: int)
    returns (bounded: Lines<DiagnosticsEntry>)
    requires log.Valid() && log.size == EntryBytes
    modifies log
    ensures log.Valid() && fresh(bounded) && bounded in log.byteLengthCache
    ensures bounded.items == AppendedEntries(entries.items, appended, marker, maxCount, maxBytes)
  {
    var normalized: seq<DiagnosticsEntry> := [];
    for i := 0 to |appended|
      invariant normalized == NormalizeAll(appended[..i], marker)
      invariant log.Valid()
    {
      var normal := NormalizeDiagnosticEntry(appended[i], marker);
      normalized := normalized + [normal];
    }
    assert appended[..|appended|] == appended;
    bounded := log.AppendEntries(entries, normalized, maxCount, maxBytes);
  }

  method AppendBoundedTerminalLines(log: BoundedLog<TerminalLine>, lines: Lines<TerminalLine>,
                                    appended: seq<TerminalLine>, maxCount: int, maxBytes: int)
    returns (bounded: Lines<TerminalLine>)
    requires log.Valid() && log.size == LineBytes
    modifies log
    ensures log.Valid() && fresh(bounded)
    ensures bounded.items == Appended(lines.items, appended, LineBytes, maxCount, maxBytes)
    ensures appended != [] ==> bounded.items == OneByOne(lines.items, appended, LineBytes, maxCount, maxBytes)
  {
    bounded := log.AppendLines(lines, appended, maxCount, maxBytes);
    if appended != [] { BatchIsOneByOne(lines.items, appended, LineBytes, maxCount, maxBytes); }
  }
}
