/**
 * The two pieces of logic in src/components/features/ChartAnalyzer.tsx that
 * are not rendering or browser I/O: the guard clauses on an uploaded file,
 * and the update of the signal history list in saveToHistory.
 */
module ChartAnalyzer {
  import opened Wrappers
  import opened Types

  // ---------------------------------------------------------------------------
  // Upload validation (ChartAnalyzer.tsx:29-51)
  // ---------------------------------------------------------------------------

  /** The upload limit, 10 MiB. */
  const MaxUploadBytes: int := 10 * 1024 * 1024

  const ImagePrefix: string := "image/"

  /** The two properties of the selected File the guards read. */
  datatype FileInfo = FileInfo(mimeType: string, size: int)

  /** Where handleFileUpload stops: no file, a non-image, an oversized image, or on to analysis. */
  datatype UploadVerdict = NoFile | NotAnImage | TooLarge | Accepted

  /** `s.startsWith(prefix)`. */
  predicate StartsWith(s: string, prefix: string)
  {
    |prefix| <= |s| && s[..|prefix|] == prefix
  }

  /**
   * The guard clauses in order: a missing file returns silently, a MIME type
   * not starting with "image/" is rejected before the size is looked at, and
   * a size above 10 MiB is rejected.
   */
  function ValidateUpload(file: Option<FileInfo>): (v: UploadVerdict)
    ensures v == NoFile <==> file.None?
    ensures v == NotAnImage <==> file.Some? && !StartsWith(file.value.mimeType, ImagePrefix)
    ensures v == TooLarge <==> file.Some? && StartsWith(file.value.mimeType, ImagePrefix) && file.value.size > MaxUploadBytes
    ensures v == Accepted <==> file.Some? && StartsWith(file.value.mimeType, ImagePrefix) && file.value.size <= MaxUploadBytes
  {
    if file.None? then NoFile
    else if !StartsWith(file.value.mimeType, ImagePrefix) then NotAnImage
    else if file.value.size > MaxUploadBytes then TooLarge
    else Accepted
  }

  /** The limit is inclusive: an image of exactly 10 MiB goes through, one byte more does not. */
  lemma SizeLimitIsInclusive(mimeType: string)
    requires StartsWith(mimeType, ImagePrefix)
    ensures ValidateUpload(Some(FileInfo(mimeType, 10485760))) == Accepted
    ensures ValidateUpload(Some(FileInfo(mimeType, 10485761))) == TooLarge
  {
  }

  // ---------------------------------------------------------------------------
  // Signal history (ChartAnalyzer.tsx:105-116)
  // ---------------------------------------------------------------------------

  /** How many entries the history keeps. */
  const HistoryLimit: nat := 50

  /** The AnalysisResult handed to saveToHistory. */
  datatype AnalysisResult = AnalysisResult(signal: Signal, confidence: real, analysis: string, timestamp: int)

  /** One stored history entry. */
  datatype HistoryEntry = HistoryEntry(id: string, signal: Signal, confidence: real, timestamp: int)

  /** The entry saved for a result under the id `crypto.randomUUID()` returned. */
  function EntryFor(result: AnalysisResult, id: string): (e: HistoryEntry)
    ensures e.id == id && e.signal == result.signal && e.confidence == result.confidence && e.timestamp == result.timestamp
  {
    HistoryEntry(id, result.signal, result.confidence, result.timestamp)
  }

  /**
   * `unshift(entry)` then `slice(0, 50)`: the entry comes first, followed by
   * the previous entries in their order, of which only the first 49 remain
   * once the history is full.
   */
  function Prepended(history: seq<HistoryEntry>, entry: HistoryEntry): (r: seq<HistoryEntry>)
    ensures |r| == if |history| + 1 <= HistoryLimit then |history| + 1 else HistoryLimit
    ensures r[0] == entry
    ensures forall i :: 1 <= i < |r| ==> r[i] == history[i - 1]
  {
    var grown := [entry] + history;
    if |grown| <= HistoryLimit then grown else grown[..HistoryLimit]
  }

  /** Entries ordered newest first (non-increasing timestamps). */
  predicate NewestFirst(history: seq<HistoryEntry>)
  {
    forall i :: 1 <= i < |history| ==> history[i].timestamp <= history[i - 1].timestamp
  }

  /** Saving a result no older than the newest entry keeps the history newest first, and within its limit. */
  lemma PrependedKeepsOrder(history: seq<HistoryEntry>, entry: HistoryEntry)
    requires NewestFirst(history) && |history| <= HistoryLimit
    requires history != [] ==> history[0].timestamp <= entry.timestamp
    ensures NewestFirst(Prepended(history, entry))
    ensures |Prepended(history, entry)| <= HistoryLimit
  {
    var r := Prepended(history, entry);
    forall i | 1 <= i < |r| ensures r[i].timestamp <= r[i - 1].timestamp {
      if i > 1 {
        assert r[i] == history[i - 1] && r[i - 1] == history[i - 2];
      }
    }
  }

  /** The list saveToHistory reads from and writes back to storage. */
  class SignalHistory {
    var entries: seq<HistoryEntry>

    constructor()
      ensures entries == []
    {
      entries := [];
    }

    /** saveToHistory(result), with `id` the fresh UUID. */
    method SaveToHistory(result: AnalysisResult, id: string)
      modifies this
      ensures entries == Prepended(old(entries), EntryFor(result, id))
    {
      var history := entries;
      history := [HistoryEntry(id, result.signal, result.confidence, result.timestamp)] + history;
      var trimmed := if |history| <= HistoryLimit then history else history[..HistoryLimit];
      entries := trimmed;
    }
  }
}
