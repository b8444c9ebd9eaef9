/**
 * The capture store: an object store of captures under auto-increment keys,
 * the session id cached for the browser tab, the queries over the store, and
 * the pure part of the CSV export (cells, quoting, lines). The clock, the
 * random part of a session id, the locale formatting of dates and times, and
 * the string rendering of fractional numbers (JavaScript `toString`) are
 * parameters.
 */
module Storage {
  import opened Text
  import opened Wheel
  import opened Recorder

  /**
   * What the app hands to `saveCapture`. `timestamp` and `sessionId` are
   * the keys a caller may supply to override the defaults; `None` means absent.
   */
  datatype Draft = Draft(
    timestamp: Option<int>,
    sessionId: Option<string>,
    emotion: string,
    angle: real,
    intensity: real,
    intensityLevel: Level,
    transcript: string,
    videoBlob: Option<Blob>)

  /** A stored record; `id` is its key. */
  datatype Capture = Capture(
    id: nat,
    timestamp: int,
    sessionId: string,
    emotion: string,
    angle: real,
    intensity: real,
    intensityLevel: Level,
    transcript: string,
    videoBlob: Option<Blob>)

  /**
   * The record `saveCapture` builds: the clock and the session id are
   * defaults that the draft's own keys override, and the blob is the draft's
   * (`null` when it has none).
   */
  function Merge(draft: Draft, id: nat, now: int, sessionId: string): (c: Capture)
    ensures c.id == id
    ensures c.timestamp == (if draft.timestamp.Some? then draft.timestamp.value else now)
    ensures c.sessionId == (if draft.sessionId.Some? then draft.sessionId.value else sessionId)
    ensures c.emotion == draft.emotion && c.angle == draft.angle && c.intensity == draft.intensity
    ensures c.intensityLevel == draft.intensityLevel && c.transcript == draft.transcript
    ensures c.videoBlob == draft.videoBlob
  {
    var timestamp := match draft.timestamp case Some(t) => t case None => now;
    var session := match draft.sessionId case Some(s) => s case None => sessionId;
    Capture(id, timestamp, session, draft.emotion, draft.angle, draft.intensity,
            draft.intensityLevel, draft.transcript, draft.videoBlob)
  }

  /** A fresh session id: `session_<now>_<suffix>`. */
  function NewSessionId(now: int, randomSuffix: string): (id: string)
    ensures |id| > 8 && id[..8] == "session_"
  {
    "session_" + IntToString(now) + "_" + randomSuffix
  }

  /** The id `getSessionId` returns for what session storage holds: the stored one unless absent or empty. */
  function SessionIdFor(stored: Option<string>, now: int, randomSuffix: string): (id: string)
    ensures id != ""
    ensures stored.Some? && stored.value != "" ==> id == stored.value
  {
    if stored.Some? && stored.value != "" then stored.value else NewSessionId(now, randomSuffix)
  }

  /** Once an id is cached, every later call returns it, whatever the clock and the random part. */
  lemma SessionIdIsStable(stored: Option<string>, now1: int, r1: string, now2: int, r2: string)
    ensures SessionIdFor(Some(SessionIdFor(stored, now1, r1)), now2, r2) == SessionIdFor(stored, now1, r1)
  {
  }

  /** Keys of the store, in key order. */
  predicate IdsIncreasing(cs: seq<Capture>)
  {
    forall i, j :: 0 <= i < j < |cs| ==> cs[i].id < cs[j].id
  }

  /** `getCapturesByDateRange`: the records with `start <= timestamp <= end`, in store order. */
  function InRange(cs: seq<Capture>, start: int, end: int): (r: seq<Capture>)
    ensures |r| <= |cs|
    ensures forall c :: c in r <==> c in cs && start <= c.timestamp <= end
  {
    if cs == [] then []
    else (if start <= cs[0].timestamp <= end then [cs[0]] else []) + InRange(cs[1..], start, end)
  }

  /** Filtering keeps the store's key order. */
  lemma {:induction false} InRangeKeepsOrder(cs: seq<Capture>, start: int, end: int)
    requires IdsIncreasing(cs)
    ensures IdsIncreasing(InRange(cs, start, end))
  {
    if cs != [] {
      var rest := InRange(cs[1..], start, end);
      InRangeKeepsOrder(cs[1..], start, end);
      if start <= cs[0].timestamp <= end {
        forall c | c in rest
          ensures cs[0].id < c.id
        {
          var k :| 0 <= k < |cs[1..]| && cs[1..][k] == c;
          assert cs[k + 1] == c;
        }
        ConsIncreasing(cs[0], rest);
      } else {
        assert InRange(cs, start, end) == rest;
      }
    }
  }

  /** A record below every key of an increasing run can go in front of it. */
  lemma ConsIncreasing(x: Capture, rest: seq<Capture>)
    requires IdsIncreasing(rest) && forall c :: c in rest ==> x.id < c.id
    ensures IdsIncreasing([x] + rest)
  {
    var r := [x] + rest;
    forall i, j | 0 <= i < j < |r|
      ensures r[i].id < r[j].id
    {
      assert r[j] == rest[j - 1];
      if i > 0 {
        assert r[i] == rest[i - 1];
      } else {
        assert r[j] in rest;
      }
    }
  }

  /** An empty or inverted range selects nothing. */
  lemma InvertedRangeIsEmpty(cs: seq<Capture>, start: int, end: int)
    requires end < start
    ensures InRange(cs, start, end) == []
  {
    if InRange(cs, start, end) != [] {
      assert InRange(cs, start, end)[0] in InRange(cs, start, end);
    }
  }

  /** `objectStore.get(id)`: the record stored under `id`, if any. */
  function Lookup(cs: seq<Capture>, id: nat): (r: Option<Capture>)
    ensures r.Some? ==> r.value in cs && r.value.id == id
    ensures r.None? ==> forall c :: c in cs ==> c.id != id
  {
    if cs == [] then None
    else if cs[0].id == id then Some(cs[0])
    else Lookup(cs[1..], id)
  }

  /** A record appended under a key not yet in the store is found under that key. */
  lemma {:induction false} LookupAppended(cs: seq<Capture>, c: Capture)
    requires forall d :: d in cs ==> d.id != c.id
    ensures Lookup(cs + [c], c.id) == Some(c)
  {
    if cs == [] {
      assert cs + [c] == [c];
    } else {
      assert (cs + [c])[1..] == cs[1..] + [c];
      assert cs[0] in cs;
      LookupAppended(cs[1..], c);
    }
  }

  /** Appending leaves the lookups of the other keys as they were. */
  lemma {:induction false} LookupOthers(cs: seq<Capture>, c: Capture, id: nat)
    requires id != c.id
    ensures Lookup(cs + [c], id) == Lookup(cs, id)
  {
    if cs == [] {
      assert cs + [c] == [c];
      assert [c][1..] == [];
    } else {
      assert (cs + [c])[1..] == cs[1..] + [c];
      LookupOthers(cs[1..], c, id);
    }
  }

  /** The `videoBlob` of the record under `id`, or `null`. */
  function BlobOf(cs: seq<Capture>, id: nat): Option<Blob>
  {
    match Lookup(cs, id)
    case Some(c) => c.videoBlob
    case None => None
  }

  /** What `exportData` resolves to. */
  datatype Export = Export(exportDate: string, totalCaptures: nat, captures: seq<Capture>)

  class StorageManager {
    /** The object store's records, in key order (the order `getAll` returns). */
    var captures: seq<Capture>
    /** The key generator: the key the next `add` receives. Clearing the store does not reset it. */
    var nextKey: nat
    /** `sessionStorage['emotionRecorderSessionId']`. */
    var sessionStorageId: Option<string>

    ghost predicate Valid()
      reads this
    {
      && nextKey >= 1
      && IdsIncreasing(captures)
      && forall c :: c in captures ==> 1 <= c.id < nextKey
    }

    constructor ()
      ensures Valid() && captures == [] && nextKey == 1 && sessionStorageId == None
    {
      captures := [];
      nextKey := 1;
      sessionStorageId := None;
    }

    /**
     * `init`: opening the database exposes the records earlier sessions
     * persisted, and the key generator where they left it (creating the
     * object store on first use is the case with no records and key 1).
     * A key generator has handed out every stored key, in increasing order.
     */
    method Open(persisted: seq<Capture>, persistedNextKey: nat)
      requires persistedNextKey >= 1 && IdsIncreasing(persisted)
      requires forall c :: c in persisted ==> 1 <= c.id < persistedNextKey
      modifies this`captures, this`nextKey
      ensures Valid() && captures == persisted && nextKey == persistedNextKey
    {
      captures := persisted;
      nextKey := persistedNextKey;
    }

    /** `getSessionId`: the cached id, or a new one that is cached from then on. */
    method GetSessionId(now: int, randomSuffix: string) returns (id: string)
      modifies this`sessionStorageId
      ensures id == SessionIdFor(old(sessionStorageId), now, randomSuffix)
      ensures sessionStorageId == if old(sessionStorageId).Some? && old(sessionStorageId).value != ""
                                  then old(sessionStorageId) else Some(id)
    {
      if sessionStorageId.Some? && sessionStorageId.value != "" {
        id := sessionStorageId.value;
      } else {
        id := NewSessionId(now, randomSuffix);
        sessionStorageId := Some(id);
      }
    }

    /**
     * `saveCapture`: asks for the session id (caching one if needed), merges
     * the record and adds it under the next key, which no stored record has.
     */
    method SaveCapture(draft: Draft, now: int, randomSuffix: string) returns (id: nat)
      requires Valid()
      modifies this
      ensures Valid()
      ensures id == old(nextKey) && nextKey == id + 1
      ensures forall c :: c in old(captures) ==> c.id != id
      ensures captures == old(captures) + [Merge(draft, id, now, SessionIdFor(old(sessionStorageId), now, randomSuffix))]
      ensures sessionStorageId == Some(SessionIdFor(old(sessionStorageId), now, randomSuffix))
    {
      var sessionId := GetSessionId(now, randomSuffix);
      var record := Merge(draft, nextKey, now, sessionId);
      id := nextKey;
      captures := captures + [record];
      nextKey := nextKey + 1;
    }

    /** `getAllCaptures`: every record, in key order. */
    method GetAllCaptures() returns (all: seq<Capture>)
      requires Valid()
      ensures all == captures && IdsIncreasing(all)
    {
      all := captures;
    }

    /** `getCapturesByDateRange`, inclusive at both ends. */
    method GetCapturesByDateRange(start: int, end: int) returns (r: seq<Capture>)
      requires Valid()
      ensures r == InRange(captures, start, end)
      ensures IdsIncreasing(r)
      ensures forall c :: c in r <==> c in captures && start <= c.timestamp <= end
    {
      var all := GetAllCaptures();
      r := InRange(all, start, end);
      InRangeKeepsOrder(all, start, end);
    }

    /** `deleteAllCaptures`: the store is empty; the key generator is kept. */
    method DeleteAllCaptures()
      requires Valid()
      modifies this`captures
      ensures Valid() && captures == []
    {
      captures := [];
    }

    /** `exportData`, with `exportDate` the ISO string of the moment of export. */
    method ExportData(exportDate: string) returns (data: Export)
      requires Valid()
      ensures data.exportDate == exportDate && data.captures == captures
      ensures data.totalCaptures == |data.captures|
    {
      var all := GetAllCaptures();
      data := Export(exportDate, |all|, all);
    }

    /** `getVideoBlob`: the blob stored under `id`, or `null` when there is no such record. */
    method GetVideoBlob(id: nat) returns (blob: Option<Blob>)
      ensures blob == BlobOf(captures, id)
      ensures (forall c :: c in captures ==> c.id != id) ==> blob == None
    {
      var record := Lookup(captures, id);
      blob := if record.Some? then record.value.videoBlob else None;
    }
  }

  /** The blob of a draft is what `getVideoBlob` returns for the key it was saved under. */
  lemma SavedBlobIsFound(cs: seq<Capture>, draft: Draft, id: nat, now: int, sessionId: string)
    requires forall c :: c in cs ==> c.id != id
    ensures BlobOf(cs + [Merge(draft, id, now, sessionId)], id) == draft.videoBlob
  {
    LookupAppended(cs, Merge(draft, id, now, sessionId));
  }

  // ---------------------------------------------------------------------------
  // CSV export: cells, quoting and lines
  // ---------------------------------------------------------------------------

  /** The column names, in order. */
  const CsvHeaders: seq<string> := ["Timestamp", "Date", "Time", "Emotion", "Angle", "Intensity", "Transcript", "Has Video"]

  /**
   * The renderings the export leaves to JavaScript: the locale date and time
   * of a timestamp, and a fractional number's string rendering (`toString`,
   * which does not depend on the locale).
   */
  datatype CsvFormat = CsvFormat(date: int -> string, time: int -> string, number: real -> string)

  /** `x || ''` for a number, rendered: zero gives the empty cell. */
  function NumberCell(x: real, format: CsvFormat): string
  {
    if x == 0.0 then "" else format.number(x)
  }

  /** A transcript with every `"` doubled. */
  function EscapeQuotes(t: string): string
  {
    ReplaceAll(t, '"', "\"\"")
  }

  /** Reads an escaped transcript back: each doubled `"` becomes one. */
  function UnescapeQuotes(s: string): string
  {
    if |s| >= 2 && s[0] == '"' && s[1] == '"' then "\"" + UnescapeQuotes(s[2..])
    else if s == [] then ""
    else [s[0]] + UnescapeQuotes(s[1..])
  }

  /** Escaping loses nothing: reading the cell back gives the transcript. */
  lemma {:induction false} EscapeRoundTrip(t: string)
    ensures UnescapeQuotes(EscapeQuotes(t)) == t
  {
    if t != [] {
      EscapeRoundTrip(t[1..]);
      var rest := EscapeQuotes(t[1..]);
      if t[0] == '"' {
        var s := "\"\"" + rest;
        assert EscapeQuotes(t) == s;
        assert s[2..] == rest;
      } else {
        var s := [t[0]] + rest;
        assert EscapeQuotes(t) == s;
        assert s[1..] == rest;
        assert [t[0]] + t[1..] == t;
      }
    }
  }

  /**
   * Escaping doubles every `"` of the transcript and keeps every other
   * character as often as it occurs.
   */
  lemma {:induction false} EscapeDoublesQuotes(t: string, x: char)
    ensures CountChar(EscapeQuotes(t), x) == (if x == '"' then 2 else 1) * CountChar(t, x)
  {
    if t != [] {
      EscapeDoublesQuotes(t[1..], x);
      var head := if t[0] == '"' then "\"\"" else [t[0]];
      assert EscapeQuotes(t) == head + EscapeQuotes(t[1..]);
      CountCharAppend(head, EscapeQuotes(t[1..]), x);
      assert CountChar(head, x) == (if t[0] != x then 0 else if x == '"' then 2 else 1) by {
        if t[0] == '"' {
          assert head[1..][1..] == [];
        } else {
          assert head[1..] == [];
        }
      }
    }
  }

  /** The eight cells of a record's data row, before quoting. */
  function CsvRow(c: Capture, format: CsvFormat): (row: seq<string>)
    ensures |row| == |CsvHeaders|
    ensures row[0] == IntToString(c.timestamp)
    ensures row[1] == format.date(c.timestamp) && row[2] == format.time(c.timestamp)
    ensures row[3] == c.emotion
    ensures c.angle == 0.0 ==> row[4] == ""
    ensures c.angle != 0.0 ==> row[4] == format.number(c.angle)
    ensures c.intensity == 0.0 ==> row[5] == ""
    ensures c.intensity != 0.0 ==> row[5] == format.number(c.intensity)
    ensures row[6] == EscapeQuotes(c.transcript) && UnescapeQuotes(row[6]) == c.transcript
    ensures row[7] == (if c.videoBlob.Some? then "Yes" else "No")
  {
    EscapeRoundTrip(c.transcript);
    [IntToString(c.timestamp),
     format.date(c.timestamp),
     format.time(c.timestamp),
     c.emotion,
     NumberCell(c.angle, format),
     NumberCell(c.intensity, format),
     EscapeQuotes(c.transcript),
     if c.videoBlob.Some? then "Yes" else "No"]
  }

  /** A cell wrapped in double quotes. */
  function Quote(cell: string): (q: string)
    ensures |q| == |cell| + 2 && q[0] == '"' && q[|q| - 1] == '"' && q[1..|q| - 1] == cell
  {
    "\"" + cell + "\""
  }

  /** A data line: the quoted cells joined by commas. */
  function CsvLine(row: seq<string>): string
  {
    Join(seq(|row|, i requires 0 <= i < |row| => Quote(row[i])), ",")
  }

  /** One line per record, in store order. */
  function DataLines(cs: seq<Capture>, format: CsvFormat): (lines: seq<string>)
    ensures |lines| == |cs|
    ensures forall i :: 0 <= i < |cs| ==> lines[i] == CsvLine(CsvRow(cs[i], format))
  {
    seq(|cs|, i requires 0 <= i < |cs| => CsvLine(CsvRow(cs[i], format)))
  }

  /** The header line (names unquoted) followed by one line per record. */
  function CsvLines(cs: seq<Capture>, format: CsvFormat): (lines: seq<string>)
    ensures |lines| == 1 + |cs|
    ensures lines[0] == Join(CsvHeaders, ",") && lines[1..] == DataLines(cs, format)
  {
    [Join(CsvHeaders, ",")] + DataLines(cs, format)
  }

  /** The file's content: the lines joined by line breaks. */
  function CsvContent(cs: seq<Capture>, format: CsvFormat): string
  {
    Join(CsvLines(cs, format), "\n")
  }

  lemma {:induction false} CountCharAbsent(s: string, c: char)
    requires c !in s
    ensures CountChar(s, c) == 0
  {
    if s != [] {
      assert s[0] != c;
      assert forall x :: x in s[1..] ==> x in s;
      CountCharAbsent(s[1..], c);
    }
  }

  lemma {:induction false} JoinAvoids(parts: seq<string>, sep: string, c: char)
    requires c !in sep && forall i :: 0 <= i < |parts| ==> c !in parts[i]
    ensures c !in Join(parts, sep)
  {
    if |parts| > 1 {
      JoinAvoids(parts[1..], sep, c);
    }
  }

  lemma {:induction false} CountCharAllAbsent(parts: seq<string>, c: char)
    requires forall i :: 0 <= i < |parts| ==> c !in parts[i]
    ensures CountCharAll(parts, c) == 0
  {
    if parts != [] {
      CountCharAbsent(parts[0], c);
      CountCharAllAbsent(parts[1..], c);
    }
  }

  /** No column name holds `c`. */
  lemma HeaderAvoids(c: char)
    requires c == '"' || c == '\n' || c == ','
    ensures forall i :: 0 <= i < |CsvHeaders| ==> c !in CsvHeaders[i]
  {
    forall i | 0 <= i < |CsvHeaders|
      ensures c !in CsvHeaders[i]
    {
      var h := CsvHeaders[i];
      assert forall k :: 0 <= k < |h| ==> h[k] != c;
    }
  }

  /** The header line: eight names, seven commas, no quote and no line break. */
  lemma HeaderLine()
    ensures '"' !in Join(CsvHeaders, ",") && '\n' !in Join(CsvHeaders, ",")
    ensures CountChar(Join(CsvHeaders, ","), ',') == |CsvHeaders| - 1 == 7
  {
    HeaderAvoids('"');
    JoinAvoids(CsvHeaders, ",", '"');
    HeaderAvoids('\n');
    JoinAvoids(CsvHeaders, ",", '\n');
    HeaderAvoids(',');
    CountCharAllAbsent(CsvHeaders, ',');
    CountCharJoin(CsvHeaders, ',');
  }

  /** No cell of any record's row holds a line break. */
  predicate CellsOnOneLine(cs: seq<Capture>, format: CsvFormat)
  {
    forall i, k :: 0 <= i < |cs| && 0 <= k < |CsvHeaders| ==> '\n' !in CsvRow(cs[i], format)[k]
  }

  /** When no cell spans lines, the content has exactly one line break per record: 1 + n lines. */
  lemma CsvLineCount(cs: seq<Capture>, format: CsvFormat)
    requires CellsOnOneLine(cs, format)
    ensures CountChar(CsvContent(cs, format), '\n') == |cs|
  {
    var lines := CsvLines(cs, format);
    HeaderLine();
    forall i | 0 <= i < |lines|
      ensures '\n' !in lines[i]
    {
      if i > 0 {
        assert lines[i] == lines[1..][i - 1] == CsvLine(CsvRow(cs[i - 1], format));
        LineAvoids(CsvRow(cs[i - 1], format), '\n');
      }
    }
    CountCharAllAbsent(lines, '\n');
    CountCharJoin(lines, '\n');
  }

  /** A character that is neither a quote nor a comma and no cell holds is not in the line. */
  lemma LineAvoids(row: seq<string>, c: char)
    requires c != '"' && c != ','
    requires forall k :: 0 <= k < |row| ==> c !in row[k]
    ensures c !in CsvLine(row)
  {
    var quoted := seq(|row|, k requires 0 <= k < |row| => Quote(row[k]));
    forall k | 0 <= k < |quoted|
      ensures c !in quoted[k]
    {
      assert quoted[k] == "\"" + row[k] + "\"";
    }
    JoinAvoids(quoted, ",", c);
  }
}
