/**
 * The synchronisation logic of background.js without the network: parsing the
 * configured Airtable URL, deciding whether the table list must be fetched,
 * normalising the fetched records, the built-in fallback list, the sync status
 * store and the guard order of syncData.
 *
 * HTTP replies are inputs: each endpoint's reply is a function of the URL the
 * code builds, so the model states which URLs are requested and in what order.
 * The wall-clock time stamped by a status update is the parameter `now`.
 */
module Background {
  import opened Wrappers
  import opened Strings
  import opened Watchlist

  // ---------------------------------------------------------------------------
  // extractAirtableIds
  // ---------------------------------------------------------------------------

  /** The character class `[a-zA-Z0-9]`. */
  predicate IsAlnum(c: char)
  {
    'a' <= c <= 'z' || 'A' <= c <= 'Z' || '0' <= c <= '9'
  }

  predicate AllAlnum(s: string)
  {
    forall k :: 0 <= k < |s| ==> IsAlnum(s[k])
  }

  /** The literal part `airtable\.com\/` of the pattern. */
  const Host: string := "airtable.com/"

  /** Length of the longest alphanumeric prefix: what a greedy `[a-zA-Z0-9]+` consumes. */
  function RunLength(s: string): (n: nat)
    ensures n <= |s|
    ensures forall k :: 0 <= k < n ==> IsAlnum(s[k])
    ensures n < |s| ==> !IsAlnum(s[n])
    decreases |s|
  {
    if |s| > 0 && IsAlnum(s[0]) then 1 + RunLength(s[1..]) else 0
  }

  /** The two capture groups of a match. */
  datatype Captures = Captures(baseRun: string, tableRun: string)

  /**
   * `t` starts with a match of /airtable\.com\/([a-zA-Z0-9]+)\/([a-zA-Z0-9]+)/
   * whose groups are `c`; the second group is greedy, so it is followed by the
   * end of `t` or by a character outside the class.
   */
  ghost predicate MatchesWith(t: string, c: Captures)
  {
    var a, b := |c.baseRun|, |c.tableRun|;
    0 < a && 0 < b && 14 + a + b <= |t|
    && t[..13] == Host && t[13..13 + a] == c.baseRun && t[13 + a] == '/'
    && t[14 + a..14 + a + b] == c.tableRun
    && AllAlnum(c.baseRun) && AllAlnum(c.tableRun)
    && (14 + a + b == |t| || !IsAlnum(t[14 + a + b]))
  }


  /** A run of `n` class characters that ends the text or is followed by another character is the greedy run. */
  lemma RunLengthAt(s: string, n: nat)
    requires n <= |s| && (forall k :: 0 <= k < n ==> IsAlnum(s[k])) && (n == |s| || !IsAlnum(s[n]))
    ensures RunLength(s) == n
  {
  }

  /** In a match the first group is the greedy run after the host (it is followed by `/`), and so is the second. */
  lemma MatchGroups(t: string, c: Captures)
    requires MatchesWith(t, c)
    ensures |c.baseRun| == RunLength(t[13..])
    ensures |c.tableRun| == RunLength(t[14 + |c.baseRun|..])
  {
    var a, b := |c.baseRun|, |c.tableRun|;
    var u, v := t[13..], t[14 + a..];
    forall k | 0 <= k < a ensures IsAlnum(u[k]) {
      assert u[k] == c.baseRun[k];
    }
    assert u[a] == '/';
    RunLengthAt(u, a);
    forall k | 0 <= k < b ensures IsAlnum(v[k]) {
      assert v[k] == c.tableRun[k];
    }
    assert b < |v| ==> v[b] == t[14 + a + b];
    RunLengthAt(v, b);
  }

  /** The groups of a match at a given position are determined by the text. */
  lemma CapturesUnique(t: string, c: Captures, d: Captures)
    requires MatchesWith(t, c) && MatchesWith(t, d)
    ensures c == d
  {
    MatchGroups(t, c);
    MatchGroups(t, d);
  }

  /** The match attempt at the start of `t`, with greedy runs. */
  function MatchHere(t: string): (r: Option<Captures>)
    ensures r.Some? ==> MatchesWith(t, r.value)
  {
    if |t| < 13 || t[..13] != Host then
      None
    else
      var u := t[13..];
      var a := RunLength(u);
      if a == 0 || a >= |u| || u[a] != '/' then
        None
      else
        var v := u[a + 1..];
        var b := RunLength(v);
        if b == 0 then
          None
        else
          assert v == t[14 + a..];
          assert t[13..13 + a] == u[..a];
          assert t[14 + a..14 + a + b] == v[..b];
          assert 14 + a + b < |t| ==> t[14 + a + b] == v[b];
          Some(Captures(u[..a], v[..b]))
  }

  /** Every match at the start of `t` is the one MatchHere finds. */
  lemma MatchHereComplete(t: string, c: Captures)
    requires MatchesWith(t, c)
    ensures MatchHere(t) == Some(c)
  {
    MatchGroups(t, c);
    var a := |c.baseRun|;
    assert t[13..][a + 1..] == t[14 + a..];
    assert t[13..][..a] == c.baseRun;
    assert t[14 + a..][..|c.tableRun|] == c.tableRun;
  }

  /** No match starts at any position from `i` up to, but excluding, `k`. */
  ghost predicate NoMatchBetween(s: string, i: nat, k: nat)
  {
    forall j, d :: i <= j < k && j <= |s| ==> !MatchesWith(s[j..], d)
  }

  /** The leftmost match at or after position `i`. */
  function FirstMatchFrom(s: string, i: nat): Option<Captures>
    requires i <= |s|
    decreases |s| - i
  {
    match MatchHere(s[i..])
    case Some(c) => Some(c)
    case None => if i == |s| then None else FirstMatchFrom(s, i + 1)
  }

  lemma {:induction false} FirstMatchFromCorrect(s: string, i: nat)
    requires i <= |s|
    ensures FirstMatchFrom(s, i).Some? ==>
              exists k :: i <= k <= |s| && MatchesWith(s[k..], FirstMatchFrom(s, i).value) && NoMatchBetween(s, i, k)
    ensures FirstMatchFrom(s, i).None? ==> NoMatchBetween(s, i, |s| + 1)
    decreases |s| - i
  {
    if MatchHere(s[i..]).Some? {
      assert MatchesWith(s[i..], FirstMatchFrom(s, i).value) && NoMatchBetween(s, i, i);
    } else {
      forall d | MatchesWith(s[i..], d) ensures MatchHere(s[i..]) == Some(d) {
        MatchHereComplete(s[i..], d);
      }
      if i < |s| {
        FirstMatchFromCorrect(s, i + 1);
        if FirstMatchFrom(s, i + 1).Some? {
          var k :| i + 1 <= k <= |s| && MatchesWith(s[k..], FirstMatchFrom(s, i + 1).value) && NoMatchBetween(s, i + 1, k);
          assert NoMatchBetween(s, i, k);
        }
      }
    }
  }

  /** `String.prototype.match` reports the leftmost match: `c` is found at `i` and at no earlier position. */
  ghost predicate FirstMatchIs(s: string, c: Captures)
  {
    exists i :: 0 <= i <= |s| && MatchesWith(s[i..], c) && NoMatchBetween(s, 0, i)
  }

  /** The two identifiers the background script needs; `tableId` is `null` for a bare base ID. */
  datatype AirtableIds = AirtableIds(baseId: string, tableId: Option<string>)

  /** extractAirtableIds. */
  function ExtractAirtableIds(url: string): (r: Option<AirtableIds>)
    ensures r.Some? ==> StartsWith(r.value.baseId, "app")
    ensures r.Some? && r.value.tableId.None? ==> r.value.baseId == url
    ensures StartsWith(url, "app") ==> r.Some?
  {
    var m := FirstMatchFrom(url, 0);
    if m.Some? && StartsWith(m.value.baseRun, "app") then
      Some(AirtableIds(m.value.baseRun, Some(m.value.tableRun)))
    else if StartsWith(url, "app") then
      Some(AirtableIds(url, None))
    else
      None
  }

  lemma FirstMatchUnique(s: string, c: Captures, d: Captures)
    requires FirstMatchIs(s, c) && FirstMatchIs(s, d)
    ensures c == d
  {
    var i :| 0 <= i <= |s| && MatchesWith(s[i..], c) && NoMatchBetween(s, 0, i);
    var k :| 0 <= k <= |s| && MatchesWith(s[k..], d) && NoMatchBetween(s, 0, k);
    assert i == k;
    CapturesUnique(s[i..], c, d);
  }

  /** The match the model finds is the one `String.prototype.match` reports, and there is none when it finds none. */
  lemma FirstMatchFromStart(url: string)
    ensures FirstMatchFrom(url, 0).Some? ==> FirstMatchIs(url, FirstMatchFrom(url, 0).value)
    ensures FirstMatchFrom(url, 0).None? ==> forall c :: !FirstMatchIs(url, c)
  {
    FirstMatchFromCorrect(url, 0);
  }

  /**
   * The three outcomes of extractAirtableIds: both groups of the leftmost match
   * when its first group starts with "app"; otherwise the whole input as a base
   * ID when the input starts with "app"; otherwise nothing.
   */
  lemma ExtractAirtableIdsMeaning(url: string)
    ensures forall c :: FirstMatchIs(url, c) && StartsWith(c.baseRun, "app") ==>
              ExtractAirtableIds(url) == Some(AirtableIds(c.baseRun, Some(c.tableRun)))
    ensures (forall c :: FirstMatchIs(url, c) ==> !StartsWith(c.baseRun, "app")) ==>
              ExtractAirtableIds(url) == if StartsWith(url, "app") then Some(AirtableIds(url, None)) else None
    ensures ExtractAirtableIds(url).Some? && ExtractAirtableIds(url).value.tableId.Some? ==>
              exists c :: FirstMatchIs(url, c) && StartsWith(c.baseRun, "app")
                          && ExtractAirtableIds(url).value == AirtableIds(c.baseRun, Some(c.tableRun))
  {
    FirstMatchFromStart(url);
    var m := FirstMatchFrom(url, 0);
    if m.Some? {
      forall c | FirstMatchIs(url, c) ensures c == m.value {
        FirstMatchUnique(url, c, m.value);
      }
    }
  }

  /** The identifiers extracted from a URL are never empty, and a table ID is purely alphanumeric. */
  lemma ExtractedIdsShape(url: string)
    ensures ExtractAirtableIds(url).Some? ==>
              var ids := ExtractAirtableIds(url).value;
              StartsWith(ids.baseId, "app")
              && (ids.tableId.Some? ==> |ids.tableId.value| > 0 && AllAlnum(ids.tableId.value))
  {
    FirstMatchFromStart(url);
    var m := FirstMatchFrom(url, 0);
    if m.Some? {
      var i :| 0 <= i <= |url| && MatchesWith(url[i..], m.value) && NoMatchBetween(url, 0, i);
    }
  }

  // ---------------------------------------------------------------------------
  // The table-lookup decision (line 139)
  // ---------------------------------------------------------------------------

  /** `!tableId || !(tableId.startsWith('tbl') || tableId === 'Grid view')`. */
  function NeedsTableLookup(tableId: Option<string>): (r: bool)
    ensures tableId.None? ==> r
    ensures tableId.Some? && (StartsWith(tableId.value, "tbl") || tableId.value == "Grid view") ==> !r
    ensures tableId.Some? && !StartsWith(tableId.value, "tbl") && tableId.value != "Grid view" ==> r
  {
    tableId.None? || !(StartsWith(tableId.value, "tbl") || tableId.value == "Grid view")
  }

  /**
   * For identifiers that come from extractAirtableIds the lookup is skipped
   * exactly for a table ID starting with "tbl": "Grid view" holds a space and
   * can never be a captured group.
   */
  lemma LookupForExtractedIds(url: string)
    ensures ExtractAirtableIds(url).Some? ==>
              var t := ExtractAirtableIds(url).value.tableId;
              (NeedsTableLookup(t) <==> t.None? || !StartsWith(t.value, "tbl"))
  {
    ExtractedIdsShape(url);
    assert !IsAlnum("Grid view"[4]);
  }

  /** The path of a table link, from the host on, is a match whose groups are the two IDs. */
  lemma MatchOfTableLink(baseId: string, tableId: string, rest: string)
    requires |baseId| > 0 && AllAlnum(baseId) && |tableId| > 0 && AllAlnum(tableId)
    requires rest == [] || !IsAlnum(rest[0])
    ensures MatchesWith(Host + baseId + "/" + tableId + rest, Captures(baseId, tableId))
  {
    var t := Host + baseId + "/" + tableId + rest;
    var a, b := |baseId|, |tableId|;
    assert t[..13] == Host;
    assert t[13..13 + a] == baseId;
    assert t[13 + a] == '/';
    assert t[14 + a..14 + a + b] == tableId;
    assert 14 + a + b < |t| ==> t[14 + a + b] == rest[0];
  }

  /** No match starts inside the scheme "https://": none of its characters is the `a` the pattern starts with. */
  lemma NoMatchInScheme(s: string)
    requires StartsWith(s, "https://")
    ensures NoMatchBetween(s, 0, 8)
  {
    forall j, d | 0 <= j < 8 && j <= |s| ensures !MatchesWith(s[j..], d) {
      assert s[j..][0] == s[..8][j] != Host[0];
    }
  }

  /**
   * Round trip with the URL form the settings page accepts: a table URL built
   * from a base ID and a table ID, optionally followed by a view path or query,
   * yields both IDs back.
   */
  lemma ExtractFromTableUrl(baseId: string, tableId: string, rest: string)
    requires StartsWith(baseId, "app") && AllAlnum(baseId)
    requires |tableId| > 0 && AllAlnum(tableId)
    requires rest == [] || !IsAlnum(rest[0])
    ensures ExtractAirtableIds("https://airtable.com/" + baseId + "/" + tableId + rest)
            == Some(AirtableIds(baseId, Some(tableId)))
  {
    var t := Host + baseId + "/" + tableId + rest;
    var s := "https://" + t;
    assert s == "https://airtable.com/" + baseId + "/" + tableId + rest;
    assert s[8..] == t;
    assert s[..8] == "https://";
    MatchOfTableLink(baseId, tableId, rest);
    NoMatchInScheme(s);
    assert FirstMatchIs(s, Captures(baseId, tableId));
    ExtractAirtableIdsMeaning(s);
  }

  /** Text made of letters and digits holds no match: the pattern needs the `.` of "airtable.com". */
  lemma NoMatchInAlnum(t: string, c: Captures)
    requires AllAlnum(t)
    ensures !MatchesWith(t, c)
  {
    assert |t| >= 13 && t[..13] == Host ==> t[8] == Host[8] && !IsAlnum(Host[8]);
  }

  /** A bare base ID (letters and digits only) is used as it is, with no table ID. */
  lemma ExtractBareBaseId(baseId: string)
    requires StartsWith(baseId, "app") && AllAlnum(baseId)
    ensures ExtractAirtableIds(baseId) == Some(AirtableIds(baseId, None))
  {
    forall i, c | 0 <= i <= |baseId| ensures !MatchesWith(baseId[i..], c) {
      NoMatchInAlnum(baseId[i..], c);
    }
    ExtractAirtableIdsMeaning(baseId);
  }

  // ---------------------------------------------------------------------------
  // Fetch replies and record normalisation
  // ---------------------------------------------------------------------------

  /** One entry of the meta endpoint's `tables` list. */
  datatype TableInfo = TableInfo(id: string, name: string)

  /** One element of `records`; `fields` is absent in a record without a `fields` object. */
  datatype RawRecord = RawRecord(fields: Option<map<string, string>>)

  /**
   * What one `fetch` yields: the promise rejects (network failure, or a body
   * that is not JSON) with a message, or a response arrives with a status, the
   * body as text, and what `json()` gives for an accepted status.
   */
  datatype Reply<T> = Rejected(reason: string) | Answered(status: nat, text: string, body: T)

  /** The meta endpoint's body: the `tables` array, absent when missing. */
  type TablesReply = Reply<Option<seq<TableInfo>>>

  /** The records endpoint's body: the `records` array, absent when missing or not an array. */
  type RecordsReply = Reply<Option<seq<RawRecord>>>

  /** A GET request and its `Authorization` header. */
  datatype Request = Get(url: string, authorization: string)

  /** `response.ok`. */
  predicate IsOk(status: nat)
  {
    200 <= status <= 299
  }

  function TablesUrl(baseId: string): string
  {
    "https://api.airtable.com/v0/meta/bases/" + baseId + "/tables"
  }

  function RecordsUrl(baseId: string, tableId: string): string
  {
    "https://api.airtable.com/v0/" + baseId + "/" + tableId
  }

  /** The message of the error thrown for a response that is not ok. */
  function HttpErrorMessage(status: nat, text: string): string
  {
    "Airtable API error: " + NatToString(status) + " - " + text
  }

  const NoTablesMessage: string := "No tables found in the Airtable base"

  /** V8's message for reading `address` of a record that has no `fields`. */
  const MissingFieldsMessage: string := "Cannot read properties of undefined (reading 'address')"

  /** Lines 144-161: the first table's ID, or the message of the error thrown. */
  function TableFromReply(reply: TablesReply): (r: Result<string>)
    ensures r.Ok? <==> reply.Answered? && IsOk(reply.status) && reply.body.Some? && |reply.body.value| > 0
    ensures r.Ok? ==> r.value == reply.body.value[0].id
    ensures reply.Rejected? ==> r == Err(reply.reason)
    ensures reply.Answered? && !IsOk(reply.status) ==> r == Err(HttpErrorMessage(reply.status, reply.text))
    ensures reply.Answered? && IsOk(reply.status) && (reply.body.None? || reply.body.value == []) ==>
              r == Err(NoTablesMessage)
  {
    match reply
    case Rejected(reason) => Err(reason)
    case Answered(status, text, tables) =>
      if !IsOk(status) then Err(HttpErrorMessage(status, text))
      else if tables.None? || |tables.value| == 0 then Err(NoTablesMessage)
      else Ok(tables.value[0].id)
  }

  /** `record.fields.<name> || ''`. */
  function FieldOrEmpty(fields: map<string, string>, name: string): string
  {
    if name in fields then fields[name] else ""
  }

  /** The object literal of lines 185-190. */
  function FormatFields(fields: map<string, string>): WatchEntry
  {
    WatchEntry(FieldOrEmpty(fields, "address"), FieldOrEmpty(fields, "short remark"),
               FieldOrEmpty(fields, "Note text"), FieldOrEmpty(fields, "Source"))
  }

  /** The `map` over `records`: it throws on the first record without `fields`. */
  function FormatRecords(records: seq<RawRecord>): (r: Option<seq<WatchEntry>>)
    ensures r.Some? <==> forall k :: 0 <= k < |records| ==> records[k].fields.Some?
    ensures r.Some? ==> |r.value| == |records|
                        && forall k :: 0 <= k < |records| ==> r.value[k] == FormatFields(records[k].fields.value)
    decreases |records|
  {
    if records == [] then Some([])
    else
      match records[0].fields
      case None => None
      case Some(fields) =>
        match FormatRecords(records[1..])
        case None => None
        case Some(rest) => Some([FormatFields(fields)] + rest)
  }

  /** The `filter(item => item.address)` after the map. */
  function KeepAddressed(entries: seq<WatchEntry>): (r: seq<WatchEntry>)
    ensures IsSubsequence(r, entries)
    ensures forall e :: e in r <==> e in entries && e.address != ""
    decreases |entries|
  {
    if entries == [] then []
    else
      var rest := KeepAddressed(entries[1..]);
      assert forall e :: e in entries <==> e == entries[0] || e in entries[1..];
      if entries[0].address != "" then [entries[0]] + rest else rest
  }

  /** Every copy of an entry with an address is kept; no copy of an entry without one is. */
  lemma {:induction false} KeepAddressedCopies(entries: seq<WatchEntry>, e: WatchEntry)
    ensures multiset(KeepAddressed(entries))[e] == if e.address != "" then multiset(entries)[e] else 0
    decreases |entries|
  {
    if entries != [] {
      assert entries == [entries[0]] + entries[1..];
      KeepAddressedCopies(entries[1..], e);
    }
  }

  /**
   * Lines 182-191: absent `records` give the empty list; otherwise the records
   * are mapped to entries and those with an empty address are dropped. `None`
   * stands for the TypeError a record without `fields` raises.
   */
  function NormaliseRecords(records: Option<seq<RawRecord>>): (r: Option<seq<WatchEntry>>)
    ensures records.None? ==> r == Some([])
    ensures records.Some? ==> (r.Some? <==> forall k :: 0 <= k < |records.value| ==> records.value[k].fields.Some?)
    ensures records.Some? && r.Some? ==>
              |r.value| <= |records.value|
              && IsSubsequence(r.value, FormatRecords(records.value).value)
              && forall e :: e in r.value <==>
                   e.address != "" && exists k :: 0 <= k < |records.value| && e == FormatFields(records.value[k].fields.value)
  {
    match records
    case None => Some([])
    case Some(rs) =>
      match FormatRecords(rs)
      case None => None
      case Some(entries) =>
        var kept := KeepAddressed(entries);
        SubsequenceNoLonger(kept, entries);
        assert forall e :: e in entries <==> exists k :: 0 <= k < |rs| && e == FormatFields(rs[k].fields.value) by {
          forall e | e in entries ensures exists k :: 0 <= k < |rs| && e == FormatFields(rs[k].fields.value) {
            var k :| 0 <= k < |entries| && entries[k] == e;
            assert e == FormatFields(rs[k].fields.value);
          }
        }
        Some(kept)
  }

  /** Normalisation keeps every copy of a mapped record with an address, and none without. */
  lemma NormaliseRecordsCopies(records: Option<seq<RawRecord>>, e: WatchEntry)
    requires records.Some? && NormaliseRecords(records).Some?
    ensures multiset(NormaliseRecords(records).value)[e]
            == if e.address != "" then multiset(FormatRecords(records.value).value)[e] else 0
  {
    KeepAddressedCopies(FormatRecords(records.value).value, e);
  }

  /** Lines 144-191 for the records request: the normalised list, or the message of the error thrown. */
  function RecordsFromReply(reply: RecordsReply): (r: Result<seq<WatchEntry>>)
    ensures r.Ok? <==> reply.Answered? && IsOk(reply.status) && NormaliseRecords(reply.body).Some?
    ensures r.Ok? ==> NormaliseRecords(reply.body) == Some(r.value)
    ensures reply.Rejected? ==> r == Err(reply.reason)
    ensures reply.Answered? && !IsOk(reply.status) ==> r == Err(HttpErrorMessage(reply.status, reply.text))
    ensures reply.Answered? && IsOk(reply.status) && NormaliseRecords(reply.body).None? ==> r == Err(MissingFieldsMessage)
    ensures reply.Answered? && IsOk(reply.status) && reply.body.None? ==> r == Ok([])
  {
    match reply
    case Rejected(reason) => Err(reason)
    case Answered(status, text, records) =>
      if !IsOk(status) then Err(HttpErrorMessage(status, text))
      else
        match NormaliseRecords(records)
        case None => Err(MissingFieldsMessage)
        case Some(entries) => Ok(entries)
  }

  /** The two built-in entries stored when nothing usable was fetched. */
  const Fallback: seq<WatchEntry> := [
    WatchEntry("example.com", "false information",
               "This site contains misleading information about various topics.",
               "https://factcheck.org/example"),
    WatchEntry("bbc.com", "false information",
               "This site contains misleading information.",
               "https://example.com/source")
  ]

  /** Lines 194-210: an empty list is replaced by the fallback; the result is never empty. */
  function WithFallback(data: seq<WatchEntry>): (r: seq<WatchEntry>)
    ensures |r| > 0
    ensures data != [] ==> r == data
    ensures data == [] ==> r == Fallback && |r| == 2
    ensures forall e :: e in r ==> e.address != "" || e in data
  {
    if |data| == 0 then Fallback else data
  }

  // ---------------------------------------------------------------------------
  // The sync status store
  // ---------------------------------------------------------------------------

  /** The values of `syncStatus.status`. */
  datatype Status = Unknown | Syncing | Success | Error

  /** A snapshot of `syncStatus`, as sent to the popup and written to local storage. */
  datatype StatusRecord = StatusRecord(lastSync: Option<string>, status: Status, message: string, dataCount: int)

  const InitialStatus: StatusRecord := StatusRecord(None, Unknown, "Not synced yet", 0)

  /** updateSyncStatus applied to a snapshot. */
  function Updated(st: StatusRecord, status: Status, message: string, dataCount: Option<int>, now: string): (r: StatusRecord)
    ensures r.status == status && r.message == message
    ensures (status == Success || status == Error) ==> r.lastSync == Some(now)
    ensures status == Unknown || status == Syncing ==> r.lastSync == st.lastSync
    ensures dataCount.Some? ==> r.dataCount == dataCount.value
    ensures dataCount.None? ==> r.dataCount == st.dataCount
  {
    StatusRecord(if status == Success || status == Error then Some(now) else st.lastSync,
                 status, message,
                 if dataCount.Some? then dataCount.value else st.dataCount)
  }

  /**
   * Repeating an update, possibly later: a non-terminal one changes nothing,
   * a terminal one only moves the stamp to the later time.
   */
  lemma UpdateRepeated(st: StatusRecord, status: Status, message: string, dataCount: Option<int>,
                       now: string, later: string)
    ensures var once := Updated(st, status, message, dataCount, now);
            Updated(once, status, message, dataCount, later)
            == if status == Success || status == Error then once.(lastSync := Some(later)) else once
  {
  }

  /** A "syncing" update overwrites status and message and leaves the stamp and the count untouched. */
  lemma SyncingKeepsStampAndCount(st: StatusRecord, message: string, now: string)
    ensures Updated(st, Syncing, message, None, now) == st.(status := Syncing, message := message)
  {
  }

  /** The global `syncStatus` object, whose fields updateSyncStatus overwrites in place. */
  class SyncStatus {
    var lastSync: Option<string>
    var status: Status
    var message: string
    var dataCount: int

    function Value(): StatusRecord
      reads this
    {
      StatusRecord(lastSync, status, message, dataCount)
    }

    constructor()
      ensures Value() == InitialStatus
    {
      lastSync, status, message, dataCount := None, Unknown, "Not synced yet", 0;
    }

    /** updateSyncStatus(status, message, dataCount = null). */
    method Update(status: Status, message: string, dataCount: Option<int>, now: string)
      modifies this
      ensures Value() == Updated(old(Value()), status, message, dataCount, now)
    {
      this.status := status;
      this.message := message;
      if status == Success || status == Error {
        lastSync := Some(now);
      }
      if dataCount.Some? {
        this.dataCount := dataCount.value;
      }
    }
  }

  // ---------------------------------------------------------------------------
  // syncData
  // ---------------------------------------------------------------------------

  /** The arguments of one updateSyncStatus call. */
  datatype StatusUpdate = StatusUpdate(status: Status, message: string, dataCount: Option<int>)

  /** The snapshot after a sequence of updateSyncStatus calls. */
  function Replay(st: StatusRecord, updates: seq<StatusUpdate>, now: string): StatusRecord
    decreases |updates|
  {
    if updates == [] then st
    else Replay(Updated(st, updates[0].status, updates[0].message, updates[0].dataCount, now), updates[1..], now)
  }

  lemma ReplayOne(st: StatusRecord, u: StatusUpdate, now: string)
    ensures Replay(st, [u], now) == Updated(st, u.status, u.message, u.dataCount, now)
  {
    assert [u][1..] == [];
  }

  lemma ReplayTwo(st: StatusRecord, u: StatusUpdate, v: StatusUpdate, now: string)
    ensures Replay(st, [u, v], now)
            == Updated(Updated(st, u.status, u.message, u.dataCount, now), v.status, v.message, v.dataCount, now)
  {
    assert [u, v][1..] == [v];
    ReplayOne(Updated(st, u.status, u.message, u.dataCount, now), v, now);
  }

  const NoKeyMessage: string := "Airtable API key not configured"
  const SyncingMessage: string := "Syncing data from Airtable..."
  const NoBaseIdMessage: string := "Could not determine Airtable Base ID"
  const SyncedMessage: string := "Data synced successfully"

  const SyncingUpdate: StatusUpdate := StatusUpdate(Syncing, SyncingMessage, None)

  /** The message the inner `catch` reports for an error thrown while talking to Airtable. */
  function ApiErrorMessage(thrown: string): string
  {
    "Airtable API error: " + thrown
  }

  /** What the Airtable part of syncData yields: the requests sent, and the list to store or the message thrown. */
  datatype Fetched = Fetched(requests: seq<Request>, outcome: Result<seq<WatchEntry>>)

  /** Lines 167-210: fetch one table's records, normalise them, fall back when nothing is left. */
  function FetchTable(auth: string, baseId: string, tableId: string, recordsAt: string -> RecordsReply): (f: Fetched)
    ensures f.requests == [Get(RecordsUrl(baseId, tableId), auth)]
    ensures f.outcome.Ok? <==> RecordsFromReply(recordsAt(RecordsUrl(baseId, tableId))).Ok?
    ensures f.outcome.Ok? ==>
              |f.outcome.value| > 0
              && f.outcome.value == WithFallback(RecordsFromReply(recordsAt(RecordsUrl(baseId, tableId))).value)
    ensures f.outcome.Err? ==> f.outcome == RecordsFromReply(recordsAt(RecordsUrl(baseId, tableId)))
  {
    var url := RecordsUrl(baseId, tableId);
    match RecordsFromReply(recordsAt(url))
    case Err(thrown) => Fetched([Get(url, auth)], Err(thrown))
    case Ok(formatted) => Fetched([Get(url, auth)], Ok(WithFallback(formatted)))
  }

  /** Lines 136-165: the table whose records are fetched, or the message of the error the lookup throws. */
  function TableToFetch(ids: AirtableIds, tablesAt: string -> TablesReply): (r: Result<string>)
    ensures !NeedsTableLookup(ids.tableId) ==> r == Ok(ids.tableId.value)
    ensures NeedsTableLookup(ids.tableId) ==>
              var reply := tablesAt(TablesUrl(ids.baseId));
              (r.Ok? <==> reply.Answered? && IsOk(reply.status) && reply.body.Some? && |reply.body.value| > 0)
              && (r.Ok? ==> r.value == reply.body.value[0].id)
              && (r.Err? ==> r == TableFromReply(reply))
  {
    if NeedsTableLookup(ids.tableId) then TableFromReply(tablesAt(TablesUrl(ids.baseId)))
    else Ok(ids.tableId.value)
  }

  /** Lines 136-210: list the base's tables first when NeedsTableLookup holds, then fetch the records. */
  function FetchRecords(auth: string, ids: AirtableIds,
                        tablesAt: string -> TablesReply, recordsAt: string -> RecordsReply): (f: Fetched)
    ensures 1 <= |f.requests| <= 2
    ensures NeedsTableLookup(ids.tableId) ==> f.requests[0] == Get(TablesUrl(ids.baseId), auth)
    ensures !NeedsTableLookup(ids.tableId) ==> f == FetchTable(auth, ids.baseId, ids.tableId.value, recordsAt)
    ensures var t := TableToFetch(ids, tablesAt);
            t.Err? ==> NeedsTableLookup(ids.tableId) && f == Fetched([Get(TablesUrl(ids.baseId), auth)], Err(t.message))
    ensures var t := TableToFetch(ids, tablesAt);
            t.Ok? ==>
              var rest := FetchTable(auth, ids.baseId, t.value, recordsAt);
              f.outcome == rest.outcome
              && f.requests == (if NeedsTableLookup(ids.tableId) then [Get(TablesUrl(ids.baseId), auth)] else [])
                               + [Get(RecordsUrl(ids.baseId, t.value), auth)]
    ensures f.outcome.Ok? ==> |f.outcome.value| > 0
  {
    if NeedsTableLookup(ids.tableId) then
      var tablesUrl := TablesUrl(ids.baseId);
      match TableFromReply(tablesAt(tablesUrl))
      case Err(thrown) => Fetched([Get(tablesUrl, auth)], Err(thrown))
      case Ok(tableId) =>
        var rest := FetchTable(auth, ids.baseId, tableId, recordsAt);
        Fetched([Get(tablesUrl, auth)] + rest.requests, rest.outcome)
    else
      FetchTable(auth, ids.baseId, ids.tableId.value, recordsAt)
  }

  /** What one syncData run does: the requests it sends, the status updates it makes, the list it stores. */
  datatype SyncRun = SyncRun(requests: seq<Request>, updates: seq<StatusUpdate>, stored: Option<seq<WatchEntry>>)

  /** The specification of syncData, guard by guard as lines 107-225 take them. */
  function SyncPlan(apiKey: string, airtableUrl: string,
                    tablesAt: string -> TablesReply, recordsAt: string -> RecordsReply): (r: SyncRun)
    ensures |r.requests| <= 2 && 1 <= |r.updates| <= 2
    ensures var last := r.updates[|r.updates| - 1];
            (last.status == Success || last.status == Error) && (r.stored.Some? <==> last.status == Success)
    ensures forall k :: 0 <= k < |r.updates| - 1 ==> r.updates[k] == SyncingUpdate
  {
    if apiKey == "" then
      SyncRun([], [StatusUpdate(Error, NoKeyMessage, None)], None)
    else
      match ExtractAirtableIds(airtableUrl)
      case None => SyncRun([], [SyncingUpdate, StatusUpdate(Error, NoBaseIdMessage, None)], None)
      case Some(ids) =>
        var f := FetchRecords("Bearer " + apiKey, ids, tablesAt, recordsAt);
        match f.outcome
        case Err(thrown) =>
          SyncRun(f.requests, [SyncingUpdate, StatusUpdate(Error, ApiErrorMessage(thrown), None)], None)
        case Ok(data) =>
          SyncRun(f.requests, [SyncingUpdate, StatusUpdate(Success, SyncedMessage, Some(|data|))], Some(data))
  }

  /** Without an API key the run reports one error, before any "syncing", and touches nothing else. */
  lemma MissingKeyReportsErrorFirst(airtableUrl: string, tablesAt: string -> TablesReply, recordsAt: string -> RecordsReply)
    ensures SyncPlan("", airtableUrl, tablesAt, recordsAt)
            == SyncRun([], [StatusUpdate(Error, NoKeyMessage, None)], None)
  {
  }

  /**
   * With an API key, "syncing" is reported first and exactly one terminal
   * update follows; data is stored exactly when that update is a success,
   * and the stored list is never empty and is what the count reports.
   */
  lemma SyncingThenOneOutcome(apiKey: string, airtableUrl: string,
                              tablesAt: string -> TablesReply, recordsAt: string -> RecordsReply)
    requires apiKey != ""
    ensures var run := SyncPlan(apiKey, airtableUrl, tablesAt, recordsAt);
            |run.updates| == 2 && run.updates[0] == SyncingUpdate
            && (run.updates[1].status == Success || run.updates[1].status == Error)
            && (run.stored.Some? <==> run.updates[1].status == Success)
            && (run.stored.Some? ==>
                  |run.stored.value| > 0
                  && run.updates[1] == StatusUpdate(Success, SyncedMessage, Some(|run.stored.value|)))
  {
  }

  /**
   * Once the identifiers are known the run ends in one of three ways: the
   * table lookup's error, the records request's error, or the normalised
   * records, with the fallback applied, stored and counted.
   */
  lemma SyncPlanOutcome(apiKey: string, airtableUrl: string,
                        tablesAt: string -> TablesReply, recordsAt: string -> RecordsReply)
    requires apiKey != "" && ExtractAirtableIds(airtableUrl).Some?
    ensures var ids := ExtractAirtableIds(airtableUrl).value;
            var run := SyncPlan(apiKey, airtableUrl, tablesAt, recordsAt);
            var t := TableToFetch(ids, tablesAt);
            |run.updates| == 2 && run.updates[0] == SyncingUpdate
            && (t.Err? ==>
                  run.stored.None? && run.updates[1] == StatusUpdate(Error, ApiErrorMessage(t.message), None))
            && (t.Ok? ==>
                  var records := RecordsFromReply(recordsAt(RecordsUrl(ids.baseId, t.value)));
                  (records.Err? ==>
                     run.stored.None? && run.updates[1] == StatusUpdate(Error, ApiErrorMessage(records.message), None))
                  && (records.Ok? ==>
                        run.stored == Some(WithFallback(records.value))
                        && run.updates[1] == StatusUpdate(Success, SyncedMessage, Some(|WithFallback(records.value)|))))
  {
  }

  /** An unusable URL is reported after "syncing" and before any request. */
  lemma UnresolvedIdsReportError(apiKey: string, airtableUrl: string,
                                 tablesAt: string -> TablesReply, recordsAt: string -> RecordsReply)
    requires apiKey != "" && ExtractAirtableIds(airtableUrl).None?
    ensures SyncPlan(apiKey, airtableUrl, tablesAt, recordsAt)
            == SyncRun([], [SyncingUpdate, StatusUpdate(Error, NoBaseIdMessage, None)], None)
  {
  }

  /** The meta endpoint's URL differs from every records URL of a base whose ID starts with "app". */
  lemma TablesUrlIsNotRecordsUrl(baseId: string, otherBase: string, tableId: string)
    requires StartsWith(otherBase, "app")
    ensures TablesUrl(baseId) != RecordsUrl(otherBase, tableId)
  {
    assert TablesUrl(baseId)[28] == 'm';
    assert RecordsUrl(otherBase, tableId)[28] == otherBase[0] == 'a';
  }

  /**
   * The table list is requested exactly when NeedsTableLookup holds, first and
   * with the bearer token; otherwise the one request goes to the given table.
   */
  lemma TableLookupExactlyWhenNeeded(apiKey: string, airtableUrl: string,
                                     tablesAt: string -> TablesReply, recordsAt: string -> RecordsReply)
    requires apiKey != "" && ExtractAirtableIds(airtableUrl).Some?
    ensures var ids := ExtractAirtableIds(airtableUrl).value;
            var run := SyncPlan(apiKey, airtableUrl, tablesAt, recordsAt);
            var tablesRequest := Get(TablesUrl(ids.baseId), "Bearer " + apiKey);
            (NeedsTableLookup(ids.tableId) <==> run.requests[0] == tablesRequest)
            && (!NeedsTableLookup(ids.tableId) ==>
                  run.requests == [Get(RecordsUrl(ids.baseId, ids.tableId.value), "Bearer " + apiKey)])
  {
    var ids := ExtractAirtableIds(airtableUrl).value;
    ExtractedIdsShape(airtableUrl);
    if !NeedsTableLookup(ids.tableId) {
      TablesUrlIsNotRecordsUrl(ids.baseId, ids.baseId, ids.tableId.value);
    }
  }

  /** When no lookup is needed the meta endpoint is never consulted: its replies cannot matter. */
  lemma NoLookupIgnoresTablesEndpoint(apiKey: string, airtableUrl: string,
                                      tablesAt: string -> TablesReply, otherTablesAt: string -> TablesReply,
                                      recordsAt: string -> RecordsReply)
    requires ExtractAirtableIds(airtableUrl).Some? && !NeedsTableLookup(ExtractAirtableIds(airtableUrl).value.tableId)
    ensures SyncPlan(apiKey, airtableUrl, tablesAt, recordsAt) == SyncPlan(apiKey, airtableUrl, otherTablesAt, recordsAt)
  {
  }

  /** After a successful run the status is a stamped success whose count is the stored list's length. */
  lemma SuccessfulRunStatus(st: StatusRecord, apiKey: string, airtableUrl: string,
                            tablesAt: string -> TablesReply, recordsAt: string -> RecordsReply, now: string)
    ensures var run := SyncPlan(apiKey, airtableUrl, tablesAt, recordsAt);
            run.stored.Some? ==>
              Replay(st, run.updates, now) == StatusRecord(Some(now), Success, SyncedMessage, |run.stored.value|)
  {
    var run := SyncPlan(apiKey, airtableUrl, tablesAt, recordsAt);
    if run.stored.Some? {
      SyncingThenOneOutcome(apiKey, airtableUrl, tablesAt, recordsAt);
      assert run.updates == [run.updates[0], run.updates[1]];
      ReplayTwo(st, run.updates[0], run.updates[1], now);
    }
  }

  /** After a failed run the status is a stamped error and the count is the one from before. */
  lemma FailedRunStatus(st: StatusRecord, apiKey: string, airtableUrl: string,
                        tablesAt: string -> TablesReply, recordsAt: string -> RecordsReply, now: string)
    ensures var run := SyncPlan(apiKey, airtableUrl, tablesAt, recordsAt);
            var after := Replay(st, run.updates, now);
            run.stored.None? ==> after.status == Error && after.lastSync == Some(now) && after.dataCount == st.dataCount
  {
    var run := SyncPlan(apiKey, airtableUrl, tablesAt, recordsAt);
    if apiKey == "" {
      ReplayOne(st, run.updates[0], now);
    } else {
      SyncingThenOneOutcome(apiKey, airtableUrl, tablesAt, recordsAt);
      assert run.updates == [run.updates[0], run.updates[1]];
      ReplayTwo(st, run.updates[0], run.updates[1], now);
    }
  }

  /**
   * A failing status on the records request of a table URL is reported with
   * the prefix "Airtable API error: " twice: once in the error thrown and once
   * more by the `catch` that reports it.
   */
  lemma HttpFailureMessage(apiKey: string, baseId: string, tableId: string, status: nat, text: string,
                           body: Option<seq<RawRecord>>,
                           tablesAt: string -> TablesReply, recordsAt: string -> RecordsReply)
    requires apiKey != "" && StartsWith(baseId, "app") && AllAlnum(baseId)
    requires StartsWith(tableId, "tbl") && AllAlnum(tableId)
    requires recordsAt(RecordsUrl(baseId, tableId)) == Answered(status, text, body) && !IsOk(status)
    ensures var run := SyncPlan(apiKey, "https://airtable.com/" + baseId + "/" + tableId, tablesAt, recordsAt);
            run.requests == [Get(RecordsUrl(baseId, tableId), "Bearer " + apiKey)]
            && run.updates == [SyncingUpdate, StatusUpdate(Error, "Airtable API error: Airtable API error: "
                                                                  + (NatToString(status) + " - " + text), None)]
            && run.stored.None?
  {
    var url := "https://airtable.com/" + baseId + "/" + tableId;
    assert url + [] == url;
    ExtractFromTableUrl(baseId, tableId, []);
    var ids := AirtableIds(baseId, Some(tableId));
    assert !NeedsTableLookup(ids.tableId);
    var f := FetchRecords("Bearer " + apiKey, ids, tablesAt, recordsAt);
    assert f.requests == [Get(RecordsUrl(baseId, tableId), "Bearer " + apiKey)];
    assert f.outcome == Err(HttpErrorMessage(status, text));
    assert HttpErrorMessage(status, text) == "Airtable API error: " + (NatToString(status) + " - " + text);
    DoubledPrefix(NatToString(status) + " - " + text);
  }

  lemma DoubledPrefix(detail: string)
    ensures ApiErrorMessage("Airtable API error: " + detail) == "Airtable API error: Airtable API error: " + detail
  {
  }

  /** The background page's global configuration, status object and stored watchlist. */
  class SyncEngine {
    var airtableUrl: string
    var airtableApiKey: string
    var syncInterval: int
    const syncStatus: SyncStatus
    /** The local-storage key `trustTagData`. */
    var trustTagData: Option<seq<WatchEntry>>

    /** Lines 2-4 and 75-80; `persisted` is what local storage already holds. */
    constructor(persisted: Option<seq<WatchEntry>>)
      ensures airtableUrl == "" && airtableApiKey == "" && syncInterval == 60
      ensures fresh(syncStatus) && syncStatus.Value() == InitialStatus
      ensures trustTagData == persisted
    {
      airtableUrl, airtableApiKey, syncInterval := "", "", 60;
      syncStatus := new SyncStatus();
      trustTagData := persisted;
    }

    /** syncData, with the two endpoints' replies given as functions of the URL requested. */
    method SyncData(tablesAt: string -> TablesReply, recordsAt: string -> RecordsReply, now: string)
      returns (sent: seq<Request>)
      modifies syncStatus, this`trustTagData
      ensures var run := SyncPlan(airtableApiKey, airtableUrl, tablesAt, recordsAt);
              sent == run.requests
              && syncStatus.Value() == Replay(old(syncStatus.Value()), run.updates, now)
              && trustTagData == if run.stored.Some? then run.stored else old(trustTagData)
    {
      ghost var start := syncStatus.Value();
      sent := [];
      if airtableApiKey == "" {
        syncStatus.Update(Error, NoKeyMessage, None, now);
        ReplayOne(start, StatusUpdate(Error, NoKeyMessage, None), now);
        return;
      }
      syncStatus.Update(Syncing, SyncingMessage, None, now);
      var airtableIds := ExtractAirtableIds(airtableUrl);
      if airtableIds.None? {
        syncStatus.Update(Error, NoBaseIdMessage, None, now);
        ReplayTwo(start, SyncingUpdate, StatusUpdate(Error, NoBaseIdMessage, None), now);
        return;
      }
      var baseId, tableId := airtableIds.value.baseId, airtableIds.value.tableId;
      var auth := "Bearer " + airtableApiKey;
      var finalTableId := tableId;
      if NeedsTableLookup(tableId) {
        var tablesUrl := TablesUrl(baseId);
        sent := sent + [Get(tablesUrl, auth)];
        var table := TableFromReply(tablesAt(tablesUrl));
        if table.Err? {
          syncStatus.Update(Error, ApiErrorMessage(table.message), None, now);
          ReplayTwo(start, SyncingUpdate, StatusUpdate(Error, ApiErrorMessage(table.message), None), now);
          return;
        }
        finalTableId := Some(table.value);
      }
      var recordsUrl := RecordsUrl(baseId, finalTableId.value);
      sent := sent + [Get(recordsUrl, auth)];
      var records := RecordsFromReply(recordsAt(recordsUrl));
      if records.Err? {
        syncStatus.Update(Error, ApiErrorMessage(records.message), None, now);
        ReplayTwo(start, SyncingUpdate, StatusUpdate(Error, ApiErrorMessage(records.message), None), now);
        return;
      }
      var formattedData := records.value;
      if |formattedData| == 0 {
        formattedData := Fallback;
      }
      trustTagData := Some(formattedData);
      syncStatus.Update(Success, SyncedMessage, Some(|formattedData|), now);
      ReplayTwo(start, SyncingUpdate, StatusUpdate(Success, SyncedMessage, Some(|formattedData|)), now);
    }
  }
}
