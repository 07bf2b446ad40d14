# TrustTag watchlist matching and Airtable sync, modelled in Dafny

TrustTag is a browser extension. It keeps a watchlist of web addresses known for
false information. The background script downloads the list from one Airtable
table. The content script shows a banner on every page whose URL matches an
address on the list. The settings page collects the Airtable base ID or URL, the
API key and the sync interval.

This project models the logic behind those three scripts. It leaves out the
browser, the DOM and the network:

- `Content` (content.js) covers:
  - `urlMatchesPattern`: plain addresses are matched as case-insensitive
    substrings of the hostname or of the URL; addresses with `*` are compiled to
    regular expressions.
  - `countMatchingEntries` and the page filter of `checkCurrentPage`: both
    select entries in stored order.
  - The `lastUrl` tracker: it rescans the page only when `location.href`
    changes.
- `Glob` gives the meaning of the regular-expression fragment that a
  wildcard address turns into, exact on text without characters outside the
  Basic Multilingual Plane (see "## Left out"). A backtracking matcher is proved sound and
  complete against that meaning.
- `Background` (background.js) covers:
  - `extractAirtableIds`: the leftmost match of its pattern, the "app" checks,
    and the bare-base-ID case.
  - The table-lookup decision.
  - The URLs requested and the way each reply is handled.
  - Record normalisation and the built-in fallback list.
  - The `syncStatus` object and `updateSyncStatus`.
  - The guard order of `syncData`.
- `syncData` is modelled twice:
  - `SyncPlan`, a specification of the requests sent, the status updates made
    and the data stored;
  - `SyncEngine.SyncData`, an imperative method over the script's global state,
    proved to do exactly what `SyncPlan` says.
- `Popup` (popup.js) covers `isValidAirtableInput` and the validation chain of
  `saveSettings`, on trimmed field values.
- `Strings` covers the JavaScript string operations the scripts use:
  `startsWith`, `includes`, `trim`, ASCII `toLowerCase`, and number-to-text
  conversion. `Watchlist` holds the stored entry type and the "ordered selection"
  relation. `Wrappers` holds `Option` and `Result`.

The parameters that stand in for the environment:

- `parse: string -> Option<string>` stands in for `new URL(url).hostname`. It
  gives `None` where the constructor throws.
- `tablesAt` and `recordsAt` are functions from URL to reply. They say what each
  Airtable endpoint answers: a rejected promise with its message, or a status,
  the body text and the decoded JSON body.
- `now` is the time stamp `new Date().toISOString()` would produce.

Only the single-source code of these three files is modelled: one Airtable URL,
one table, one stored list.

A few behaviours of the code are stated as lemmas:

- `LookupForExtractedIds`: the `'Grid view'` arm of the table-lookup test can
  never fire for IDs taken from a URL, because a captured group holds letters
  and digits only.
- `IsValidAirtableInput`: its `includes('/')` conjunct is implied by the
  `https://airtable.com/` prefix.
- `HttpFailureMessage`: a failing HTTP status is reported with the prefix
  "Airtable API error: " twice. The prefix is added once when the error is
  thrown and once more by the `catch` that reports it.

## Model

| member | source | states |
|---|---|---|
| `Strings.ContainsIsSubstring` | content.js:25-28 | the left-to-right `includes` search succeeds exactly when the needle occurs at some position |
| `Strings.StartsWith` | content.js:8 | `startsWith` holds iff the prefix is no longer than the text and agrees with it character by character |
| `Strings.Lower` | content.js:25-28 | `toLowerCase` keeps the length, leaves no ASCII capital, and changes only capitals, each to its lower-case letter |
| `Strings.Trim` | popup.js:126-127 | `trim()` returns the block of the input left once whitespace and line terminators are removed from both ends; the block does not start or end with whitespace |
| `Strings.TrimEmptyIffWhitespace` | popup.js:126-127 | a trimmed value is empty exactly when the raw value was whitespace only |
| `Glob.TestMeaning` | content.js:16-21 | the unanchored `test` of the compiled pattern succeeds exactly when some block of the URL fits the whole pattern |
| `Glob.Test` | content.js:19 | the unanchored test succeeds iff the matcher succeeds at some start position of the URL |
| `Glob.PrefixSound` | content.js:17-19 | when the backtracking matcher succeeds, some prefix of the text fits the whole pattern |
| `Glob.PrefixComplete` | content.js:17-19 | when some prefix of the text fits the whole pattern, the backtracking matcher succeeds |
| `Glob.TestSound` | content.js:19 | a successful test yields a block of the text that fits the whole pattern |
| `Glob.TestComplete` | content.js:19 | any block of the text that fits the whole pattern makes the test succeed |
| `Glob.StarFitsAnyLine` | content.js:17 | a `*`, rewritten to `.*`, fits exactly the runs of characters without line terminators |
| `Glob.DotFitsOneChar` | content.js:17-18 | a `.` left in the address matches any one character except a line terminator |
| `Glob.LiteralFits` | content.js:18 | without `*` and `.`, a pattern fits exactly the texts equal to it up to ASCII case (the `i` flag) |
| `Content.Hostname` | content.js:6-13 | the hostname is the parsed one for a URL starting with "http" that parses, and the URL itself otherwise |
| `Content.UrlMatchesPattern` | content.js:2-32 | wildcard address: true iff some block of the URL fits it, hostname ignored; otherwise true iff the lower-cased address occurs in the lower-cased hostname or in the lower-cased URL |
| `Content.PlainPatternOnBareHost` | content.js:6-10 | a URL not starting with "http" is its own hostname, so only the URL is searched |
| `Content.ParseFailureFallsBack` | content.js:7-13 | when hostname parsing throws, the URL is used as the hostname and a verdict is still returned |
| `Content.WildcardIgnoresHostname` | content.js:16-22 | a wildcard address gives the same verdict whatever the hostname parser says |
| `Content.EmptyPatternMatchesEverything` | content.js:25-31 | an empty address matches every URL, which is why the page filter skips it |
| `Content.EntriesMatching` | content.js:36 | the filter keeps exactly the matching entries, in order; it keeps all of them iff every entry matches |
| `Content.EntriesMatchingCopies` | content.js:36 | every copy of a matching entry is kept and no copy of a non-matching one |
| `Content.EntriesMatchingIsFilter` | content.js:36 | the filter is the generic ordered filter with `urlMatchesPattern` as its test |
| `Content.MatchingPositions` | content.js:36 | the positions the filter's test accepts are exactly the positions whose address matches the URL |
| `Content.MatchingCount` | content.js:36 | the filter keeps one entry per matching position |
| `Content.CountMatchingEntries` | content.js:35-37 | the count is the number of positions whose address matches the URL; so it is at most the list length, zero iff no entry matches, and the full length iff every entry matches |
| `Content.PageMatches` | content.js:149-153 | the page filter keeps, in stored order, exactly the entries with a non-empty address that matches the page URL or its hostname |
| `Content.PageMatchesCopies` | content.js:149-153 | every copy of a flagged entry is kept and no copy of any other entry |
| `Content.CheckCurrentPage` | content.js:130-153 | nothing stored flags nothing; otherwise the flagged entries in stored order, with exactly as many copies of each as the stored list holds |
| `Content.EmptyAddressNeverFlagged` | content.js:150 | an entry with an empty address is never flagged |
| `Content.UrlTracker.constructor` | content.js:183 | `lastUrl` starts as the page's `href` |
| `Content.UrlTracker.Observe` | content.js:184-190 | rescans iff `href` differs from the remembered URL, always remembers `href`, and returns the page filter's result exactly when it rescans |
| `Content.RepeatedHrefIsNoOp` | content.js:184-190 | a second callback with an unchanged `href` does not rescan |
| `Background.MatchHere` | background.js:58 | a match attempt at one position, when it succeeds, yields groups that satisfy the pattern with greedy runs |
| `Background.MatchHereComplete` | background.js:58 | every match at a position is the one the greedy attempt finds |
| `Background.CapturesUnique` | background.js:58 | the groups of a match at a fixed position are determined by the text |
| `Background.FirstMatchFromCorrect` | background.js:58 | the scan returns a match at the leftmost position, none earlier, and finds nothing only when no position matches |
| `Background.FirstMatchUnique` | background.js:58 | the leftmost match is unique |
| `Background.FirstMatchFromStart` | background.js:58 | the scan from position 0 finds exactly the match `String.prototype.match` reports, or reports none |
| `Background.ExtractAirtableIds` | background.js:55-72 | any base ID returned starts with "app"; without a table ID the base ID is the whole input; an input starting with "app" always yields IDs |
| `Background.ExtractAirtableIdsMeaning` | background.js:55-72 | both groups when the leftmost match's first group starts with "app"; otherwise the whole input with a null table ID when it starts with "app"; otherwise null |
| `Background.ExtractedIdsShape` | background.js:58-69 | an extracted base ID starts with "app"; an extracted table ID is a non-empty run of letters and digits |
| `Background.ExtractFromTableUrl` | background.js:57-63 | a URL `https://airtable.com/<base>/<table>`, with or without a following view path, gives back both IDs |
| `Background.MatchOfTableLink` | background.js:58 | the table-link path from the host on is one match, whose groups are the base and table IDs |
| `Background.NoMatchInScheme` | background.js:58 | no match starts inside "https://" |
| `Background.NoMatchInAlnum` | background.js:58 | text made only of letters and digits holds no match |
| `Background.ExtractBareBaseId` | background.js:64-69 | a bare alphanumeric base ID is used whole, with a null table ID |
| `Background.NeedsTableLookup` | background.js:139 | the table list is needed without a table ID and for any table ID that neither starts with "tbl" nor is "Grid view"; it is not needed otherwise |
| `Background.LookupForExtractedIds` | background.js:139 | for extracted IDs the table list is fetched exactly when there is no table ID or it does not start with "tbl" |
| `Background.TableFromReply` | background.js:144-161 | the first table's ID is used iff the reply is ok and lists at least one table; a rejection gives its own message, a failing status the "Airtable API error: <status> - <text>" message, and an ok reply without tables "No tables found in the Airtable base" |
| `Background.FormatRecords` | background.js:185-190 | maps every record to its four fields, in order, with missing fields empty; fails iff some record has no `fields` |
| `Background.KeepAddressed` | background.js:190 | keeps, in order, exactly the entries with a non-empty address |
| `Background.KeepAddressedCopies` | background.js:190 | every copy of an entry with an address is kept and no copy of an entry without one |
| `Background.NormaliseRecords` | background.js:182-191 | a missing `records` array gives the empty list; otherwise the result is an ordered selection of the mapped records holding exactly those with an address, and it fails iff a record lacks `fields` |
| `Background.NormaliseRecordsCopies` | background.js:182-191 | the normalised list holds every copy of each mapped record with an address, and none without |
| `Background.RecordsFromReply` | background.js:171-191 | a list is produced iff the reply is ok and every record has `fields`, and it is the normalised one; a rejection gives its own message, a failing status the "Airtable API error: <status> - <text>" message, a record without `fields` the TypeError's message; an ok reply without `records` gives the empty list |
| `Background.WithFallback` | background.js:193-210 | the stored list is never empty; a non-empty list is kept; an empty one becomes the two built-in entries; every entry with an empty address came from the input |
| `Background.Updated` | background.js:83-94 | an update sets the status and the message, stamps the time exactly for a success or an error, and overwrites the count only when one is given |
| `Background.UpdateRepeated` | background.js:83-94 | repeating a "syncing" or "unknown" update changes nothing; repeating a success or error update at a later time only moves the stamp to that time |
| `Background.SyncingKeepsStampAndCount` | background.js:83-94 | a "syncing" update without a count keeps the stamp and the count |
| `Background.SyncStatus.constructor` | background.js:75-80 | the initial status is "unknown", "Not synced yet", never synced, with count 0 |
| `Background.SyncStatus.Update` | background.js:83-94 | the object's new fields are the old ones updated by the status and message, the time stamp for a terminal status, and the count when one is given |
| `Background.FetchTable` | background.js:167-210 | one request to the table's records URL; data iff the reply is usable, and then it is the reply's list with the fallback applied; otherwise the reply's error |
| `Background.TableToFetch` | background.js:136-165 | a usable table ID is fetched as given, without consulting the meta endpoint; otherwise the first listed table's ID is chosen iff the tables reply is ok and lists one, and else the lookup's error message is returned |
| `Background.FetchRecords` | background.js:136-210 | without a lookup it is exactly the single-table fetch; with one, the meta endpoint is asked first, and either its error ends the fetch after that one request, or the records of the table it names are fetched with the outcome of that fetch; data is never empty |
| `Background.SyncPlan` | background.js:101-226 | at most two requests and one or two status updates; every update but the last is "syncing"; the last is a success or an error, and data is stored iff it is a success |
| `Background.SyncPlanOutcome` | background.js:113-220 | once the IDs are known, the run reports "syncing" and then the lookup's error, or the records request's error, or stores the reply's list with the fallback applied and reports success with its length |
| `Background.MissingKeyReportsErrorFirst` | background.js:107-111 | without an API key one error is reported before any "syncing", no request is sent and nothing is stored |
| `Background.SyncingThenOneOutcome` | background.js:113-220 | with a key, "syncing" comes first and exactly one terminal success or error follows; data is stored iff it is a success, and then the data is non-empty and its length is the count reported |
| `Background.UnresolvedIdsReportError` | background.js:118-124 | an unusable URL is reported after "syncing" and before any request |
| `Background.TablesUrlIsNotRecordsUrl` | background.js:141-168 | the meta endpoint's URL is never a records URL of an "app" base |
| `Background.TableLookupExactlyWhenNeeded` | background.js:136-168 | the table list is requested first, with the bearer token, iff the lookup test holds; otherwise the only request goes to the given table |
| `Background.NoLookupIgnoresTablesEndpoint` | background.js:139-165 | when no lookup is needed, the meta endpoint's replies cannot affect the run |
| `Background.SuccessfulRunStatus` | background.js:212-216 | after a run that stores data, the status is a time-stamped success whose count is the stored list's length |
| `Background.FailedRunStatus` | background.js:107-124 | after a run that stores nothing, the status is a time-stamped error and the count is unchanged |
| `Background.HttpFailureMessage` | background.js:173-219 | a failing records status for a table URL sends one request, stores nothing and reports "Airtable API error: Airtable API error: <status> - <text>" |
| `Background.SyncEngine.constructor` | background.js:2-4 | the configuration starts empty with a 60-minute interval, and the status object starts in its initial state |
| `Background.SyncEngine.SyncData` | background.js:101-226 | the requests sent, the status object's new value and the stored list are exactly those of the sync specification; stored data is left alone when nothing is fetched |
| `Popup.IsValidAirtableInput` | popup.js:172-180 | true iff the input starts with "app" or with "https://airtable.com/" |
| `Popup.PrefixHoldsSlash` | popup.js:179 | an input with the Airtable URL prefix always contains a `/` |
| `Popup.OnlyTheHttpsPrefixIsAccepted` | popup.js:179 | "http://airtable.com/x" and "airtable.com/x" are rejected; "https://airtable.com/x" is accepted |
| `Popup.SaveSettings` | popup.js:124-169 | a whitespace-only key is reported first, then a whitespace-only URL, then an invalid URL, each with its message and focus field; settings are saved iff all three checks pass, and then they hold the trimmed values |
| `Popup.TrimmedIsFixed` | popup.js:126-127 | a value without surrounding whitespace trims to itself |
| `Popup.NonEmptyTrimmed` | popup.js:126-127 | a value that is not all whitespace trims to a non-empty value that trims to itself |
| `Popup.ResavingIsStable` | popup.js:124-169 | saving the values just saved stores the same settings again |

## Left out

- The extension wiring is not modelled: `onInstalled`, the alarm, `storage.onChanged`, `onMessage`, `loadConfigAndSync` and the popup's messaging (background.js:7-52 and 228-256; popup.js:17-78, 107-121). The model reproduces no platform behaviour. The configuration fields of `SyncEngine` are plain state that `SyncData` reads.
- The network and JSON decoding are not modelled. Each endpoint's reply is an input, and `Content-Type` is not recorded in `Request`.
- Hostname extraction under section 4.4 of the WHATWG URL Standard is not modelled. It is the parameter `parse`.
- The DOM is not modelled: the banner, its handlers, its insertion and removal (content.js:39-127, 157-176); the popup's status display and `setTimeout` (popup.js:81-121, 182-191).
- `console.log` calls are not modelled. Neither are the asynchronous ordering of callbacks and the storage write of `syncStatus` at line 96.
- `Content.UrlMatchesPattern`: requires wildcard addresses to hold none of the other regular-expression metacharacters (`\^$+?()[]{}|`). For those, the general ECMAScript `RegExp` engine (section 22.2 of ECMA-262) would be needed, and it is not modelled. This includes the `SyntaxError` an unbalanced pattern raises.
- `Content.UrlMatchesPattern`: `toLowerCase` and the `i` flag are modelled as ASCII case folding only. Unicode case mapping is not modelled.
- `Content.UrlMatchesPattern`: strings are sequences of code points, so a wildcard address's `.` matches one code point, while the source's `RegExp` (compiled without the `u` flag) matches one UTF-16 code unit. The verdicts differ only on text holding characters outside the Basic Multilingual Plane: on the text `a`, U+1F600, `b`, the address `*a.b` matches in the model but not in the source, and `*a..b` matches in the source but not in the model. A serialised `location.href` or `location.hostname` is ASCII, so the URLs the extension tests never hold such characters. UTF-16 is not modelled.
- `Glob.DotFitsOneChar`: states that `.` fits one code point that is not a line terminator. In the source, `.` fits one UTF-16 code unit, so a character outside the Basic Multilingual Plane needs two `.` there and one here. The model's strings are code-point sequences, and UTF-16 is not modelled.
- `Content.CheckCurrentPage`: reading storage is not modelled. The stored list is a parameter, `None` when nothing is stored.
- `Background.RecordsFromReply`: field values are strings or missing. Non-string JSON values and a record whose `fields` is not an object are not modelled.
- The outer `catch` of `syncData` (background.js:222-225) is not modelled. It is reached only when the configured URL is not a string, for example after the storage key is removed. The model keeps the configuration as strings.
- `Popup.SaveSettings`: takes the sync interval already parsed. `parseInt` and its `NaN` case are not modelled.
- The case where `tables` or `records` is present but is not an array is not modelled. Such a reply counts as absent.
