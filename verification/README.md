# Football scraper pipeline — Dafny model

This project models the data-normalisation core of a small football web
service. The service has two scraping paths:

- **Standings** (`fetchAndMergeData`). It reads the rows of the Premier
  League table. It drops rows whose trimmed team name is empty, appends
  `" FC"` to each remaining name, and left-joins every row with the static
  `basicTeamInfo` table by exact name. Any failure gives `[]`.
- **Match history** (`scrapeData`). It reads a team page. It keeps at most
  the first five finished games, reads a kickoff date from status entry 7
  only, takes the first two team slots of the next fixture (suffixed with
  `" FC"` and repaired through the `wrongName`/`correctName` alias table),
  and always appends one trailing `{nextMatch, matchDate}` element. Any
  failure is re-thrown.

The same logic appears in `index.js` and, split in two, in
`public/scrapeData.js` and `public/fetchMergeData.js`. One model serves all
three.

The HTML parser's output is taken as given. A parsed page is a datatype of
untrimmed text fields: `RawRow` for a standings row, and `GameEntry`,
`StatusEntry` and `TeamSlot` for the team page. A failed fetch or parse is
the `Err` case of the input `Result`. Every `.each` loop is a left fold over
document order. Three loops push conditionally (`Sequences.Collect`,
`PushWhileShort`, `PushBelowIndex`), and one assigns `matchDate` at a single
index (`AssignAtIndex`). Each fold has a lemma tying it to a declarative
description: exactly the kept rows in order, the first n elements, or the
one cell at a fixed index. JavaScript objects are
`map<string, Value>`, and `{ ...a, ...b }` is map union with `b` winning.
`String.prototype.trim` is modelled with ECMAScript's white-space and
line-terminator characters.

Files: `results.dfy` (Option, Result), `sequences.dfy` (findIndex and the
loop folds), `text.dfy` (trim, club suffix), `jsobject.dfy` (objects and
spread), `teaminfo.dfy` (`basicTeamInfo` and `find`), `standings.dfy`,
`namecorrection.dfy`, `fixtures.dfy`.

The trailing element's guard is `matches.length < 6`, but at most five
games are ever recorded, so the guard cannot fail and the element is always
appended (`Fixtures.UpcomingAlwaysAppended`).

## Model

| member | source | states |
|---|---|---|
| Text.Trim | index.js:223-225 | the trimmed text has no white space at either end, and it is empty exactly when the cell held only white space |
| Text.IsWhiteSpace | index.js:223-225 | trim strips tab, line feed, vertical tab, form feed, carriage return, space, no-break space, line and paragraph separators and the byte order mark; beyond ASCII it strips nothing outside U+00A0 to U+3000 and U+FEFF, and it keeps next line, the information separators, the zero-width space and the Mongolian vowel separator |
| Text.TrimUnique | public/fetchMergeData.js:18-20 | trim returns the one trimmed text that sits in the input with only white space before and after it |
| Text.TrimIdempotent | public/scrapeData.js:23-24 | trimming an already trimmed value changes nothing |
| Sequences.IndexOf | index.js:332-334 | findIndex gives the first position holding the name, or none exactly when the name is not listed |
| Sequences.Collect | index.js:222-234 | a loop that pushes at most once per row yields no more elements than there are rows |
| Sequences.CollectFollowsSomeIndices | index.js:222-234 | a loop that pushes some elements pushes exactly the kept ones, one for one and in order |
| Sequences.PushWhileShort | index.js:269-276 | the loop guarded by `length < cap` pushes exactly min(n, cap) elements |
| Sequences.PushWhileShortIsPrefix | public/scrapeData.js:22-38 | pushing while fewer than the cap are held keeps exactly the first cap elements, in order |
| Sequences.PushBelowIndex | index.js:329-338 | the loop guarded by `index < bound` pushes exactly min(n, bound) elements |
| Sequences.PushBelowIndexIsPrefix | public/scrapeData.js:90-99 | pushing only at indices below the bound keeps exactly the first bound elements, in order |
| Sequences.AssignAtIndex | index.js:282-310 | the variable assigned only at one index stays undefined when the loop never reaches that index |
| Sequences.AssignAtIndexReadsOneCell | public/scrapeData.js:45-51 | a variable assigned only at one index ends up holding that cell, or stays undefined when the cell is missing or empty |
| JsObject.Spread | index.js:238 | the spread object has every key of both operands, with the second operand's value where both have a key |
| TeamInfo.FindByName | index.js:237 | find returns the first entry with exactly that name, and undefined exactly when no entry has it |
| TeamInfo.FindByNameDistinct | public/fetchMergeData.js:32 | with pairwise distinct names, looking up an entry's name finds that very entry |
| TeamInfo.BasicTeamInfoNamesDistinct | index.js:50-211 | the table has 20 entries and no two share a name, so first-match lookup is unambiguous |
| Standings.ReadRow | index.js:223-233 | a row yields a record exactly when its team cell is not blank, and the team name is a trimmed non-empty text followed by " FC" |
| Standings.ExtractRows | index.js:222-234 | tableRows holds one record per non-blank row, in document order, each with trimmed cells and the suffixed name |
| Standings.AllNamedRowsRecorded | public/fetchMergeData.js:17-29 | when every row names a team, no row is lost and the order is kept |
| Standings.PaddedRowsExample | index.js:222-234 | a row of white space and line breaks is dropped, and a row "\t Arsenal ", " 3 ", "45\r\n" becomes team "Arsenal FC", rank "3", points "45" |
| Standings.MergeWithProfile | public/fetchMergeData.js:33 | a merged row keeps team, rank and points and gains every profile field; the key sets are disjoint, so nothing is overwritten |
| Standings.MergeRow | index.js:237-238 | a row merges with the first table entry of the same name, and is returned unchanged when no entry has that name; team is always kept |
| Standings.MergeAll | public/fetchMergeData.js:31-34 | the merge keeps length and order: output i comes from row i |
| Standings.FetchAndMergeData | index.js:214-246 | a failure yields the empty array; otherwise there is one object per recorded row |
| Standings.StandingsEndToEnd | index.js:222-241 | the k-th object comes from the k-th non-blank row, carries its trimmed cells and suffixed name, and holds the fields of the first matching profile |
| Standings.FailureLooksLikeEmptyTable | public/fetchMergeData.js:37-40 | a failed fetch yields the same result as a table without rows |
| Standings.ArsenalExample | index.js:67-74 | a scraped "Arsenal" row with rank 3 and 45 points merges into the full "Arsenal FC" object |
| NameCorrection.Correct | index.js:331-335 | a listed malformed name becomes the counterpart at its first listed position, and any other name passes through |
| NameCorrection.CorrectAtPosition | public/scrapeData.js:93-96 | in a table with equal-length lists and no repeated malformed name, wrongName[i] maps to correctName[i] |
| NameCorrection.CorrectIdempotent | index.js:313-337 | when no corrected name is itself listed as malformed, correcting twice is correcting once |
| NameCorrection.FixtureAliasesSound | index.js:313-326 | the two lists have equal length, wrongName has no duplicates, no correctName entry is in wrongName, and every correctName entry is a basicTeamInfo name |
| NameCorrection.CorrectedNameHasProfile | index.js:320-326 | every repaired name is a name of the team-information table |
| Fixtures.SpanText | index.js:266-267 | a score is a trimmed text; selecting a span past the last one gives "", and a present span gives "" exactly when it is blank |
| Fixtures.ToRecent | index.js:262-276 | a game's record holds four trimmed texts; home team is the home span's text trimmed and away team the away span's, each empty exactly when its span is blank |
| Fixtures.RecordGames | index.js:261-277 | exactly the first min(n, 5) games are recorded, in page order |
| Fixtures.ScoresIgnoreSeparator | public/scrapeData.js:26-28 | for any number of spans the home score is span 0 trimmed and the away score span 2 trimmed, or "" when that span is missing; the separator span and later spans never matter |
| Fixtures.KickoffOf | index.js:286-309 | a status entry yields a kickoff exactly when its timestamp attribute is present and non-empty; the date is the formatted timestamp and the text is the date div's text trimmed |
| Fixtures.SlotName | index.js:331 | a slot's name is its last anchor's trimmed text followed by " FC", and a slot without anchors gives " FC" alone |
| Fixtures.ScanStatuses | index.js:282-310 | matchDate is what status entry 7 yields, and stays undefined when there is no entry 7 |
| Fixtures.CollectNextMatch | index.js:328-338 | nextMatch holds the names of the first min(n, 2) slots, in order, each suffixed and repaired |
| Fixtures.FixtureTeam | index.js:331-335 | an unlisted slot name stays; a listed one becomes the correctName entry at its position, which is a table name; repairing the result again changes nothing |
| Fixtures.AppendUpcoming | index.js:339-344 | below six elements the trailing element is pushed after the existing ones; at six or more the array is unchanged |
| Fixtures.Assemble | index.js:328-345 | the result has min(games, 5) + 1 elements, at most 6; the recorded games come first, then the trailing element whose names are the repaired names of the first min(slots, 2) slots and whose kickoff is the one status entry 7 yields, or none when there is no entry 7 |
| Fixtures.UpcomingAlwaysAppended | public/scrapeData.js:100-105 | with five or more games the trailing element is still appended, so the length-6 guard never fails |
| Fixtures.ScrapeData | public/scrapeData.js:100-110 | a failure is re-thrown as that same error; a parsed page gives between 1 and 6 elements |
| Fixtures.FailureIsNotAResult | index.js:346-349 | a failed fetch is an error that no page's result equals, not even an empty page's |

## Left out

- HTTP fetching (`axios`) and HTML traversal (`cheerio`) are foreign libraries. Their output is an input datatype of extracted strings, and their failure is the `Err` case of an input `Result`. A selector matching several elements, whose `.text()` joins their texts, is likewise taken as already joined.
- Date formatting (`new Date(parseInt(unixTime, 10) * 1000).toLocaleString("en-GB", …)`) depends on locale data and time zone. It is the parameter `format` of `Fixtures.KickoffOf`, applied to the raw attribute text.
- `console.error` logging on both failure paths has no effect on results.
- The Express routes, session middleware, CORS and helmet setup, bcrypt hashing, the pg CRUD statements, process bootstrap and the global `cookies` variable are web-service plumbing around the pipeline. They are outside the core.
- `public/basicTeamInfo.js` is not part of this model. `Standings.FetchAndMergeData` takes the table as a parameter, and the `index.js` table (`TeamInfo.BasicTeamInfo`) is the concrete one used in the lemmas.
- Key order of the merged objects, which decides property order in the JSON response, is not modelled: objects are maps.
- The fixed standings URL and the CSS selectors only locate data in the page, so they are not modelled.
