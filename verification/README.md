# Text-report renderers for Indonesian higher-education data

`formatters.py` turns the JSON answers of an Indonesian higher-education
data service (universities — *perguruan tinggi*, PT —, study programmes
— *program studi*, prodi —, lecturers — *dosen* — and students —
*mahasiswa*) into plain-text reports. Most renderers return one string
whose lines are joined by `"\n"`: a banner `--- <title> ---`, the body,
and a closing rule of dashes as long as the banner. The exceptions:

- a guarded renderer given an empty argument returns a fixed
  "... tidak ditemukan." sentence instead;
- `_format_list_of_dicts` given an empty list returns the banner and
  `Tidak ada data ditemukan.` with no rule, and so do the four search
  wrappers, which have no guard of their own;
- the three base64 blob reporters return one sentence, holding the blob's
  length and its first 100 characters, with no banner and no rule;
- `format_search_results` closes with a rule four characters shorter than
  its banner.

This project models those renderers in Dafny:

- `Text` — joining and splitting lines, decimal numerals, Python's
  `str.title()` on ASCII, the humanised labels `key.replace('_', ' ').title()`,
  banners and rules.
- `Records` — a JSON object as an ordered list of `(key, value)` entries,
  `dict.get(key, 'N/A')` and the string form of a value.
- `Primitives` — the two generic renderers `_format_dict` and
  `_format_list_of_dicts`, each an imperative method (one loop per
  method) proved equal to a line-sequence specification function.
- `Profiles` — the five hand-labelled renderers (university details,
  lecturer profile, student details, programme details and description),
  each specified by a label table.
- `Catalog` — the fifty-six thin renderers that bind a title, a field
  list and a not-found message to a generic renderer, as one table and
  one dispatch; the three base64 blob reporters.
- `RatioCounter` — `format_penghitung_ratio_prodi`, which accepts a list
  or a single record.
- `Search` — `format_search_results`, the one-field-per-line list.

Each renderer method returns `"\n".join` of a list of lines, and its
`ensures` ties that list to a specification function. The lemmas state
what those line lists contain: where each entry or item ends up, that a
missing field shows as `N/A`, that key order does not matter where the
source looks keys up, and when the not-found message is produced. The
join itself is described once, for any list of lines: the text starts
with the first line and ends with the last, and lines without newlines
split back into the same lines. Those join facts are not applied to each
renderer's text one by one. A few worked examples pin down exact output:
`_format_list_of_dicts` under `Daftar Program Studi di PT` with the
fields `nama_prodi` and `jenjang_prodi` for one programme, and the ratio
counter on a list of two records.

## Model

| member | source | states |
|---|---|---|
| Text.Join | formatters.py:30 | joining no parts gives the empty text; otherwise the text begins with the first part |
| Text.JoinTwo | formatters.py:30 | joining two parts puts the separator once, between them |
| Text.JoinLines | formatters.py:17 | a joined report begins with its first line, so it opens with its banner |
| Text.JoinLinesEndsWithLast | formatters.py:17 | a joined report ends with its last line, so it closes with its rule |
| Text.JoinLinesNewline | formatters.py:17 | newline-free lines joined hold a newline exactly when there are at least two of them |
| Text.SplitLines | formatters.py:17 | splitting at newlines yields at least one line and no line holds a newline |
| Text.SplitJoinLines | formatters.py:17 | joining newline-free lines with "\n" and splitting again gives back exactly those lines |
| Text.JoinSplitLines | formatters.py:17 | splitting any text at newlines and joining again gives back the text |
| Text.SplitSingle | formatters.py:17 | a line without a newline splits into itself alone |
| Text.SplitCons | formatters.py:17 | a first line followed by "\n" splits off as one line ahead of the rest |
| Text.NatToString | formatters.py:30 | the item number is a non-empty string of decimal digits |
| Text.SmallNumbers | formatters.py:30 | the first two items are numbered `1` and `2` |
| Text.ParseNatToString | formatters.py:30 | reading the printed number back as a decimal gives the number |
| Text.NatToStringInjective | formatters.py:30 | different item numbers print differently |
| Text.TitleFrom | formatters.py:11 | title-casing keeps the length and which characters are letters, turns each letter into its own upper- or lower-case form, and leaves non-letters unchanged |
| Text.TitleFromWordStarts | formatters.py:11 | a letter comes out upper-case exactly when the character before it (or, at the start, the initial state) is not a letter |
| Text.Title | formatters.py:11 | `.title()` keeps the length and which characters are letters, turns each letter into its own upper- or lower-case form, upper-case exactly when it starts a word (first, or after a non-letter), and keeps non-letters |
| Text.TitleFromIdempotent | formatters.py:11 | title-casing an already title-cased text changes nothing |
| Text.TitleFromAppend | formatters.py:11 | title-casing a concatenation title-cases the second part according to whether the first part ended in a letter |
| Text.TitleLowerAfterCased | formatters.py:11 | lower-case letters after a letter stay lower-case |
| Text.TitleLowerWord | formatters.py:11 | a lower-case word is title-cased to its capitalised form |
| Text.TitleWordThenRest | formatters.py:11 | a lower-case word followed by a space is capitalised, and the text after the space is title-cased as a fresh start |
| Text.TitleSpacedWords | formatters.py:11 | space-separated lower-case words are title-cased word by word |
| Text.ToUpper | formatters.py:11 | a lower-case ASCII letter becomes the character 32 code points below it, its capital; every other character comes out unchanged |
| Text.ToLower | formatters.py:11 | an upper-case ASCII letter becomes the character 32 code points above it, its small letter; every other character comes out unchanged |
| Text.ReplaceUnderscores | formatters.py:11 | every underscore becomes a space, every other character is kept in place, and no underscore remains |
| Text.ReplaceSnakeCase | formatters.py:11 | replacing underscores turns snake_case words into space-separated words |
| Text.Humanize | formatters.py:11 | a humanised label is as long as its key and holds no underscore |
| Text.HumanizeIdempotent | formatters.py:15 | humanising a label that is already humanised changes nothing |
| Text.HumanizeSnakeCase | formatters.py:15 | a snake_case key of lower-case words becomes those words capitalised and separated by spaces |
| Text.HumanizeTwoWords | formatters.py:29 | a two-word key is shown as the two words capitalised, with one space between |
| Text.HumanizeExample | formatters.py:61 | the field `jumlah_mahasiswa` is labelled `Jumlah Mahasiswa` |
| Text.Header | formatters.py:8 | the banner is the title between `--- ` and ` ---`, eight characters longer than the title |
| Text.Rule | formatters.py:16 | the closing rule has exactly the requested number of characters, all dashes |
| Text.ClosingRuleMatchesHeader | formatters.py:8-16 | a rule of len(title) + 8 dashes is exactly as long as the banner `--- title ---` |
| Records.Lookup | formatters.py:29 | a key is found exactly when some entry carries it, and what is found is that entry's value |
| Records.Str | formatters.py:13-15 | a scalar value shows as its text; a nested record shows between braces |
| Records.GetOrAbsent | formatters.py:29 | a field the record lacks shows as `N/A` |
| Records.GetOrFound | formatters.py:29 | a field the record holds shows as the string form of a value stored under that name |
| Records.LookupFinds | formatters.py:29 | with distinct keys, looking up a key gives a value exactly when that key-value pair is in the record |
| Records.GetOrPresent | formatters.py:29 | with distinct keys, a field the record holds is shown as its value |
| Records.LookupIgnoresOrder | formatters.py:29 | two records with the same entries in any order give the same lookups |
| Primitives.FormatNested | formatters.py:12-13 | the loop over a nested record appends one indented `Key: value` line per nested entry, in order |
| Primitives.FormatEntry | formatters.py:10-15 | one entry gives a `Key:` heading with its nested lines for a nested record, or one `Key: value` line |
| Primitives.FormatBody | formatters.py:9-15 | the loop over the record's entries produces the lines of all entries in entry order |
| Primitives.FormatDict | formatters.py:6-17 | `_format_dict` returns the banner, the entries' lines and the rule, joined by newlines |
| Primitives.BodyLinesAppend | formatters.py:9-15 | the body of two concatenated records is the body of the first followed by the body of the second |
| Primitives.DictFraming | formatters.py:8-16 | a dict report opens with `--- title ---` and closes with a rule of the same length |
| Primitives.BodyLinesStep | formatters.py:9-15 | adding one entry appends exactly that entry's lines |
| Primitives.BodyLinesSplit | formatters.py:9-15 | the body is the lines of the entries before entry i, then entry i's lines, then those of the entries after it |
| Primitives.BodyLinesRest | formatters.py:9-15 | entry i's lines follow directly on the lines of the entries before it |
| Primitives.DictEntryBlock | formatters.py:9-15 | entries are rendered in entry order: the lines of entries 0..i, entry i last, begin the body |
| Primitives.EntryLinesShape | formatters.py:10-15 | a scalar entry gives one `Key: value` line; a nested entry gives a `Key:` heading and one two-space-indented line per nested entry |
| Primitives.FlatDictLines | formatters.py:6-17 | for a record with only scalar values the report has one line per entry plus banner and rule, line i + 1 showing entry i |
| Primitives.FlatBodyLines | formatters.py:9-15 | for a record with only scalar values the body holds exactly one `Key: value` line per entry, in order |
| Primitives.FormatCells | formatters.py:28-29 | the inner loop gives one `Label: value` cell per declared field, in field order |
| Primitives.FormatItemLines | formatters.py:27-30 | the outer loop gives one numbered line per item, in list order |
| Primitives.FormatListOfDicts | formatters.py:19-32 | `_format_list_of_dicts` returns the banner and the no-data line for an empty list, otherwise banner, item lines and rule, joined by newlines |
| Primitives.ListEmpty | formatters.py:22-24 | an empty list gives only the banner and `Tidak ada data ditemukan.`, with no rule |
| Primitives.ListShape | formatters.py:21-31 | a non-empty list gives exactly one line per item between banner and banner-long rule; line i + 1 is item i numbered i + 1 with its fields' cells joined by ", " |
| Primitives.ListMissingField | formatters.py:29 | a declared field the item lacks appears as `Label: N/A` on that item's line |
| Primitives.ItemLineDependsOnFields | formatters.py:27-30 | an item's line depends only on the values of the declared fields |
| Primitives.ListIgnoresKeyOrder | formatters.py:19-32 | lists of the same dicts, their keys in any order, render identically |
| Primitives.CellsOfTwo | formatters.py:28-29 | two declared fields give their two cells, in declared order |
| Primitives.ListOfOne | formatters.py:21-31 | a one-item list gives the banner, the line of item 1 and the rule |
| Primitives.ProdiLabels | formatters.py:29 | the fields `nama_prodi` and `jenjang_prodi` are labelled `Nama Prodi` and `Jenjang Prodi` |
| Primitives.InformatikaValues | formatters.py:29 | the record `{nama_prodi: Informatika, jenjang_prodi: S1}` gives `Informatika` and `S1` for those fields |
| Primitives.InformatikaCells | formatters.py:28-29 | that record's cells are `Nama Prodi: Informatika` and `Jenjang Prodi: S1` |
| Primitives.InformatikaLine | formatters.py:30 | as item 1 it reads `1. Nama Prodi: Informatika, Jenjang Prodi: S1` |
| Primitives.InformatikaList | formatters.py:19-32 | the list of that one record under `Daftar Program Studi di PT` is the banner, that line and a rule of 34 dashes |
| Profiles.ProfileShape | formatters.py:35-54 | a profile is its banner, one line per table row in table order (label then the field's value or N/A) and a banner-long rule |
| Profiles.ProfileMissingField | formatters.py:41-51 | a field the record lacks shows as its label followed by `N/A` |
| Profiles.ProfileIgnoresOtherKeys | formatters.py:35-54 | records that agree on the table's fields render the same profile; other keys are ignored |
| Profiles.ProfileRowCounts | formatters.py:35-256 | the five profiles show 11, 9, 11, 9 and 5 labelled rows |
| Profiles.LinesOfProfile | formatters.py:39-53 | lines with the banner, each row's labelled value in table order and the rule are the profile's lines |
| Profiles.FormatPtDetails | formatters.py:35-54 | `format_pt_details` gives its not-found message for a missing or empty record, otherwise the university profile |
| Profiles.FormatDosenProfile | formatters.py:140-157 | `format_dosen_profile` gives its not-found message for a missing or empty record, otherwise the lecturer profile |
| Profiles.FormatMahasiswaDetails | formatters.py:202-221 | `format_mahasiswa_details` gives its not-found message for a missing or empty record, otherwise the student profile |
| Profiles.FormatProdiDetails | formatters.py:224-241 | `format_prodi_details` gives its not-found message for a missing or empty record, otherwise the programme profile |
| Profiles.FormatProdiDescription | formatters.py:243-256 | `format_prodi_description` gives its not-found message for a missing or empty record, otherwise the programme description |
| Catalog.BlobReport | formatters.py:68 | a blob report begins with `Data <kind> (base64) diterima. Panjang: `, ends in `...`, and is no longer than its fixed parts, the printed length and 100 snippet characters |
| Catalog.LeadingDigits | formatters.py:68 | the count of leading digits is a prefix of digits followed by a non-digit or the end |
| Catalog.LeadingDigitsOfNumber | formatters.py:68 | the printed length is read back up to the first non-digit |
| Catalog.SnippetRoundTrip | formatters.py:68 | the snippet is recovered from between the fixed middle text and the closing "..." |
| Catalog.NumberedRoundTrip | formatters.py:68 | a number followed by the middle text, a snippet and "..." reads back as that number and snippet |
| Catalog.ReportRoundTrip | formatters.py:68 | a report built from a fixed head, a number, a middle text and a snippet reads back as that number and snippet |
| Catalog.BlobReportRoundTrip | formatters.py:64-68 | a blob report reads back as the blob's length and its snippet; the snippet is the whole blob below 100 characters and its first 100 characters otherwise |
| Catalog.Render | formatters.py:56-535 | a guarded renderer given an empty argument returns exactly its message; in every other case the text opens with the renderer's banner (for a blob reporter, with the blob head) |
| Catalog.Format | formatters.py:56-535 | each thin renderer gives its message on `not data` when guarded, otherwise the report of the generic renderer with its fixed title and fields |
| Catalog.GuardedEmpty | formatters.py:64-66 | a guarded renderer accepts any empty argument (None, an empty dict, list or string) and answers it with exactly its own message |
| Catalog.ProdiPtListEmpty | formatters.py:58-59 | `format_prodi_pt_list` answers any empty argument with `Program Studi tidak ditemukan untuk PT ini.` |
| Catalog.ProdiPtListItems | formatters.py:61-62 | a non-empty programme list is rendered by `_format_list_of_dicts` under `Daftar Program Studi di PT` with its five fields in order |
| Catalog.RasioPtRecord | formatters.py:70-74 | `format_rasio_pt` gives its not-found message for an empty record and the `_format_dict` report under `Rasio Mahasiswa & Dosen` otherwise |
| Catalog.LogoPtBlob | formatters.py:64-68 | `format_logo_pt` renders a non-empty string as the blob report of kind `Logo` |
| Catalog.SearchEmpty | formatters.py:495-513 | a search wrapper accepts any empty argument and shows its banner and the no-data line, with no rule |
| Catalog.NonEmptyDelegates | formatters.py:56-535 | a non-empty argument is rendered by `_format_dict`, `_format_list_of_dicts` or the blob report, with the entry's fixed arguments |
| Catalog.SearchIsList | formatters.py:495-513 | every search wrapper delegates to the list renderer |
| RatioCounter.FormatItem | formatters.py:319-324 | one list item gives its `n. Data:` heading and a three-space-indented line per field, or one line for a non-record item |
| RatioCounter.FormatBlocks | formatters.py:318-324 | the loop over the items gives their blocks in list order, numbered from 1 |
| RatioCounter.FormatPenghitungRatioProdi | formatters.py:307-328 | the not-found message for empty input, numbered blocks between banner and rule for a list, the `_format_dict` report for a record |
| RatioCounter.RatioEmpty | formatters.py:309-310 | the not-found message appears exactly when the argument is empty; otherwise the report opens with the banner |
| RatioCounter.RatioRecordIsDict | formatters.py:328 | a non-empty record is rendered as `_format_dict` renders it under the ratio title |
| RatioCounter.RatioFraming | formatters.py:313-325 | a list report opens with `--- Penghitung Rasio Prodi ---` and closes with 30 dashes, as long as the banner |
| RatioCounter.ItemBlockShape | formatters.py:319-324 | a block is its `n. Data:` heading, then for a record one three-space-indented `Key: value` line per field in field order, or for any other item one indented line with its text |
| RatioCounter.BlocksAppend | formatters.py:318-319 | adding an item appends exactly its block, numbered by its position |
| RatioCounter.BlocksLength | formatters.py:318-324 | the blocks hold one heading per item plus all detail lines |
| RatioCounter.RatioItemPlacement | formatters.py:318-324 | items are rendered in list order: the blocks of items 0..i, item i last and numbered i + 1, begin the listing |
| RatioCounter.BlocksSplit | formatters.py:318-324 | the blocks are those before item i, item i's block, then the rest |
| RatioCounter.BlocksPrefix | formatters.py:318-324 | the blocks of a prefix of the list are a prefix of the blocks |
| RatioCounter.TwoItemListing | formatters.py:313-325 | the list of the records `{jumlah_dosen: 20}` and `{jumlah_mahasiswa: 400}` renders as the banner, `1. Data:`, `   Jumlah Dosen: 20`, `2. Data:`, `   Jumlah Mahasiswa: 400` and a rule of 30 dashes |
| RatioCounter.DosenCountBlock | formatters.py:319-324 | the record `{jumlah_dosen: 20}` as item 1 gives `1. Data:` and `   Jumlah Dosen: 20` |
| RatioCounter.MahasiswaCountBlock | formatters.py:319-324 | the record `{jumlah_mahasiswa: 400}` as item 2 gives `2. Data:` and `   Jumlah Mahasiswa: 400` |
| Search.FormatResult | formatters.py:489-491 | one result gives its `n. ` line and one two-space-indented `Label: value` line per declared field |
| Search.FormatResultBlocks | formatters.py:488-491 | the loop gives the results' blocks in list order, numbered from 1 |
| Search.FormatSearchResults | formatters.py:482-493 | `format_search_results` returns `Tidak ada <title> yang ditemukan.` for an empty list, otherwise banner, result blocks and rule |
| Search.SearchEmpty | formatters.py:484-487 | the not-found message appears exactly when the list is empty; otherwise the text opens with the search banner |
| Search.SearchRuleShorterThanBanner | formatters.py:487-492 | the closing rule has len(title) + 20 dashes, four fewer than the banner's length |
| Search.ResultBlocksLength | formatters.py:488-491 | every result takes one line plus one line per field |
| Search.SearchLineCount | formatters.py:487-492 | a result report has 2 + n * (1 + number of fields) lines |
| Search.ResultBlocksPrefix | formatters.py:488-491 | the blocks of a prefix of the results are a prefix of the blocks |
| Search.ResultBlocksSplit | formatters.py:488-491 | the blocks are those before result i, result i's block, then the rest |
| Search.ResultPlacement | formatters.py:487-491 | result i starts at line 1 + i * (1 + number of fields) with `i+1. `, followed by each declared field's label and value (N/A when missing), in order |
| Search.ResultLinesAt | formatters.py:490-491 | field j of a result is on the block's line j + 1 |

## Left out

- `transcribe_video.py` is not part of this model.
- The `json` and `base64` imports are unused by the renderers and have no counterpart.
- Values reach the model as already-stringified scalars: Python's `str()` of numbers, booleans, `None` and lists is not modelled.
- Records.Str: a nested dict shown inline is rendered in dict-literal shape, but without Python's quotes around inner string values.
- Text.TitleFrom: `str.title()` is modelled on ASCII letters only; other Unicode letters count as non-letters.
- Text.SplitJoinLines: the round trip holds only for lines without embedded newlines; a value holding a newline spreads over several lines, as in the source.
- A `None` list handed to `_format_list_of_dicts` by a search wrapper is modelled as the empty list (both give the no-data lines; a non-empty `None` cannot occur).
- Catalog.Accepts: a non-empty argument of a type other than the declared one is excluded rather than modelled. In most such cases the source raises (a list given to a dict renderer, a string or dict given to a list renderer, a dict given to a blob reporter). A non-empty list given to a blob reporter does not raise: `len` and slicing work on lists, so the report shows the list's length and the repr of its first 100 items; it is excluded as off-type all the same. Any empty argument is accepted wherever `not data` is tested first.
- Catalog.Message: that each not-found message is a single line is not proved.
- RatioCounter.FormatPenghitungRatioProdi: list items that are themselves lists are shown by their string form as any other non-record item; the inner `not data` branch of the list case is unreachable after the outer guard.
- Python dict iteration order is modelled as the order of the entry sequence; duplicate keys are ruled out only where a lemma needs `DistinctKeys`.
