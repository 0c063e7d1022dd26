# monday-email-app: the template, mailer and column-mapping core in Dafny

This project models the deterministic logic of the monday-email-app
service. The service reads an item of a monday.com board, builds an e-mail
from the item's column values, and sends it through Microsoft Graph. It is
built from these parts:

- **Template pipeline** (`src/getData.js`):
  - the `column_values` of the item are normalised into one object keyed by
    column id (`ColumnValues.Normalize`);
  - each configured variable is resolved from that object in a fixed order:
    files, then text, then date, then the whole value (`ColumnValues.Resolve`);
  - `{name}` placeholders are replaced again and again until the text stops
    changing (`Template.ReplaceRecursive`, specified by `Template.Render`);
  - HTML entities in the body are unescaped (`Template.UnescapeHTML`);
  - the address fields are read (`GetData.ExtractEmail`);
  - the attachments are collected, from the item's own files or from the
    files of the items a mirror column links to (`GetData.GetAssets`);
  - the item fetch is memoised per pulse in a cache (`GetData.MondayCache`).
- **Mailer** (`src/mailer.js`): recipients are split on commas and trimmed.
  The Graph message gets its defaults. The stored OAuth token record is
  refreshed in place, and the send follows a probe-then-refresh-once rule.
- **Column-mapping configuration**:
  - the DynamoDB store (`MappingUtils`) and the Firestore store
    (`MappingFirestore`) both normalise a request with `''`/`[]` defaults
    under the key `boardId-<id>`;
  - the file-based configuration (`MappingVariables`) lists each board's
    variables with the titles of its columns and writes updated board
    entries;
  - the older, flat variable listing is modelled as `FlatVariables`.
- **Request guard** (`src/middlewares/validateToken.js`): the second word of
  the `Authorization` header must equal the stored access token
  (`ValidateToken`).

Modules:

- `Js`: the JavaScript values the code handles, with truthiness,
  `String(x)` and property reads.
- `Text`: `split`, `join`, `trim` and `replace` with a global pattern.
- `Template`, `ColumnValues`, `GetData`: `src/getData.js`.
- `Mailer`: `src/mailer.js`.
- `ColumnMapping`: the record and key shared by the two stores.
- `MappingUtils`, `MappingFirestore`, `MappingVariables`, `FlatVariables`: the
  four `src/utils` files.
- `ValidateToken`: the request guard.

Network calls are inputs:

- the monday.com GraphQL answers arrive already parsed (`ItemsResponse`,
  `AssetItem`, …);
- the identity provider and Graph are function parameters: a probe that
  accepts or rejects a token, a refresh outcome, a send outcome, a profile;
- whether a database call fails is a boolean parameter (`saveOk` for the
  two token writes). A failing read of the token document is an absent
  document, since both end in `Error al leer los tokens.`;
- `JSON.parse` is a parameter `parse: string -> Option<JsValue>`, where `None`
  means it throws.

State the source changes in place is modelled as classes:

- the cache map (`GetData.MondayCache.entries`);
- the `default` token document (`Mailer.TokenStore.doc`);
- the Firestore collection (`MappingFirestore.MappingStore.docs`).

The loops of the source are methods proved against functions:
`ReplaceRecursive`, `CollectMirrorAssets` and `GetAttachmentColumns`.

Where the descriptive documentation and the code differ, the model follows
the code:

- the token store holds a single `default` document, not one per board;
- the Dynamo `getColumnMapping` returns the stored item, whose `boardId` is
  the prefixed key. A miss returns the bare id.

## Model

| member | source | states |
|---|---|---|
| Text.Split | src/mailer.js:192 | `split(',')` gives one more piece than there are separators, and no piece holds the separator |
| Text.JoinSplit | src/mailer.js:192 | joining the pieces of a split with the separator gives back the input: splitting loses nothing |
| Text.SplitJoin | src/mailer.js:192 | splitting a join of separator-free pieces gives back the pieces |
| Text.Trim | src/mailer.js:193 | `trim()` returns a slice of the input with only white space cut off either end, and the result neither starts nor ends with white space |
| Text.TrimIdempotent | src/mailer.js:193 | trimming twice is trimming once |
| Text.TrimAbsent | src/mailer.js:193 | trimming adds no character, so an address cut from a comma-free piece holds no comma |
| Text.ReplaceCharIsSplitJoin | src/getData.js:123 | replacing every `\n` is splitting on it and joining with `<br>` |
| Text.ReplaceCharRemoves | src/getData.js:123 | after replacing every `\n` by a text free of `\n`, none remains |
| Text.ReplaceAfterPrefix | src/getData.js:117-123 | a global replace leaves a prefix without the pattern's first character untouched and goes on after it |
| Text.ReplaceAbsent | src/getData.js:117-123 | a global replace of a pattern that does not occur changes nothing |
| Text.ReplaceAll | src/getData.js:117-123 | a literal global `replace`; its meaning is carried by `ReplaceCharIsSplitJoin`, `ReplaceCharRemoves`, `ReplaceAfterPrefix` and `ReplaceAbsent` above |
| Template.FindClose | src/getData.js:132 | the lazy `\{(.*?)\}` match from a `{` ends at the first `}` with no line terminator before it, and there is none when every later `}` has a line terminator before it |
| Template.ScanRoundTrip | src/getData.js:131-134 | splitting a text into copied characters and `{name}` matches loses nothing: the pieces reassemble into the text |
| Template.ScanHoleNames | src/getData.js:132 | a matched name holds neither `}` nor a line terminator |
| Template.Scan | src/getData.js:131-134 | the left-to-right matches of `/\{(.*?)\}/g`; `ScanRoundTrip` and `ScanHoleNames` state that nothing is lost and what a match holds |
| Template.Substitute | src/getData.js:133 | the replacer `variables[variable] ?? {variable}`; `PassUnbound` and `PassDoubles` state its effect on a pass |
| Template.Pass | src/getData.js:131-134 | one global replace; `PassUnbound` (unbound names change nothing) and `PassDoubles` state what it does |
| Template.PassUnbound | src/getData.js:133 | placeholders whose names are missing or nullish in `variables` stay verbatim (the `?? {variable}` fallback), so a pass over such a text changes nothing |
| Template.RenderFixedPoint | src/getData.js:126-138 | whatever the loop returns is a fixed point: one more pass changes nothing |
| Template.RenderMoreFuel | src/getData.js:129-135 | once the pass bound suffices, a larger bound gives the same answer, so the bound does not change the result |
| Template.RenderIdempotent | src/getData.js:126-138 | rendering a rendered text again settles after one pass and gives the same text |
| Template.Render | src/getData.js:126-138 | the first text a pass leaves unchanged, within `fuel` passes; `RenderFixedPoint`, `RenderMoreFuel`, `RenderIdempotent` and `ReplaceRecursive` state its properties |
| Template.ReplaceRecursive | src/getData.js:126-138 | the do/while loop returns `Render(text, vars, fuel)`: the first text a pass leaves unchanged, which is a fixed point, or nothing when `fuel` passes do not settle |
| Template.PassDoubles | src/getData.js:131-134 | with `a` bound to `{a}{a}`, one pass turns k copies of `{a}` into 2k copies |
| Template.SelfGrowingNeverSettles | src/getData.js:129-135 | with that binding, no bound on the passes is enough: the loop as written does not terminate |
| Template.RenderExample | src/getData.js:126-138 | `{a}-{b}` with a = `x` and b = `{a}` renders to `x-x` in three passes, substituting inside substituted text |
| Template.UnescapeHTML | src/getData.js:115-124 | an empty text gives `''`, and the result holds no line feed |
| Template.UnescapeOnce | src/getData.js:117-122 | each entity is replaced once and in order: `&amp;lt;` gives `&lt;`, not `<` |
| Template.UnescapeLineBreak | src/getData.js:117-123 | `a &amp; b` followed by a line feed gives `a & b<br>` |
| Template.UnescapePlain | src/getData.js:115-124 | a text with no `&` and no line feed comes back unchanged: none of the six replaces finds anything |
| ColumnValues.NormalizeColumn | src/getData.js:217-233 | only a column that is neither text nor mirror/board_relation/formula, has a value, and whose value fails to parse throws, and then a `SyntaxError`; such a column whose value parses becomes the parsed value, and one without a value becomes null |
| ColumnValues.NormalizeFrom | src/getData.js:215-235 | the reduce only throws a `SyntaxError`, and never drops a key it already holds; `NormalizeOkIff`, `NormalizeKeys`, `NormalizeLastWins` and `NormalizeUntouched` state the rest |
| ColumnValues.Normalize | src/getData.js:215-235 | the reduce started from `{}`; its properties are those of `NormalizeFrom` and the lemmas below |
| ColumnValues.NormalizeOkIff | src/getData.js:215-235 | the reduce fails exactly when some non-null column fails to parse |
| ColumnValues.NormalizeKeys | src/getData.js:215-235 | null entries are skipped: the keys are exactly the ids of the non-null columns |
| ColumnValues.NormalizeLastWins | src/getData.js:215-235 | each id holds what its last column normalises to |
| ColumnValues.NormalizeUntouched | src/getData.js:215-235 | the reduce leaves entries for other ids as they were |
| ColumnValues.RawText | src/getData.js:237 | `columnValues[id]?.text \|\| ''`: a truthy `text` of the column's entry is returned, and `''` when that is falsy or the column is missing |
| ColumnValues.MissingColumnNoText | src/getData.js:237 | a column the item does not have gives `''` |
| ColumnValues.TextColumnText | src/getData.js:219-237 | a text column's text is its parsed value, or its raw value when the parse throws |
| ColumnValues.DisplayColumnText | src/getData.js:225-237 | a mirror, board-relation or formula column's text is its `display_value` |
| ColumnValues.OtherColumnText | src/getData.js:227-237 | any other column with a value (a `long_text` subject or body, say) parses, and its text is the parsed value's truthy `text`, or `''` |
| ColumnValues.FileNames | src/getData.js:91-92 | `files.map((file) => file.name)` throws on a nullish file and otherwise keeps one name per file, in order |
| ColumnValues.Resolve | src/getData.js:84-103 | one variable's value: only a `TypeError` is thrown, and never for the `name` column or a missing column; `ResolveOk`, `ResolveNameAndMissing`, `FilesFirst` and `TextThenDate` state each branch |
| ColumnValues.ResolveFrom | src/getData.js:81-108 | the reduce only throws a `TypeError` and never drops a key it already holds; `VariablesOkIff`, `VariablesKeys`, `VariablesLastWins` and `VariablesUntouched` state the rest |
| ColumnValues.VariablesValues | src/getData.js:81-112 | `variablesValues` is the reduce started from `{}`; its properties are those of `ResolveFrom` and the lemmas below |
| ColumnValues.VariablesOkIff | src/getData.js:81-108 | `variablesValues` fails exactly when some entry fails to resolve |
| ColumnValues.ResolveOk | src/getData.js:89-100 | an entry resolves when its column value is falsy, an array, or an object whose non-empty `files` list is an array of non-nullish files |
| ColumnValues.VariablesOk | src/getData.js:81-108 | when every column value can be resolved, `variablesValues` succeeds |
| ColumnValues.PrimitiveThrows | src/getData.js:94 | a truthy primitive column value makes `'text' in` throw |
| ColumnValues.VariablesKeys | src/getData.js:81-108 | the result has one key per `variableName` of the mapping and no other |
| ColumnValues.VariablesLastWins | src/getData.js:82-107 | each name holds what the last entry naming it resolves to |
| ColumnValues.VariablesUntouched | src/getData.js:82-107 | names the mapping does not mention keep their value |
| ColumnValues.ResolveNameAndMissing | src/getData.js:84-103 | column `name` gives the item name, or `{variableName}` when the name is empty; a missing or falsy column gives `{variableName}` |
| ColumnValues.FilesFirst | src/getData.js:90-93 | a non-empty `files` list wins and gives the file names joined with `, ` |
| ColumnValues.TextThenDate | src/getData.js:94-99 | otherwise a present `text` wins (even `''`), then a present `date`, then the whole value |
| ColumnValues.JoinStrings | src/getData.js:93 | `join(', ')` of string names is the plain join of the names |
| GetData.FirstItem | src/getData.js:62-73 | the response must have a non-null first item; otherwise it is an error with the source's message |
| GetData.RenderColumn | src/getData.js:215-243 | the shared `try` body throws when the columns do not normalise, and otherwise gives `Render` of the column's raw text with the resolved variables, which requires that text to be a string |
| GetData.GetSubject | src/getData.js:207-251 | an error in the fetch or the `try` body gives the subject `''`; otherwise the rendered subject |
| GetData.GetBodyEmail | src/getData.js:253-297 | an error in the fetch or the `try` body gives the body `''`, and no body holds a line feed |
| GetData.MondayCache.FetchMondayData | src/getData.js:11-79 | a cached pulse returns the cached item and changes nothing; otherwise the first item of the response is returned and cached, and an error caches nothing |
| GetData.BodyIsUnescapedSubject | src/getData.js:281-289 | the body is the subject's rendering followed by `unescapeHTML`: unescaping applies to the body only |
| GetData.BodyHasNoLineFeed | src/getData.js:289 | a rendered body holds no line feed |
| GetData.MissingColumnRendersEmpty | src/getData.js:237 | a subject or body column the item lacks renders as `''` |
| GetData.SubjectIsSettled | src/getData.js:240-243 | an accepted subject is a fixed point of one more substitution pass |
| GetData.FindColumn | src/getData.js:182 | `find` gives the first column with the id, and none exactly when every entry is a column with another id; it throws a `TypeError` exactly when it reaches a null entry before any match |
| GetData.ExtractEmail | src/getData.js:181-194 | throws a `TypeError` exactly when `find` reaches a null entry; otherwise no column with the id gives `''`, and a non-empty result is the `display_value` of a mirror column or the `text` of an email column with that id |
| GetData.ExtractEmailFirstMatch | src/getData.js:181-194 | taking the first column with the id, with only columns of other ids before it: mirror gives `display_value \|\| ''`, email gives `text \|\| ''`, any other type `''` |
| GetData.GetEmails | src/getData.js:140-200 | a nullish `emailsMapping` throws a `TypeError` before anything else; no items gives the source's error; a null first item throws; otherwise it succeeds exactly when the three extractions do, with their addresses, and every other error is a `TypeError` |
| GetData.GetEmailsNoNulls | src/getData.js:140-200 | with a mapping and a first item whose entries are all columns, `getEmails` does not throw |
| GetData.IsMirrorFile | src/getData.js:328-334 | holds exactly when some mirrored value has `__typename` `FileValue` |
| GetData.AnyFileValue | src/getData.js:328-334 | `some` holds exactly when some mirrored value has `__typename` `FileValue` |
| GetData.AssetIds | src/getData.js:433-436 | one `String(assetId)` per file, in order, and an error on a nullish file |
| GetData.FilterAssets | src/getData.js:435-437 | the kept assets are exactly those of the item whose id is among the file ids |
| GetData.FilterAssetsAppend | src/getData.js:435-437 | the filter preserves order: it distributes over concatenation |
| GetData.FilterAssetsAll | src/getData.js:435-437 | when every asset is referenced, the filter keeps them all |
| GetData.NativeAssets | src/getData.js:430-438 | a value that does not parse gives `SyntaxError`, exactly; a `files` that is not an array, or a nullish file, gives `TypeError`; otherwise the item's assets filtered by the files' `String(assetId)`s, or `undefined` when the item has no assets |
| GetData.NativeAssetsWithoutValue | src/getData.js:430-438 | a file column without a value stands for `{ files: [] }` and selects none of the item's assets |
| GetData.FilterAssetsNone | src/getData.js:435-437 | filtering by no id keeps no asset |
| GetData.LinkedAssets | src/getData.js:398-421 | the assets of one mirrored item, `[]` without an id; carried by `MirrorAssetsMembers` |
| GetData.MirrorAssets | src/getData.js:395-423 | the mirrored assets of all links in order; `MirrorAssetsAppend`, `MirrorAssetsMembers` and `CollectMirrorAssets` state its properties |
| GetData.MirrorAssetsAppend | src/getData.js:395-423 | the mirrored assets of a list of links are those of each link, concatenated in order |
| GetData.MirrorAssetsMembers | src/getData.js:395-423 | an asset is collected exactly when some linked item has it |
| GetData.CollectMirrorAssets | src/getData.js:392-425 | the loop over the mirrored items returns `MirrorAssets` of their links |
| GetData.GetAssets | src/getData.js:380-439 | a mirror column that mirrors files gives the linked items' assets, anything else gives the native filter |
| GetData.FileColumns | src/getData.js:539-554 | kept columns are exactly the file columns and the mirror columns that mirror files |
| GetData.FileColumnsAppend | src/getData.js:539-554 | the filter keeps board order |
| GetData.GetAttachmentColumns | src/getData.js:519-556 | a board with no item gives the source's error; otherwise the loop returns `FileColumns` of the board's columns, asking about mirrors for the first item |
| Mailer.FormatRecipients | src/mailer.js:190-195 | a missing or empty list gives no recipient; otherwise k commas give k+1 recipients, each the trimmed piece in order |
| Mailer.TrimAll | src/mailer.js:192-194 | one trimmed address per piece, in order |
| Mailer.TrimAllKeeps | src/mailer.js:192-194 | trimming leaves clean addresses unchanged |
| Mailer.FormatRecipientsJoin | src/mailer.js:190-195 | formatting the comma-joined list of clean addresses gives back exactly those addresses, empty ones included |
| Mailer.FormatRecipientsPieces | src/mailer.js:190-195 | the untrimmed pieces rejoin to the input, and every formatted address is clean (no comma, no white space at either end) |
| Mailer.Attachments | src/mailer.js:198-202 | one attachment per path, in order, named by the name at the same index (`undefined` past the end of the names); no path list, or paths without a name list, throws |
| Mailer.OrDefault | src/mailer.js:207-210 | `x \|\| fallback` is the given text when it is non-empty and the fallback otherwise, and never empty when the fallback is not |
| Mailer.BuildMessage | src/mailer.js:205-217 | subject `Sin Asunto` and content `Sin contenido` replace empty ones, `contentType` is always `HTML`, given texts are kept, the three recipient lists are formatted from `send_to`, `copy_to`, `hidenCopy_to`, attachments carried |
| Mailer.WithNewTokens | src/mailer.js:131-134 | a refresh assigns only `access_token` and `refresh_token`; every other field is unchanged |
| Mailer.ProfileEmail | src/mailer.js:25 | `mail`, falling back to `userPrincipalName` when `mail` is falsy |
| Mailer.ExchangeRecord | src/mailer.js:69-74 | the stored record holds the token triple and the profile's four fields, with the profile's e-mail |
| Mailer.RefreshKeepsProfile | src/mailer.js:131-134 | refreshing a record made by the code exchange keeps its keys, e-mail, names and `expires_in` |
| Mailer.ExchangeErrorText | src/mailer.js:89-93 | the thrown message is never empty: `error_description`, else the message, else `Error desconocido` |
| Mailer.TokenCalls | src/mailer.js:173-187 | the provider requests before the send; `OneRefreshAtMost` states their order and number |
| Mailer.Bearer | src/mailer.js:173-187 | the token the send uses as written; `RefreshFailureBecomesBearer` and `SaveFailureBecomesBearer` state where it comes from |
| Mailer.OneRefreshAtMost | src/mailer.js:173-187 | the token probe comes first; an accepted probe makes no refresh, a rejected one exactly one |
| Mailer.RefreshFailureBecomesBearer | src/mailer.js:182-186 | as written, a failed refresh's error payload becomes the bearer token of the send |
| Mailer.SaveFailureBecomesBearer | src/mailer.js:128-142 | as written, a failed write of the renewed tokens makes `Error al guardar los tokens.` the bearer token of the send; a successful one makes it the new access token |
| Mailer.Deliver | src/mailer.js:198-235 | a failing attachment mapping sends nothing; otherwise one send of the built message, and its outcome returned |
| Mailer.TokenStore.GetNewAccessToken | src/mailer.js:98-144 | a refresh failure returns the error payload and writes nothing; a missing record returns `Error al leer los tokens.`; a failing write returns `Error al guardar los tokens.` and changes nothing; otherwise the new access token is returned and the record stored with only the two tokens changed |
| Mailer.TokenStore.SendEmailWithGraph | src/mailer.js:147-243 | no record or no `email` fails before any probe or send; otherwise probe, at most one refresh, the record updated only on a refresh whose write succeeds, then one send with `Bearer(...)` |
| Mailer.TokenStore.SendEmailWithGraphGuarded | src/mailer.js:173-187 | corrected: a failed refresh ends the call with its payload and a failed token write with `Error al guardar los tokens.`, with no send and no write; otherwise the record is kept (probe accepted) or updated with the two new tokens, and exactly one send of the built message goes out with the accepted or renewed token, its outcome returned (none when the attachment mapping fails) |
| Mailer.TokenStore.ExchangeCodeForTokens | src/mailer.js:38-95 | a failed exchange, profile read or token write throws (the write with `Error al guardar los tokens.`) and writes nothing; otherwise the merged record is stored and the tokens with the profile's e-mail returned |
| ColumnMapping.OrEmpty | src/utils/mappingUtils.js:11-17 | `x \|\| ''` keeps a truthy value and replaces a falsy one by `''` |
| ColumnMapping.OrList | src/utils/mappingUtils.js:18 | `x \|\| []` is always truthy and keeps a truthy value |
| ColumnMapping.Normalize | src/utils/mappingUtils.js:10-18 | building the record throws exactly when `mappingData` is nullish |
| ColumnMapping.NormalizeIsNormal | src/utils/mappingUtils.js:10-18 | every field is the request's truthy value, or its default when falsy: `''` for `subject`, `bodyTemplate` and `attachments`, `[]` for `variables`; each address is `emails?.<field> \|\| ''`, so `''` when `emails` is missing or its entry falsy |
| ColumnMapping.NormalizeIdempotent | src/utils/mappingUtils.js:10-18 | normalising an already normalised record changes nothing |
| ColumnMapping.NormalizeNormal | src/utils/mappingUtils_firestore.js:6-16 | a record in normal form is its own normalisation |
| ColumnMapping.DefaultIsEmptyRequest | src/utils/mappingUtils.js:40-48 | the default of a miss is the normalisation of an empty request |
| ColumnMapping.DocumentKey | src/utils/mappingUtils.js:9 | the key is `boardId-` followed by the board id |
| ColumnMapping.DocumentKeyInjective | src/utils/mappingUtils_firestore.js:20 | distinct boards get distinct keys |
| MappingUtils.SaveColumnMapping | src/utils/mappingUtils.js:5-29 | a nullish `mappingData` escapes as a `TypeError`, a failing put gives `Error al guardar el mapping.`, a success adds the board's key |
| MappingUtils.GetColumnMapping | src/utils/mappingUtils.js:32-55 | a failing read gives `Error al leer el mapping.`; a miss returns the default with the board id as given; a hit returns the stored fields |
| MappingUtils.SaveThenGet | src/utils/mappingUtils.js:32-50 | reading a board after saving it returns the normalised request, under the prefixed id |
| MappingUtils.SaveKeepsOtherBoards | src/utils/mappingUtils.js:9-23 | saving a board leaves what every other board reads unchanged |
| MappingUtils.SaveOverwrites | src/utils/mappingUtils.js:23 | a second save of a board replaces the first |
| MappingUtils.HitAndMissBoardIds | src/utils/mappingUtils.js:41-50 | a board never saved reads back with its own id, a saved one with `boardId-<id>` |
| MappingFirestore.ReadView | src/utils/mappingUtils_firestore.js:61-70 | a stored document is returned with the board id as given and `variables \|\| []`; a normal document comes back unchanged |
| MappingFirestore.MappingStore.SaveColumnMapping | src/utils/mappingUtils_firestore.js:4-28 | a success replaces exactly the board's document by the normalised request and returns `Mapping saved successfully`; a nullish request or a failing write gives `Error al guardar el mapping.` and writes nothing; every document stays normal |
| MappingFirestore.MappingStore.GetColumnMapping | src/utils/mappingUtils_firestore.js:31-75 | a stored document is returned as stored; a missing one is created with the default fields and the default returned; a failing read or write gives `Error al leer el mapping.` |
| MappingFirestore.SaveThenReadTwice | src/utils/mappingUtils_firestore.js:61-70 | a save then two reads return the normalised request twice, under the board id as given |
| MappingFirestore.ReadMissTwice | src/utils/mappingUtils_firestore.js:38-58 | two reads of a board never saved return the same default, and the store ends holding the default document for it |
| MappingVariables.BoardOf | src/utils/mappingVariables.js:22-31 | the board's entry, or the default with empty fields and no variables |
| MappingVariables.FindTitle | src/utils/mappingVariables.js:38 | `find` gives the title of the first column with the id, and none exactly when no column has it |
| MappingVariables.FormatVariables | src/utils/mappingVariables.js:36-47 | one report per variable entry, in entry order, with `variableName = key` and `columnId = id` |
| MappingVariables.GetVariablesFrom | src/utils/mappingVariables.js:18-62 | a failed fetch is rethrown with the source's prefix; otherwise `boardId`, `emails`, `subject` and `bodyTemplate` are echoed and the variables formatted |
| MappingVariables.GetVariablesAsWritten | src/utils/mappingVariables.js:18-62 | as written: a failed fetch is rethrown with the prefix, otherwise the board id is echoed; `AsWrittenTitlesNotFound` states the titles |
| MappingVariables.GetVariables | src/utils/mappingVariables.js:18-62 | corrected: the same error and echo, with titles looked up in the fetched columns; `CorrectedTitles` states the titles |
| MappingVariables.AsWrittenTitlesNotFound | src/utils/mappingVariables.js:38-44 | as written, every variable's title is `Title not found (original: <title>)`, whatever columns the board has |
| MappingVariables.AsWrittenMissesExistingColumn | src/utils/mappingVariables.js:38-44 | a board whose column exists: as written it is reported not found, the corrected lookup gives its title |
| MappingVariables.CorrectedTitles | src/utils/mappingVariables.js:36-47 | corrected: each variable reports the title of the first column with its id, and the not-found text exactly when there is none |
| MappingVariables.UnknownBoardIsEmpty | src/utils/mappingVariables.js:22-55 | a board not in the file reports empty texts and no variables |
| MappingVariables.UpdateVariables | src/utils/mappingVariables.js:64-95 | a nullish request or a failing write gives the source's error; otherwise the reply is `Mapping updated successfully`, top-level keys are kept and the board is added |
| MappingVariables.UpdateThenGet | src/utils/mappingVariables.js:66-77 | reading the written file, the board reports the request's `emails`, `subject`, `bodyTemplate` and its variables in order |
| MappingVariables.UpdateKeepsOtherBoards | src/utils/mappingVariables.js:66-77 | every other board is unchanged, and the request's `attachments` has no effect |
| MappingVariables.UpdatesDoNotAccumulate | src/utils/mappingVariables.js:66-69 | every update starts from the configuration loaded at start-up, so a second update brings back the earlier board's original entry |
| FlatVariables.FindValueTitle | src/utils/getVariables.js:20-22 | the column title of the first column value with the id, and none exactly when there is none |
| FlatVariables.FormatEntry | src/utils/getVariables.js:12-31 | `name` keeps its configured title; any other key throws when `items` is absent, otherwise keeps the key and id |
| FlatVariables.FormatAll | src/utils/getVariables.js:11-32 | the `map` throws exactly when some entry throws, else gives one report per entry, in order |
| FlatVariables.GetFlatVariables | src/utils/getVariables.js:4-42 | a configuration without top-level `variables` throws; otherwise `emails`, `subject` and `bodyTemplate` are copied and the variables formatted |
| FlatVariables.GetFlatVariablesAsWritten | src/utils/getVariables.js:4-42 | as written: a failed fetch is rethrown unchanged; `AsWrittenThrowsOnColumns` states when the rest throws |
| FlatVariables.AsWrittenThrowsOnColumns | src/utils/getVariables.js:20 | as written, on the column array `getColumnsList` returns, the call throws exactly when some key is not `name` |
| FlatVariables.NestedConfigThrows | src/utils/getVariables.js:5-11 | with the variables nested under `boards`, as in the shipped configuration, the call always throws |
| FlatVariables.FlatTitles | src/utils/getVariables.js:13-30 | given the item's column values: `name` keeps its title; another key takes the first item's matching `column.title`, or the not-found text when the item is missing or has no value with the id |
| ValidateToken.ClientToken | src/middlewares/validateToken.js:5 | the client token is the second word of the header split on `' '`, present exactly when the header has a non-empty second word |
| ValidateToken.BearerHeader | src/middlewares/validateToken.js:5 | the token of `<scheme> <token>` is the token |
| ValidateToken.OneWordHeader | src/middlewares/validateToken.js:5-9 | a header of one word carries no token |
| ValidateToken.Decide | src/middlewares/validateToken.js:3-25 | 401 exactly when there is no client token; 500 exactly when a token is given and reading the store fails; `next` exactly when the token equals the stored `access_token` |
| ValidateToken.DecideAsWritten | src/middlewares/validateToken.js:13-17 | as written the guard answers only 401 or 403 |
| ValidateToken.AsWrittenNeverPasses | src/middlewares/validateToken.js:13-20 | as written no request reaches `next`: any client token gets 403 |
| ValidateToken.AwaitedBearerPasses | src/middlewares/validateToken.js:13-20 | with the store awaited, `Bearer <stored token>` passes and any other token gets 403; as written the same header gets 403 |

## Left out

- Network, SDK and file access: `fetch` to monday.com, `axios` to Graph and the login endpoint, DynamoDB, Firestore, `fs`. Their answers are parameters. Building the GraphQL query strings is not modelled.
- `getColumnsMirror`, `getColumnsList` and `getFirstPulseId` (`src/getData.js`): only their results are used. Mirror detection is the `IsMirrorFile` test on the `mirrored_items` a mirror query returns. The column list and the item ids are inputs.
- Asynchrony. Only the effect of the missing `await` in `validateToken` is modelled; the unhandled rejection of that promise is not.
- Attachment content: the file read and base64 encoding of `src/mailer.js:201`, and the file contents and formatting written by `updateVariables` (`src/utils/mappingVariables.js:79-88`). An attachment is its name and path, and the written file is the new configuration value.
- `JSON.parse`: an abstract parser. `JSON.stringify` round trips of the configuration file, which drop `undefined` fields, are not modelled.
- Template.ReplaceRecursive: the source loops forever when no pass settles (`Template.SelfGrowingNeverSettles` shows such an input). The model stops after `fuel` passes and returns `None`.
- Property names inherited through the prototype (`constructor`, `__proto__`, …) in `variables[variable]`, `columnValues[columnId]` and `columnMapping.boards[boardId]`: the objects are modelled as maps of own properties.
- ColumnValues.Resolve: a `files` value that is an object with its own `length` is not modelled: an object `files` is treated as having no `length`.
- Engine error messages: a `TypeError` or `SyntaxError` thrown by the JavaScript engine is modelled by its bare name, not its message text. So `UpdateVariables` returns `Error al actualizar el mappingColumns: TypeError`, and `SendEmailWithGraph` returns `Str("TypeError")`, where the source carries the engine's message.
- Object.entries order for integer-like keys: a board's variables are listed in the order given.
- A variable entry whose value is not an object `{ id, title }` (whose destructuring would throw) is not modelled.
- Recipient fields and subject/body fields that are not strings are not modelled.
- MappingFirestore.MappingStore: a document written by other code than the two calls (one with missing fields) is not modelled. The store keeps every document in normal form.
- Logging (`console.*`) and the HTTP layer: response objects, status codes as numbers, `res.json`.

## Findings

| source | as written | input that shows it | evidently intended | confidence | as-written member | corrected member |
|---|---|---|---|---|---|---|
| src/mailer.js:137-186 | `getNewAccessToken` returns the error payload on failure, and `sendEmailWithGraph` uses whatever it returns as the bearer token | a stored token the probe rejects, and a refresh that fails: the send goes out with the error payload as its token | a failed refresh ends the send with the error and no Graph call | not executed | Mailer.RefreshFailureBecomesBearer | Mailer.TokenStore.SendEmailWithGraphGuarded |
| src/mailer.js:128-142 | `saveTokens` throws `Error al guardar los tokens.` on a failed write; `getNewAccessToken` returns that message, and `sendEmailWithGraph` sends with it as the bearer token | a stored token the probe rejects, a refresh that succeeds and a failing write: the send goes out with `Error al guardar los tokens.` as its token | a failed write ends the send with the error and no Graph call | not executed | Mailer.SaveFailureBecomesBearer | Mailer.TokenStore.SendEmailWithGraphGuarded |
| src/middlewares/validateToken.js:13 | `readTokens()` is asynchronous and not awaited, so `access_token` is read off a pending promise and is `undefined` | header `Bearer T` with `T` the stored access token: 403 | the awaited record's `access_token` is compared, so `Bearer T` calls `next` | not executed | ValidateToken.AsWrittenNeverPasses | ValidateToken.AwaitedBearerPasses |
| src/utils/mappingVariables.js:38 | `dataColumns.columns?.find(...)` reads `columns` off the array `getColumnsList` returns (src/getData.js:473), which has no such property | a board whose variable `v` has id `c` and whose columns include `c` titled `Title`: reported `Title not found (original: T)` | the column array itself is searched, giving `Title` | not executed | MappingVariables.AsWrittenMissesExistingColumn | MappingVariables.CorrectedTitles |
| src/utils/getVariables.js:20 | `dataColumns.items[0]` reads `items` off the column array `getColumnsList` returns, so `undefined[0]` throws | a configuration with any variable other than `name` | the column values of an item are searched | not executed | FlatVariables.AsWrittenThrowsOnColumns | FlatVariables.FlatTitles |
