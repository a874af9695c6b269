# ImagelabelReviewer — a Dafny model of the review back end and pager

ImagelabelReviewer is a Next.js application for reviewing labelled crop images.
The images and their labels live in a paged key/value table (DynamoDB), and
the image files live in an object store (S3). This project models, in Dafny,
the parts of the application that decide things:

* **`GET /api/images`** (`Images`, `Params`, `Filters`, `Cursor`). It
  - reads the page size (`limit`, clamped from above only), the opaque
    cursor, and the crop and farmer selections (crop is trimmed and
    lower-cased, farmer is only trimmed);
  - builds the tri-state pest/disease/gold filter;
  - picks one of four read strategies;
  - for farmer *and* crop, keeps fetching farmer-index pages of 200,
    collecting the rows of the crop, until it has `limit` of them or no key is
    left;
  - projects each row to an item with explicit defaults and signs each
    item's URL;
  - hands out the last key as a base64url cursor.
* **The cursor codec** (`Cursor`, with `Json`, `Utf8` and `Base64Url`).
  `encodeCursor` is `JSON.stringify`, then UTF-8 bytes, then base64url
  (RFC 4648, section 5, no padding). `decodeCursor` is Node's lenient
  base64url decoder, UTF-8 decoding with replacement characters, then
  `JSON.parse` (read into a tree of JSON lexemes), where any failure gives
  `undefined`.
* **`GET /api/stats`** (`Stats`). It uses the same selections and the pest
  and disease filter (never gold). It walks every page of the chosen read to
  exhaustion and counts `total` and `verified` (`isGoldStandard === true`). A
  crop check is made in code on the farmer index.
* **`GET /api/farmers`** (`Farmers`). It scans the whole table and folds each
  record into a map from trimmed farmer name to `{total, verified}` and into
  overall counters. Records with an empty name are skipped. It then sorts the
  entries by name.
* **`PUT /api/images/update`** (`Update`). It checks the cookie, the session
  and the id (`body.id ?? body.key`). Each field is taken only when it has
  the right type. A `Builder` class holds `exprNames`, `exprValues` and
  `sets`, and its `SetString`/`SetBool` methods fill them step by step.
  The update time is always set; the updater only when the session has a
  string email.
* **The route gate** (`Proxy`): path and token presence decide between
  pass, redirect to `/login`, and 401.
* **The reviewer page** (`Reviewer`), the non-rendering parts of
  `app/page.tsx`:
  - the `URLSearchParams` builder of `fetchPage` and the item normalisation;
  - a `Pager` class holding `images`, `index`, `nextCursor`, `pageLoading`,
    `editable`, `dirty` and `direction`, whose methods are `fetchPage`, the
    filter-change reload, `updateField`, `goPrev` and `goNext`;
  - `isAlphabetOnly` and the validation gate of `saveChanges`.

The table is abstract (`Store`). A `fetch: Request -> Response` answers a
request with a page of records and an optional continuation key, or fails. A
`measure` on requests must strictly decrease whenever a truthy key is handed
out (`Store.Progress`); this is what makes every "fetch until no key" loop
terminate. `Store.Walk` is the concatenation of every page of such a loop.

Imperative code stays imperative. The following are methods whose `ensures`
tie them to a specification function, with the promised properties proved
about that function:
- the farmer-and-crop loop, the stats loops and the farmer scan, as `while`
  and `for` loops;
- the filter and update builders;
- the query-string builder;
- the pager state changes.

JavaScript's own semantics are modelled where the routes depend on them:
- `Number(string)` over NaN, ±Infinity and finite reals, and `Math.min`;
- the `slice` end;
- ECMAScript white space for `trim`;
- `toLowerCase` (ASCII letters);
- `??`, `!!` and `=== true` on unmarshalled attribute values.

Where the specification and the code disagree, the model follows the code:
- The farmer value `"all"` means "every farmer" only in lower case, because
  the farmer is trimmed but not lower-cased (`Params.FarmerAllIsCaseSensitive`).
  `" ALL "` is a farmer query for the farmer "ALL". The crop is lower-cased,
  so there `"ALL"` does mean every crop.
- On the scan path of `/api/stats`, the in-code farmer and crop checks can
  never reject a row. The scan is chosen only when neither a farmer nor a
  crop is in use (`Stats.ScanCountsEveryRow`).
- The "No allowed fields to update" answer cannot happen, because
  `lastUpdatedAt` is always set (`Update.PutOutcomes`).

## Model

| member | source | states |
|---|---|---|
| `Cursor.EncodeCursor` | app/api/images/route.ts:16-19 | no cursor exactly for a falsy key; otherwise every character is in the URL-safe alphabet |
| `Cursor.DecodeCursor` | app/api/images/route.ts:20-21 | a missing or empty cursor selects no start key |
| `Cursor.CursorRoundTrip` | app/api/images/route.ts:16-27 | every truthy key the store can return decodes back from its cursor unchanged |
| `Cursor.EncodedCursorNonEmpty` | app/api/images/route.ts:16-19 | a handed-out cursor is a non-empty string, so it is never read back as "no cursor" |
| `Cursor.GarbageCursor` | app/api/images/route.ts:22-26 | a cursor that is not base64url of JSON selects no key instead of failing the request |
| `Cursor.NullCursor` | app/api/images/route.ts:20-27 | a well-formed cursor can still carry a falsy key: "bnVsbA" decodes to `null` |
| `Json.ParseStringify` | app/api/images/route.ts:18-23 | parsing the serialised text of every well-formed value of the model gives the value back |
| `Json.ParseValueRoundTrip` | app/api/images/route.ts:18-23 | a serialised value followed by any text parses back to the value and leaves that text |
| `Json.ParseStringRoundTrip` | app/api/images/route.ts:18-23 | an escaped string body and its closing quote read back as the string |
| `Json.EscapeCharRoundTrip` | app/api/images/route.ts:18 | a character is written as itself only when it needs no escape, otherwise as an escape that reads back as it |
| `Json.ArrayRoundTrip` | app/api/images/route.ts:18-23 | a serialised array parses back to the same elements |
| `Json.ObjectRoundTrip` | app/api/images/route.ts:18-23 | a serialised object parses back to the same members in order |
| `Json.NumberRoundTrip` | app/api/images/route.ts:18-23 | a valid number lexeme parses back to itself |
| `Utf8.DecodeEncode` | app/api/images/route.ts:18-23 | the UTF-8 bytes of a string decode back to the string |
| `Utf8.DecodeStepEncodeChar` | app/api/images/route.ts:18-23 | the bytes of one character, whatever follows, decode to that character and consume exactly its bytes |
| `Utf8.Encode` | app/api/images/route.ts:18 | a string of n characters takes between n and 4n bytes |
| `Base64Url.Encode` | app/api/images/route.ts:18 | the text has ceil(4n/3) characters, all in the URL-safe alphabet of RFC 4648, section 5 |
| `Base64Url.DecodeEncode` | app/api/images/route.ts:18-23 | base64url-decoding the encoding of bytes gives the bytes back |
| `Base64Url.FromToSextets` | app/api/images/route.ts:18-23 | grouping bytes into six-bit digits and back is the identity, including the one- and two-byte tails |
| `Base64Url.DigitsOfEncoding` | app/api/images/route.ts:23 | the lenient decoder reads back every digit the encoder wrote |
| `Base64Url.CharDigit` | app/api/images/route.ts:23 | every URL-safe character reads as the digit it encodes |
| `Records.NormalizeStr` | app/api/images/route.ts:29-31 | the result is trimmed, and empty for `undefined` and `null` |
| `Records.NormalizeLower` | app/api/images/route.ts:32-34 | the result is trimmed and has no upper-case ASCII letter |
| `Records.NormalizeStrOfString` | app/api/images/route.ts:29-31 | normalising a string is trimming it |
| `Records.NormalizeIdempotent` | app/api/images/route.ts:29-34 | normalising a normalised value changes nothing, for both normalisers |
| `JsText.Trim` | app/api/images/route.ts:30 | the result is trimmed and is the input minus white space at both ends |
| `JsText.TrimIdempotent` | app/api/images/route.ts:30 | trimming twice is trimming once |
| `JsText.ToLower` | app/api/images/route.ts:33 | same length, no upper-case ASCII letter, each upper-case letter moved 32 down, everything else kept |
| `JsText.ToLowerKeepsTrimmed` | app/api/images/route.ts:32-34 | lower-casing a trimmed string leaves it trimmed |
| `JsNumber.Min` | app/api/images/route.ts:41 | `Math.min`: NaN if either is NaN, otherwise one of the two and no more than either |
| `JsNumber.DecimalStringToNumber` | app/api/images/route.ts:41 | `Number` of the decimal text of n is n |
| `JsNumber.UnsignedDecimalOfDigits` | app/api/images/route.ts:41 | a digit string reads as its decimal value |
| `Images.Limit` | app/api/images/route.ts:41 | the page size is never +Infinity and never above 200; there is no lower clamp |
| `Images.LimitDefault` | app/api/images/route.ts:41 | without a `limit` parameter the page size is 50 |
| `Images.LimitZero` | app/api/images/route.ts:41 | `limit=0` stays 0 (no lower clamp) |
| `Params.ParamMeans` | app/api/images/route.ts:41-54 | `searchParams.get` is `null` exactly when the name is absent, else the first value under it |
| `Params.CropSelection` | app/api/images/route.ts:46-47 | a crop exactly when the parameter is a non-empty string; the crop is the parameter trimmed and lower-cased, so it has no outer white space and no upper-case letter |
| `Params.FarmerSelection` | app/api/images/route.ts:49-50 | a farmer exactly when the parameter is a non-empty string, and it is the trimmed parameter |
| `Params.Choose` | app/api/images/route.ts:56-57 | farmer index iff a farmer is used (with crop iff a crop is used too), crop index iff only a crop is used, scan iff neither |
| `Params.CropAllSelectsNothing` | app/api/images/route.ts:46-57 | an empty or any-case "all" crop adds no key condition |
| `Params.FarmerBlankSelectsNothing` | app/api/images/route.ts:49-56 | a blank farmer adds no key condition |
| `Params.FarmerAllIsCaseSensitive` | app/api/images/route.ts:49-56 | farmer " ALL " is a farmer query for "ALL", not every farmer |
| `Params.FarmerAllScans` | app/api/images/route.ts:49-56 | farmer "all" alone reads the whole table |
| `Params.CropAllIsCaseInsensitive` | app/api/images/route.ts:46-57 | crop " ALL " alone reads the whole table |
| `Filters.Expression` | app/api/images/route.ts:120 | no FilterExpression exactly when there are no parts |
| `Filters.Extend` | app/api/images/route.ts:66-89 | a clause over fresh placeholders keeps the filter well scoped and adds exactly its condition |
| `Filters.PestFilterMeans` | app/api/images/route.ts:66-71 | one `pestPresent` clause exactly for "true"/"false", selecting that value |
| `Filters.FlagsFilterMeans` | app/api/images/route.ts:66-78 | pest and disease clauses, each only for a literal, together selecting both values |
| `Filters.FilterSelects` | app/api/images/route.ts:66-89 | one clause per literal parameter; gold "true" selects only explicit true, gold "false" selects absent or false |
| `Filters.BuildFilter` | app/api/images/route.ts:62-89 | the step-by-step push and assignments produce exactly the specified filter |
| `Seqs.SelectAppend` | app/api/images/route.ts:125-127 | filtering page by page is filtering the concatenation |
| `Seqs.CountAppend` | app/api/stats/route.ts:54-60 | counting a concatenation adds the counts |
| `Images.MatchesSelect` | app/api/images/route.ts:125 | every kept row has the crop, and no row of the crop is dropped |
| `Images.CollectFarmerCrop` | app/api/images/route.ts:99-134 | the do-while loop computes the specified accumulation, including the early break |
| `Images.AccumulateExtends` | app/api/images/route.ts:124-127 | the loop only appends, and only rows of the crop |
| `Images.AccumulateStops` | app/api/images/route.ts:128-131 | the loop stops only with at least `limit` rows or without a truthy key |
| `Images.AccumulatePrefix` | app/api/images/route.ts:99-131 | what the loop collects is a prefix of the crop's rows over every page of the walk, in order |
| `Images.AccumulateExhausts` | app/api/images/route.ts:99-131 | stopping short of `limit` means every page was read and every crop row collected |
| `Images.AccumulateKey` | app/api/images/route.ts:128-134 | the key the loop ends with is one the store handed out |
| `Images.FarmerCropRows` | app/api/images/route.ts:99-134 | at most `limit` rows, every one of the crop, a prefix of the crop's rows of the walk; once `limit` matches are collected exactly `⌊limit⌋` rows, and over a completed walk exactly the first `⌊limit⌋` matches (all of them when fewer) |
| `Images.FarmerCropExhausted` | app/api/images/route.ts:99-134 | short of `limit`: every crop row of the walk, and no cursor follows |
| `Images.FetchRows` | app/api/images/route.ts:94-196 | the three read paths compute the specified rows and last key |
| `Images.FetchedKey` | app/api/images/route.ts:128-134 | every key a read path ends with is one the store handed out |
| `Images.ProjectDefined` | app/api/images/route.ts:203-232 | every projected field is defined; key is `id` or ""; flags are `!!`; `s3Key` is `imageUrl ?? s3Key ?? ""` |
| `Images.ProjectCrop` | app/api/images/route.ts:210 | the item's crop normalises as the record's crop |
| `Images.ProjectAll` | app/api/images/route.ts:203 | one item per row, in order, each the projection of its row |
| `Images.SignAll` | app/api/images/route.ts:236-252 | same length and order; each item otherwise unchanged; empty key or failed signing gives "" for that item only |
| `Images.Get` | app/api/images/route.ts:36-257 | the route's answer is the specified one |
| `Images.NextCursorResumes` | app/api/images/route.ts:254-257 | a cursor is handed out exactly when the last key is truthy, and it decodes back to that key |
| `Images.ImagesFollowRows` | app/api/images/route.ts:199-257 | one image per row read, in row order, each the projection of its row |
| `Store.WalkHonest` | app/api/images/route.ts:104-122 | against a store that honours key conditions and filters, every walked row satisfies both |
| `Stats.TallyAppend` | app/api/stats/route.ts:54-60 | counts over a concatenation add up |
| `Stats.CountRows` | app/api/stats/route.ts:54-60 | `total` grows by the rows passing the checks, `verified` by those with `isGoldStandard === true` |
| `Stats.CountAll` | app/api/stats/route.ts:65-91 | the do-while loop computes the specified counts over every page until the key is falsy |
| `Stats.CountedWalk` | app/api/stats/route.ts:62-150 | counting page by page equals counting over the concatenation of all pages |
| `Stats.OutcomeWalk` | app/api/stats/route.ts:62-150 | the count fails exactly when the walk fails, else it is the count over every walked row |
| `Stats.Get` | app/api/stats/route.ts:17-153 | the route's answer is the specified one |
| `Stats.StatsOverWalk` | app/api/stats/route.ts:65-150 | each strategy's answer is its tally over the concatenation of every page, failing exactly when the walk fails |
| `Stats.VerifiedAtMostTotal` | app/api/stats/route.ts:54-60 | `verified <= total` on every strategy |
| `Stats.StatsFilterIgnoresGold` | app/api/stats/route.ts:27-48 | the filter constrains only `pestPresent` and `diseasePresent` |
| `Stats.StatsIndependentOfGold` | app/api/stats/route.ts:21-48 | queries differing only in `goldStandard` get the same answer |
| `Stats.NoNeedCountsEveryRow` | app/api/stats/route.ts:92-117 | without in-code checks every walked row counts, and `verified` counts the exact-true ones |
| `Stats.ScanCountsEveryRow` | app/api/stats/route.ts:118-150 | the scan's in-code farmer/crop checks never reject a row: `total` is the walk's length |
| `Stats.FarmerCropCounts` | app/api/stats/route.ts:86-88 | on the farmer index with a crop, exactly the rows of that crop (and their verified ones) count |
| `Farmers.ReadMeans` | app/api/farmers/route.ts:28-32 | a record throws iff its farmer name is present, non-null and not a string; else it reads as its trimmed name, verified iff exactly true |
| `Farmers.CountFarmer` | app/api/farmers/route.ts:32-42 | one record counted in its farmer's entry and the overall counters |
| `Farmers.CountRecord` | app/api/farmers/route.ts:28-42 | the loop body: an empty name is skipped, others counted |
| `Farmers.FoldPage` | app/api/farmers/route.ts:27-43 | the `for` loop over a page computes the specified fold, failing where a record throws |
| `Farmers.Get` | app/api/farmers/route.ts:10-54 | the route's answer is the specified one |
| `Farmers.FoldSucceeds` | app/api/farmers/route.ts:27-43 | the fold fails exactly when some record cannot be read |
| `Farmers.FoldFailsOn` | app/api/farmers/route.ts:27-43 | once a record throws the fold stays failed |
| `Farmers.FoldAppend` | app/api/farmers/route.ts:18-46 | folding a concatenation is folding one part after the other |
| `Farmers.ScanWalk` | app/api/farmers/route.ts:18-46 | the scan is the fold over every record of every page until the key is falsy |
| `Farmers.BumpNewGood` | app/api/farmers/route.ts:39-42 | the first record of a new name keeps names distinct, entries named, `verified <= total`, and overall = sum of entries |
| `Farmers.BumpKnownGood` | app/api/farmers/route.ts:39-42 | another record of a known name keeps the same invariant |
| `Farmers.BumpGood` | app/api/farmers/route.ts:34-42 | counting any record with a non-empty name keeps the invariant |
| `Farmers.FoldGood` | app/api/farmers/route.ts:27-43 | every step of the fold keeps the invariant |
| `Farmers.FoldCounts` | app/api/farmers/route.ts:29-42 | after the fold each entry counts exactly the records of its name (and the verified ones), every non-empty name has an entry, and overall counts the non-empty ones |
| `Farmers.Insert` | app/api/farmers/route.ts:48 | inserting adds exactly one entry |
| `Farmers.Sort` | app/api/farmers/route.ts:48 | the sort is a permutation |
| `Farmers.SortSorted` | app/api/farmers/route.ts:48 | with a consistent comparator the list comes out sorted |
| `Farmers.SortSum` | app/api/farmers/route.ts:48 | sorting keeps both sums |
| `Farmers.SortDistinct` | app/api/farmers/route.ts:48 | sorting keeps names distinct |
| `Farmers.Listing` | app/api/farmers/route.ts:48 | the sorted list is exactly the table's entries, one per name, summing to the overall counters |
| `Farmers.DirectoryTotals` | app/api/farmers/route.ts:12-54 | one entry per distinct name, each non-empty with `verified <= total`; overall = sums of entries |
| `Farmers.DirectorySorted` | app/api/farmers/route.ts:48 | the answer is sorted by the comparator |
| `Farmers.DirectoryCounts` | app/api/farmers/route.ts:18-54 | the answer fails iff a page fails or a name is not a string; otherwise every count is the count over all scanned records |
| `Update.AsTrimmedString` | app/api/images/update/route.ts:11-14 | a value exactly for strings, trimmed and no longer than the input |
| `Update.AsTrimmedStringOfTrimmed` | app/api/images/update/route.ts:11-14 | a trimmed string passes unchanged |
| `Update.AsBool` | app/api/images/update/route.ts:47-51 | a value exactly for booleans, that boolean |
| `Update.Builder.constructor` | app/api/images/update/route.ts:68-70 | the three collections start empty |
| `Update.Builder.SetString` | app/api/images/update/route.ts:72-77 | nothing for `undefined`, else one name, one `S` value and one clause |
| `Update.Builder.SetBool` | app/api/images/update/route.ts:79-84 | nothing for `undefined`, else one name, one `BOOL` value and one clause |
| `Update.Build` | app/api/images/update/route.ts:86-107 | the thirteen calls in the route's order give the specified update |
| `Update.SlotsDistinct` | app/api/images/update/route.ts:87-107 | no two slots share a placeholder |
| `Update.RunMeans` | app/api/images/update/route.ts:72-107 | the update binds exactly the slots given a value, each to its attribute and value, clauses in order |
| `Update.AssignmentsNonEmpty` | app/api/images/update/route.ts:106-109 | a slot with a value gives a non-empty clause list |
| `Update.PlannedMeans` | app/api/images/update/route.ts:86-111 | the planned update binds exactly the given fields and is never empty |
| `Update.PlannedFields` | app/api/images/update/route.ts:51-107 | `goldStandard` becomes `isGoldStandard` only as a boolean, `crop` becomes a trimmed `cropName` only as a string, `lastUpdatedAt` is always the request time, `lastUpdatedBy` only for a string email |
| `Update.Put` | app/api/images/update/route.ts:16-124 | the route's answer is the specified one |
| `Update.PutOutcomes` | app/api/images/update/route.ts:22-122 | 401 without cookie, 401 for a bad session, 500 for a body that is not JSON or is `null`, 400 without id, each with no write; "No allowed fields" never; otherwise a write keyed by `String(id)` |
| `Update.WriteTouchesOnlyGiven` | app/api/images/update/route.ts:72-122 | a write binds only the given fields' placeholders and its expression is `SET` and their clauses in order |
| `Update.WrittenIsPlanned` | app/api/images/update/route.ts:113-122 | a write carries the planned update of the verified session |
| `Update.WriteFields` | app/api/images/update/route.ts:51-122 | the `PlannedFields` facts hold of the write made |
| `Proxy.Decide` | proxy.ts:5-45 | redirect iff "/" without a token; 401 iff an API path other than the two auth routes without a token; pass otherwise |
| `Proxy.ApiNotPublic` | proxy.ts:9-19 | no `/api/` path is public |
| `Proxy.PublicPasses` | proxy.ts:9-19 | public paths pass with or without a token |
| `Proxy.RootNotPublic` | proxy.ts:9-19 | "/" is not public |
| `Proxy.AuthApiPasses` | proxy.ts:22-24 | `/api/auth/me` and `/api/auth/ping` always pass |
| `Proxy.TokenPasses` | proxy.ts:26-44 | with a token every path passes |
| `Proxy.OtherPathsPass` | proxy.ts:26-44 | a path that is neither "/" nor under `/api/` always passes |
| `Proxy.Examples` | proxy.ts:9-44 | worked example of `Decide`'s rules on sample paths: "/login/x" passes, "/" redirects (also with an empty cookie), "/api/images" is refused without a token |
| `Reviewer.SetGiven` | app/page.tsx:148-153 | one `set` call appends the pair only when the value is given |
| `Reviewer.FlattenAppend` | app/page.tsx:145-153 | one more `set` call at the end of a run |
| `Reviewer.BuildParams` | app/page.tsx:145-153 | the successive `set` calls build exactly the specified parameters |
| `Reviewer.ParamConcat` | app/page.tsx:145-153 | `get` on two runs of parameters finds the first run's value first |
| `Reviewer.ParamFlatten` | app/page.tsx:145-153 | `get` of a name set once returns the value it was set to |
| `Reviewer.ParamAbsent` | app/page.tsx:145-153 | `get` of a name never set is `null` |
| `Reviewer.ParamsMeans` | app/page.tsx:145-153 | limit is always "20"; crop only when not "all"; each tri-state only when set, as "true"/"false"; cursor only when truthy; farmer never |
| `Reviewer.DefaultOf` | app/page.tsx:179-188 | a normalised attribute is never `null` |
| `Reviewer.NormalizeKeeps` | app/page.tsx:177-189 | a normalised item keeps every attribute it had and gains the defaulted ones; others are unchanged |
| `Reviewer.NormalizeDefaults` | app/page.tsx:179-185 | no defaulted attribute is `null` or missing |
| `Reviewer.NormalizeFlags` | app/page.tsx:186-188 | the three flags become the booleans `!!img[k]` |
| `Reviewer.NormalizeAll` | app/page.tsx:177-189 | one normalised item per item, in order |
| `Reviewer.Pager.constructor` | app/page.tsx:96-105 | no images, index 0, no cursor, not loading, not editing, direction 1 |
| `Reviewer.Pager.FetchPage` | app/page.tsx:142-198 | the state after `fetchPage` is the specified one for the server's reply |
| `Reviewer.Pager.Reload` | app/page.tsx:200-210 | the filter-change effect is the specified reload |
| `Reviewer.Pager.UpdateField` | app/page.tsx:212-222 | the state after `updateField` is the specified one |
| `Reviewer.Pager.GoPrev` | app/page.tsx:283-290 | the state after `goPrev` is the specified one, and whether it saved |
| `Reviewer.Pager.GoNext` | app/page.tsx:292-313 | the state after `goNext` is the specified one for the outcome of the save it starts and the reply to the cursor's page, and whether it saved |
| `Reviewer.Pager.SaveEffect` | app/page.tsx:266-274 | a save ends editing exactly when its request is sent and succeeds; nothing else on the page changes |
| `Reviewer.Pager.AppendAndAdvance` | app/page.tsx:308-312 | the appended page, then the next index and editing ended, if the fetch returned |
| `Reviewer.FetchMeans` | app/page.tsx:191-196 | append keeps the old images and index and adds the normalised page after them; replace swaps the list and resets index to 0; a failed fetch changes neither; loading ends |
| `Reviewer.ReloadMeans` | app/page.tsx:200-210 | index 0 and no loading; a loaded page replaces the images; a failure leaves them with no cursor |
| `Reviewer.UpdateMeans` | app/page.tsx:212-221 | only the named field of the current item (the first if the index is out of range) changes; an empty list stays empty; dirty only while editing |
| `Reviewer.PrevMeans` | app/page.tsx:283-290 | a no-op at index 0; otherwise one back, editing ended, direction -1 |
| `Reviewer.NextWithin` | app/page.tsx:295-300 | before the last image: one forward with no request, editing ended |
| `Reviewer.NextStops` | app/page.tsx:303-304 | at the last image with no cursor or a page loading, only the direction changes |
| `Reviewer.NextLoads` | app/page.tsx:303-313 | at the last image with a cursor: appends the page and moves on; a throwing fetch keeps the index, and editing has then ended exactly when the save before it was sent and succeeded |
| `Reviewer.NextEmptyPage` | app/page.tsx:303-313 | an empty next page still moves the index past the end, and the current image falls back to the first |
| `Reviewer.LettersMeans` | app/page.tsx:226 | the regular expression accepts exactly non-empty strings of ASCII letters and white space |
| `Reviewer.AlphabetOnlyMeans` | app/page.tsx:224-227 | true for "" and otherwise iff every character is an ASCII letter or white space |
| `Reviewer.SaveGate` | app/page.tsx:229-256 | nothing without a current image; a request only if both names pass, the pest name checked first; the payload carries the pest name |
| `Reviewer.DigitInPestNameBlocksSave` | app/page.tsx:233-236 | a pest name with a digit stops the save before any request |

## Left out

- AWS calls: DynamoDB Query/Scan/UpdateItem, `unmarshall` and S3 presigning.
  The table is the abstract page source `Store.Walk`. The signer is a
  per-item oracle that may fail. Key conditions and filters are predicates
  over records, not expression strings. `Limit` and `ScanIndexForward` are
  recorded in requests but their effect is the store's.
- `ProjectionExpression` is not modelled. A projection only hides attributes
  the routes do not read.
- The `Promise.all` concurrency of URL signing is not modelled. Signing is a
  sequential map, which keeps per-item isolation and order.
- The clock (`new Date().toISOString()`) is a `now` parameter.
- The cookie name (an environment value) is not modelled. Only the token's
  presence is.
- Token verification (`verifyCognitoIdToken`) is an oracle, with `None` where
  it throws.
- An exception from the table is the store oracle's answer (`Failed`, or a
  refused write). A 500's message text is not modelled.
- Update.Put: the body is what `await req.json()` gives, as a record. A body
  that is not JSON, or is `null`, is `None` and gives the 500
  `BodyUnreadable`. A JSON string, number, boolean or array is represented by
  the empty record, since the route reads no member of it and answers 400
  "Missing id/key".
- A map, list or set attribute is carried as the text its `toString` gives
  (`Records.Value.Other`). A value whose `toString` throws cannot be
  represented.
- `Number(text)` is computed over exact reals, not binary64. Rounding and
  overflow to Infinity on huge exponents are not modelled. A NaN `limit` is
  kept as NaN. The farmer-and-crop loop then runs to the last page and
  `slice(0, NaN)` keeps no row. The other paths hand NaN to the store, and
  the store's answer decides.
- `toLowerCase` is modelled for ASCII letters only, with no Unicode case mapping. Strings
  are sequences of Unicode scalar values, so a lone UTF-16 surrogate cannot
  be represented.
- Farmers.Sort: `localeCompare` is a comparator parameter. The sort is a
  stable insertion sort, so it is proved sorted only for a comparator that
  never says both `a > b` and `b > a`. V8's own algorithm and locale
  collation are not modelled.
- The upload route writes `key/farmer/crop/createdAt` while retrieval reads
  `id/farmerName/cropName/timestamp`. The upload route is not part of this
  model, and the mismatch is not reconciled.
- Reviewer: the auth-ping effect, `router.replace`, toast timers, keyboard
  shortcuts, zoom/pan and the edit/save keys are not modelled. Neither is
  the request and response handling of `saveChanges` beyond its validation
  gate: the save's outcome is a parameter of `goNext` (`saveOk`), whose
  only effect on the page is that a sent and successful save ends editing
  before the next page is requested. `goPrev` and `goNext` within the list
  clear both flags afterwards, so there the outcome makes no difference.
- Json: values are lexeme trees. A number keeps its text (`1.50` and `1e2`
  are not normalised to `1.5` and `100`), an object keeps its members in
  order with repeated names. A JavaScript object keeps the last value of a
  repeated name and lists integer-like names first. `Json.ParseStringify`
  is therefore proved for the model's well-formed values, which include
  every key the store hands out, not for every JavaScript value.
- Cursor.DecodeCursor: a crafted cursor whose JSON has a repeated name or a
  non-canonical number decodes to a lexeme tree that `JSON.parse` would
  normalise. The start key then differs from the one the route would pass
  to the store. It reaches only the store oracle, so no other result of the
  model depends on it.
- Reviewer: of the client filters, only crop and the three yes/no/any
  choices are modelled, because only they reach the query.
  `plantingFrom`/`plantingTo`, the stages and the names are not used by
  `fetchPage`.
- Reviewer.Pager: the page's async handlers are modelled as sequential and
  atomic steps. Overlapping fetches, stale closures and the `nextCursorRef`
  race are not modelled. `FetchPage` sets and clears `pageLoading` within
  one step, so between two steps of a `Pager` it is always false, and the
  `|| pageLoading` guard of `goNext` is reached only from a `View` built
  directly (`Reviewer.NextStops`).
- Reviewer.Pager: `filters` is fixed for the life of a `Pager`. `setFilters`
  is not modelled; `Reload` is the refetch its effect makes, with the
  filters the `Pager` was built with.
- Reviewer.PrevSpec: `Math.max(0, i - 1)` is `i - 1`, because `goPrev`
  returns at index 0.
- Reviewer.Pager.GoNext: a 401 reply makes `fetchPage` return normally after
  redirecting, so `goNext` still moves the index on. The model does the same.
- Rendering components, MetadataPanel's date helpers (host `Date` and time
  zone), the login/logout/callback routes and `lib/auth.ts` are not part of
  this model.
