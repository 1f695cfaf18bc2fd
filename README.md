# shopifyCalls: description composition and global-id parsing

This project models the local logic of `current/shopifyCalls.js`, a script
that reads three custom metafields of a product on a hosted commerce
platform, composes them into an HTML description and pushes it back. Almost
everything in the script forwards requests to the vendor's client. Three parts
build data themselves, and the model covers those:

- **Global identifiers** (`global_ids.dfy`, module `GlobalIds`). Identifiers
  such as `gid://shopify/Metaobject/123` are built as a prefix plus an id.
  `shopifyIdNumberOnly` extracts the number again with the regular
  expression `(\d+)$`. `IdNumberOnly` models it. It returns the maximal
  trailing run of ASCII digits. When the input does not end in a digit, the
  match is null and `match[1]` throws; the model returns
  `Failure(NoTrailingDigits(..))` in that case. Numeric product ids become
  text through `Decimal`, which is exact for safe integers (below 2^53).
- **Description composition** (`description.dfy`, module `Description`).
  `StringifyNewDescription` follows `stringifyNewDescription` statement by
  statement. It has a fragment accumulator, one branch per section, and the
  ingredient loop in `ResolveIngredients`. Its contract ties each run to the
  specification function `Stringify`. A run is the outcome (the composed
  HTML or the exception thrown), the log messages issued in order, and the
  digit strings passed to the metaobject lookup in order. The remote
  metaobject query is the parameter `lookup`. It maps digits to the display
  name, or to `None` when the platform returns no metaobject, in which case
  reading `displayName` throws. The lemmas state the layout of the
  fragments, when composition succeeds, one log message per missing section,
  the order of lookups, and the joining rules.
- **Log lines** (`log_format.dfy`, module `LogFormat`). `LogLine` formats
  `timestamp - message` plus a newline, with the timestamp as an input.
  `ParseLogLine` reads a line back. Two lemmas show that formatting and
  parsing are inverse.

The exceptions the JavaScript raises are modelled as `Thrown` outcomes:
- a null product record: the guard at line 101 lets it through, and line 104 reads its title;
- a description tree without `children[0].children[0]`;
- an ingredient reference without trailing digits;
- a metaobject the query does not find.

JavaScript truthiness of a string is modelled as "present and non-empty".

Each log line ends in a newline (line 86); the model follows the code.

## Model

| member | source | states |
|---|---|---|
| GlobalIds.RunStart | current/shopifyCalls.js:75 | the scan for `(\d+)$`: every character from the returned index up to `k` is a digit, and the character before it is not |
| GlobalIds.TrailingDigitsIsMaximalRun | current/shopifyCalls.js:75 | the capture of `(\d+)$` (empty when there is none) is all digits, a suffix of the input, and maximal (the character before it is not a digit) |
| GlobalIds.IdNumberOnly | current/shopifyCalls.js:72-81 | succeeds exactly when the input ends in a digit; otherwise the error names the input, as line 78 throws on a null match |
| GlobalIds.IdNumberOnlyIsMaximalRun | current/shopifyCalls.js:72-81 | a successful result is non-empty, all digits, a suffix of the input, and cannot be extended to the left |
| GlobalIds.TrailingDigitsUnique | current/shopifyCalls.js:75 | any all-digit, maximal suffix is the extracted run, so the three properties determine the result |
| GlobalIds.ExtractAfterPrefix | current/shopifyCalls.js:72-81 | after a prefix that does not end in a digit, extraction returns a non-empty digit string unchanged |
| GlobalIds.ProductIdRoundTrip | current/shopifyCalls.js:196-200 | extraction inverts `gid://shopify/Product/` + digits |
| GlobalIds.MetaobjectIdRoundTrip | current/shopifyCalls.js:216-220 | extraction inverts `gid://shopify/Metaobject/` + digits |
| GlobalIds.NoDigitsAfterPrefixFails | current/shopifyCalls.js:72-81 | after a prefix that does not end in a digit (such as either gid prefix), an id that does not end in a digit, the empty id included, makes extraction fail with the error naming the whole string |
| GlobalIds.Decimal | current/shopifyCalls.js:198 | interpolating a numeric id that is a safe integer yields a non-empty digit string |
| GlobalIds.DecimalValue | current/shopifyCalls.js:198 | the decimal text of a number denotes that number |
| GlobalIds.NumericProductIdRoundTrip | current/shopifyCalls.js:196-200 | a numeric product id put into a product gid is extracted back as digits denoting the same number |
| LogFormat.ParseFormattedLine | current/shopifyCalls.js:85-86 | a formatted log line parses back to its timestamp and message when the timestamp has no space, as ISO timestamps do not |
| LogFormat.ParsedLineIsFormatted | current/shopifyCalls.js:85-86 | every line that parses is exactly the formatted line of its parts and ends in a newline |
| Description.PushDescription | current/shopifyCalls.js:101-105 | the description text is appended when truthy, otherwise one message is logged; a too shallow tree throws and appends nothing |
| Description.PushHowToTake | current/shopifyCalls.js:107-112 | the heading and then the text are appended when the text is truthy, otherwise one message is logged |
| Description.PushIngredients | current/shopifyCalls.js:123-132 | for an array the heading and the resolved names are appended and the lookups are those of the references; otherwise one message is logged; a failing reference throws |
| Description.StringifyNewDescription | current/shopifyCalls.js:95-136 | the outcome, the log messages and the lookups of a run are those of the specification `Stringify` |
| Description.ResolveIngredients | current/shopifyCalls.js:123-129 | the ingredient loop collects the names, the queried digits and the first exception as `ResolveNames` specifies |
| Description.ResolvedPrefix | current/shopifyCalls.js:125-129 | the names are those of a prefix of the references, each of which resolves, with one lookup per reference, in order, on its trailing digits |
| Description.ResolutionStops | current/shopifyCalls.js:125-129 | without a fault every reference is named and queried; with one, resolution stopped at the first reference that does not resolve, queried it only when it has digits, and the fault says which of the two failures it was |
| Description.ResolvesAllIff | current/shopifyCalls.js:125-129 | resolution succeeds exactly when every reference has digits and a metaobject |
| Description.ComposedIff | current/shopifyCalls.js:101-135 | composition succeeds exactly when the product exists, its description tree is deep enough when present, and every ingredient reference resolves |
| Description.ComposedLayout | current/shopifyCalls.js:99-132 | the fragments are, in order, the description text when truthy, the how-to-take heading immediately followed by its text when truthy, and, when the ingredients value is an array, the ingredients heading followed by one display name per reference, in list order |
| Description.MissingSectionsLogged | current/shopifyCalls.js:101-132 | once the description has been read, each missing section issues exactly one message naming the product, in section order, and only an ingredient reference can make composition throw |
| Description.EarlyThrowIsSilent | current/shopifyCalls.js:101-105 | a null record or a too shallow description tree throws before any log message or lookup |
| Description.LookupsInOrder | current/shopifyCalls.js:125-129 | on success the lookup was called once per reference, in list order, on that reference's trailing digits, and not at all without an ingredient list |
| Description.ReferenceIdsQueried | current/shopifyCalls.js:125-127 | references built as metaobject gids are looked up with exactly their ids, in order |
| Description.JoinStartsWithFirst | current/shopifyCalls.js:135 | a join starts with its first fragment |
| Description.JoinAppend | current/shopifyCalls.js:135 | joining two non-empty lists puts exactly one separator between them |
| Description.EmptyIffNothingPushed | current/shopifyCalls.js:99-135 | the composed description is empty exactly when all three sections are missing |
| Description.FullDescription | current/shopifyCalls.js:101-135 | with all sections present, the description is the text, the how-to-take heading and text, and the ingredients heading with the names, one `<br /><br />` between consecutive fragments |

## Left out

- The request wrappers are not modelled: `queryShopDetails`, `queryProductList`, `queryProduct`, `queryMetaobject`, `queryProductNewDescription`, `queryApp`, `queryAppList`, `queryAppSalesChannels`, the mutation in `mutateProductNewDescription`, and `writeProductDescriptionToFile`. They only forward requests to the vendor client. `queryMetaobject` appears as the `lookup` parameter.
- The file appends in `logToFile` and `writeProductDescriptionToFile` are file I/O. The console output (`console.log`, the `debug` helper) is I/O too. Only the log-line format is modelled.
- The clock (`new Date().toISOString()`) is not read; the timestamp is a parameter of `LogLine`. Composition returns its log messages; it does not write lines.
- GlobalIds.Decimal: models the interpolation of a numeric id for safe integers (below 2^53) only; larger JavaScript numbers print rounded digits, and from 1e21 on exponent form, which `Decimal` does not model. The ids in the `shopifyProductIDs` table are far below that bound.
- GlobalIds.NumericProductIdRoundTrip: holds of the program for safe-integer ids only, for the same reason.
- The `shopifyProductIDs` table is plain data.
- The client configuration files and the deprecated REST wrappers hold no logic.
- The asynchronous structure is not modelled. The lookups are sequential calls of a pure function. A lookup that rejects (a network error) is not modelled.
- JSON shapes outside the modelled ones are not covered. These include a non-object `jsonValue` in the description metafield, a non-string how-to-take value or ingredient list element, and a missing title (which JavaScript would print as `undefined`).
