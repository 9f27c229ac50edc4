# Restaurant oil allergy-risk tracker — a Dafny model

The tracker stores restaurants together with the cooking oil they use. It lets
users search them by name, and it labels every hit with a peanut-allergy risk
worked out from the oil alone. This project models the core of the tracker in
Dafny and proves properties of that model:

- **the risk classifier** `assessRisk` (module `RiskAssessment`). It lower-cases
  and trims the oil label, then looks it up in three fixed lists: High/red,
  Medium/orange and Low/green. Any other label is Unknown/gray;
- **the restaurant document** (module `Restaurant`). This covers the 14 accepted
  oil labels, the schema's field rules as the function `Validate`, and the
  collection as a class `RestaurantCollection`. Its `Create` validates a
  document and appends it to a `seq<Record>` field;
- **the submission handler** `POST /api/restaurants` (module `RestaurantsRoute`).
  It checks that the fields are present, creates one document, and answers
  400, 201 or 500;
- **the search handler** `GET /api/restaurants/search` (module `SearchRoute`).
  It validates the query and filters the collection case-insensitively by name.
  It sorts the hits newest first, attaches the risk verdict to each, and answers
  with either an empty list plus a message or the list plus its count.

Supporting modules: `Wrappers` (Option, Result), `Strings` (ECMAScript `trim`
and `trimEnd` over the full ECMAScript whitespace set, `toLowerCase` on ASCII
letters, substring containment) and `Http` (the response record).

The environment becomes parameters:
- the clock reading that becomes the default `submittedDate` is `now`;
- a failed JSON parse of the request body is `Failure(message)` in place of the
  body;
- a failed database connection, insert or query is an `Option<string>` fault
  holding the thrown error's message.

A response is `Response(status, success, data, count, message, error)`, and an
absent JSON field is `None`.

Notable behaviours of the code, which the model keeps:
- `oilType` is not trimmed before it is checked against the list, so
  `" Peanut"` is rejected;
- a schema validation failure, such as a whitespace-only name or an unknown oil
  type, is reported as 500, not as a client error;
- an empty search result has no `count` field;
- the enum message fills `{VALUE}` with `String.prototype.replace`, so `$$`,
  `$&`, `` $` `` and `$'` inside a rejected value are expanded, not copied.

## Model

| member | source | states |
|---|---|---|
| `Strings.Trim` | models/Restaurant.js:25 | the trimmed value has no whitespace at either end |
| `Strings.TrimStart` | models/Restaurant.js:25 | the result is a suffix of the input; what it drops is all whitespace; it does not start with whitespace |
| `Strings.TrimEnd` | app/api/restaurants/search/route.js:13 | the result is a prefix of the input; what it drops is all whitespace; it does not end with whitespace |
| `Strings.LowerChar` | lib/riskAssessment.js:3 | an ASCII capital maps to its small letter, every other character to itself; no result is an ASCII capital |
| `Strings.ToLower` | lib/riskAssessment.js:3 | lower-casing keeps the length and maps each character by `LowerChar`; `ToLowerConcat` and `AllWhitespaceLower` show it distributes over concatenation and leaves whitespace alone |
| `Strings.ExpandReplacement` | models/Restaurant.js:32 | the replacement text of `replace` with a string pattern (`$$`, `$&`, `` $` ``, `$'` expanded, everything else copied); characterised by `ExpandPlain` and `ExpandPlainPrefix` |
| `Strings.ExpandPlain` | models/Restaurant.js:32 | a template without `$` expands to itself |
| `Strings.ExpandPlainPrefix` | models/Restaurant.js:32 | a prefix without `$` is copied verbatim in front of the expansion of the rest |
| `Strings.TrimIgnoresPadding` | lib/riskAssessment.js:3 | trimming ignores any whitespace padding added on either side, even when the string inside is itself blank |
| `Strings.TrimIdempotent` | models/Restaurant.js:25 | trimming twice is trimming once |
| `Strings.TrimSplit` | models/Restaurant.js:25 | every string is its trimmed value padded with whitespace on both sides |
| `Strings.TrimEndEmpty` | app/api/restaurants/search/route.js:13 | `trimEnd` returns the empty string exactly when the input is all whitespace |
| `Strings.TrimToLowerCommute` | lib/riskAssessment.js:3 | lower-casing and then trimming gives the same result as trimming and then lower-casing |
| `Strings.SubstringIgnoringCase` | app/api/restaurants/search/route.js:25-29 | a verbatim occurrence of the query is also a case-insensitive one |
| `RiskAssessment.ListsDisjoint` | lib/riskAssessment.js:6-8 | no label is in two of the three lists |
| `RiskAssessment.Normalize` | lib/riskAssessment.js:3 | the normalised label has no whitespace at either end, is no longer than the input and holds no ASCII capital |
| `RiskAssessment.Classify` | lib/riskAssessment.js:6-33 | the level is High, Medium or Low exactly when the label is in that list, and Unknown exactly when it is in none; so the order of the three tests does not matter |
| `RiskAssessment.Verdict` | lib/riskAssessment.js:11-40 | the verdict reports the level it was built for; `VerdictInjective` shows that colour and message differ between levels |
| `RiskAssessment.AssessRisk` | lib/riskAssessment.js:1-41 | the classifier; characterised by `AssessRiskBuckets` (level by list membership), `AssessRiskIgnoresCaseAndPadding` and the four per-list lemmas below |
| `RiskAssessment.AssessRiskBuckets` | lib/riskAssessment.js:1-41 | the level is High, Medium or Low exactly when the normalised label is in that level's list, and Unknown exactly when it is in none of them; the verdict is total |
| `RiskAssessment.VerdictInjective` | lib/riskAssessment.js:11-40 | each level has its own colour and its own message |
| `RiskAssessment.VerdictFieldsDetermineEachOther` | lib/riskAssessment.js:11-40 | two verdicts that agree on the level, the colour or the message are the same verdict |
| `RiskAssessment.NormalizeIgnoresPadding` | lib/riskAssessment.js:3 | surrounding whitespace does not change the normalised label |
| `RiskAssessment.AssessRiskIgnoresCaseAndPadding` | lib/riskAssessment.js:1-3 | the verdict ignores letter case and surrounding whitespace |
| `RiskAssessment.NormalizeIsLowerOfTrim` | lib/riskAssessment.js:3 | the normalised label is the lower-cased trimmed label |
| `RiskAssessment.PeanutIsHigh` | lib/riskAssessment.js:6-17 | "peanut", in any letter case and with any padding, is High, red, with the high-risk message |
| `RiskAssessment.VegetableAndMixedAreMedium` | lib/riskAssessment.js:19-25 | "vegetable" and "mixed/other", in any case and with any padding, are Medium and orange |
| `RiskAssessment.LowRiskOilsAreLow` | lib/riskAssessment.js:27-33 | the eleven low-risk oils, in any case and with any padding, are Low and green |
| `RiskAssessment.BlankIsUnknown` | lib/riskAssessment.js:35-40 | the empty string and all-whitespace strings are Unknown and gray |
| `RiskAssessment.LabelLevel` | lib/riskAssessment.js:3-33 | a label that lower-cases to a list entry gets that list's level |
| `Restaurant.Validate` | models/Restaurant.js:21-41 | a document is accepted exactly when its trimmed name is non-empty and its oil type is one of the labels, compared case-sensitively; the stored name is the trimmed input; the date is the supplied one, or `now` when none is supplied; a rejected document gets exactly one error per failing path, in schema order: the name error first (required), then the oil-type error (required for a missing or empty value, otherwise the enum message) |
| `Restaurant.CheckName` | models/Restaurant.js:22-26 | the name passes exactly when present and non-empty after trimming; the value kept is the trimmed one; a failure is the name-required error |
| `Restaurant.CheckOilType` | models/Restaurant.js:27-34 | the oil type passes exactly when present and in the list; the value kept is the one sent; every failure is reported on the `oilType` path |
| `Restaurant.InvalidOilTypeMessage` | models/Restaurant.js:32 | the `{VALUE}` template filled by `replace`: a value without `$` gives "value is not a valid oil type" |
| `Restaurant.InvalidOilTypeMessageSubstitution` | models/Restaurant.js:32 | a `$`-free value appears verbatim; a value followed by `$&` yields the placeholder `{VALUE}` in place of the `$&` |
| `Restaurant.JoinErrors` | app/api/restaurants/route.js:38 | the `path: message` list of a validation error; characterised by `ValidationMessageOfOne` and `ValidationMessageOfTwo` |
| `Restaurant.ValidationMessage` | app/api/restaurants/route.js:38 | the thrown message the handler returns; characterised by `ValidationMessageOfOne` and `ValidationMessageOfTwo` |
| `Restaurant.ValidationMessageOfOne` | app/api/restaurants/route.js:38 | the message of a one-field validation error is "Restaurant validation failed: path: message" |
| `Restaurant.ValidationMessageOfTwo` | app/api/restaurants/route.js:38 | two failed paths read "Restaurant validation failed: p1: m1, p2: m2", in order |
| `Restaurant.CreateOutcome` | app/api/restaurants/route.js:20-23 | what `create` yields: the validated record, the validation message, or the insert's failure; characterised by `RestaurantCollection.Create`, `PostSucceeds` and `PostLaterFailuresAre500` |
| `Restaurant.RestaurantCollection.Create` | app/api/restaurants/route.js:20-23 | `create` validates and then appends exactly the validated record; when validation or the insert fails, nothing is stored; the rule that every stored record is valid is kept |
| `Restaurant.OilTypesDistinct` | models/Restaurant.js:4-19 | the list holds 14 pairwise distinct labels |
| `Restaurant.OilTypeRisk` | models/Restaurant.js:4-19 | Peanut is High; Vegetable and Mixed/Other are Medium; the other eleven labels are Low |
| `Restaurant.OilTypeHasKnownRisk` | models/Restaurant.js:4-19 | no accepted label is classified Unknown |
| `Restaurant.ValidRecordHasKnownRisk` | models/Restaurant.js:27-34 | a record that passes validation never has an Unknown risk |
| `Restaurant.InvalidOilTypeRejected` | models/Restaurant.js:30-33 | a non-empty label outside the list, with an acceptable name, fails with the single enum error `InvalidOilTypeMessage` of that value |
| `Restaurant.OilTypesCaseSensitive` | models/Restaurant.js:4-19 | "Peanut" is accepted and "peanut" is not |
| `Restaurant.EmptyIsNoOilType` | models/Restaurant.js:28-33 | the empty string is not one of the labels |
| `RestaurantsRoute.Post` | app/api/restaurants/route.js:5-43 | the handler's response is `PostResponse`; the collection grows by exactly `PostInserts` |
| `RestaurantsRoute.PostResponse` | app/api/restaurants/route.js:5-43 | the handler's response; characterised by `PostStatuses`, `PostMissingFields`, `PostSucceeds`, `PostCreatedRecord` and `PostLaterFailuresAre500` |
| `RestaurantsRoute.PostInserts` | app/api/restaurants/route.js:18-23 | the records a request adds; `PostStatuses` shows it is one record exactly for a 201, and that record is the response's `data` |
| `RestaurantsRoute.SubmitTwice` | app/api/restaurants/route.js:20-23 | two identical valid submissions store two identical records (no deduplication) |
| `RestaurantsRoute.PostStatuses` | app/api/restaurants/route.js:11-41 | the only statuses are 400, 201 and 500; `success` holds exactly for 201; 201 holds exactly when one record is inserted, and that record is `data`; any other status inserts nothing and carries an error |
| `RestaurantsRoute.PostMissingFields` | app/api/restaurants/route.js:11-16 | status 400 is returned exactly when `name` or `oilType` is missing or empty; the error is always "Name and oilType are required fields." and nothing is inserted |
| `RestaurantsRoute.PostSucceeds` | app/api/restaurants/route.js:18-31 | status 201 is returned exactly when the trimmed name is non-empty, the oil type is a listed label, and neither the connection nor the insert fails |
| `RestaurantsRoute.PostCreatedRecord` | app/api/restaurants/route.js:8-23 | the created record has the trimmed name, the oil type as sent, and `submittedDate == now`, whatever date the body carried |
| `RestaurantsRoute.PostBlankNameIs500` | app/api/restaurants/route.js:11-41 | a non-empty whitespace-only name passes the 400 check and is answered with 500 and the "name: Restaurant name is required" validation message |
| `RestaurantsRoute.PostInvalidOilTypeIs500` | app/api/restaurants/route.js:32-41 | an unlisted oil type is answered with 500 and the enum message for that value |
| `RestaurantsRoute.PostLaterFailuresAre500` | app/api/restaurants/route.js:32-41 | after the presence check, every failure is a 500 with `success: false` and the thrown error's message, and nothing is inserted |
| `SearchRoute.MatchingRecords` | app/api/restaurants/search/route.js:25-29 | the hits are exactly the stored records whose name contains the query, ignoring case, each kept as many times as it is stored |
| `SearchRoute.NameMatches` | app/api/restaurants/search/route.js:25-29 | the `$regex` filter with option `i`; characterised by `SubstringIgnoringCase` (a verbatim occurrence matches) and `MatchingIgnoresQueryCase` |
| `SearchRoute.MatchingIgnoresQueryCase` | app/api/restaurants/search/route.js:25-29 | queries that lower-case alike select the same records |
| `SearchRoute.InsertByDate` | app/api/restaurants/search/route.js:30 | inserting adds exactly the one record to the multiset of the sequence |
| `SearchRoute.SortByDateDesc` | app/api/restaurants/search/route.js:30 | sorting is a permutation of its input |
| `SearchRoute.SortByDateDescSorted` | app/api/restaurants/search/route.js:30 | the sorted hits are in non-increasing `submittedDate` order |
| `SearchRoute.InsertByDateSorted` | app/api/restaurants/search/route.js:30 | inserting one record into a newest-first sequence keeps it newest-first |
| `SearchRoute.InsertByDateBounded` | app/api/restaurants/search/route.js:30 | a date no earlier than the inserted record and every record of the sequence is no earlier than any record after the insertion |
| `SearchRoute.Get` | app/api/restaurants/search/route.js:6-61 | the handler's response is `GetResponse` of the stored records; it has no `modifies` clause, so the collection is unchanged; when the collection holds only validated records, no returned hit is classified Unknown |
| `SearchRoute.GetResponse` | app/api/restaurants/search/route.js:6-61 | the handler's response; characterised by `GetBlankQuery`, `GetFault`, `GetNoMatches` and `GetMatches` |
| `SearchRoute.BlankQuery` | app/api/restaurants/search/route.js:13 | the 400 test; `GetBlankQuery` shows it holds exactly for a missing or all-whitespace query |
| `SearchRoute.WithRisk` | app/api/restaurants/search/route.js:39-46 | the `.map` adding the verdict; `GetMatches` shows element i is hit i with `assessRisk` of its oil type |
| `SearchRoute.GetBlankQuery` | app/api/restaurants/search/route.js:13-19 | status 400 with "Search name is required" is returned exactly for a missing or all-whitespace query; it does not depend on the stored records or on a store fault |
| `SearchRoute.GetFault` | app/api/restaurants/search/route.js:53-60 | a store failure after a valid query is a 500 with `success: false` and the failure's message |
| `SearchRoute.GetNoMatches` | app/api/restaurants/search/route.js:32-38 | with no match, the response is 200, `success`, `data: []` and the no-match message, with no `count` |
| `SearchRoute.GetMatches` | app/api/restaurants/search/route.js:39-52 | with a match, `data` has one element per hit, in hit order; element i is hit i plus `assessRisk` of its oil type; hits are newest first; the hits are exactly the matching stored records; `count` equals the length of `data` |
| `SearchRoute.VerbatimNameFound` | app/api/restaurants/search/route.js:25-29 | a record whose name contains the query verbatim is always among the results |
| `SearchRoute.GetIgnoresQueryCase` | app/api/restaurants/search/route.js:25-29 | queries that differ only in letter case get the same response |
| `SearchRoute.ValidStoreHasKnownRisks` | app/api/restaurants/search/route.js:39-46 | when every stored oil type is a listed label, no search result is classified Unknown |

## Left out

- `lib/mongodb.js` (environment check and cached connection) is not part of this model. A failed connection is an injected fault message.
- `app/api/test/route.js` (a smoke-test insert) is not part of this model. It adds nothing beyond `create`.
- `app/page.tsx` (the React form and result list, locale date formatting, CSS lookup) is not part of this model. It is presentation only.
- `SearchRoute.NameMatches` models the `$regex` filter with option `i` as literal case-insensitive containment. The two agree only for queries without regular-expression metacharacters. A metacharacter query, or an invalid pattern that makes the query throw, is outside the model. The resulting 500 is still covered by the injected fault.
- `Strings.ToLower` lower-cases the ASCII letters only. Unicode case mapping is not modelled, and neither is Unicode case folding in the `i` regex option.
- Request fields are modelled as absent or a string. JSON numbers, booleans, `null` and a `null` body are not modelled, and neither is Mongoose's casting of them.
- `Restaurant.Validate`: `submittedDate` is modelled as an integer timestamp. Casting other values to a `Date`, and the cast error that follows, are not modelled.
- The message of a validation error with two failing fields is modelled as name first, then oilType. That follows the schema order in which Mongoose adds the errors.
- `SearchRoute.SortByDateDesc` keeps equal-date records in collection order. The store promises no tie order, and this order is not proved.
- Store-assigned identifiers, `__v`, `toObject()`, and the ineffective `timestamp: true` option (no `createdAt`/`updatedAt`) are not modelled.
- Concurrent requests, `async`/`await`, `console.error` logging and JSON serialisation are not modelled.
