# Request scheduling and errors of the Quanti connector SDK

This project models, in Dafny, the core of the Go package `sdk` of the Quanti
connector SDK, and proves properties about that model.

The scheduling core starts from a connector configuration and builds the list
of work items a connector runs:

- `GetDateRange` turns `start_date` and `end_date` into the calendar days
  between them.
- `GetRequests` reads the enabled request descriptors out of the free-form
  `connectorConf`. It accepts both the wrapped shape and the legacy one.
- `GetRequestsByDate` crosses the requests with the days. It honours the
  resume state, whose `date` and `requestId` entries select one of three
  resume cases.
- `GetRequestsByDateAndAdAccounts` attaches ad accounts to each pair. A pair
  gets the account its request names explicitly, or every configured account,
  or, when neither exists, a single item with no account.

The error core is the `QError` type:

- its fifteen codes and the two tables that label them;
- the nil-safe accessors `ErrorCode`, `ErrorMessage` and `GetErrorCodeType`;
- the `Error` text;
- the code parse `ParseQErrorCode`.

Files and modules:

| file | module | contents |
|---|---|---|
| `wrappers.dfy` | `Wrappers` | `Option` and `Result` |
| `json.dfy` | `JsonValues` | the decoded JSON value (`map[string]interface{}` and friends) |
| `decimal.dfy` | `Decimal` | decimal digits, `%d` formatting and its inverse |
| `calendar.dfy` | `Calendar` | day ordinals and the strict `YYYY-MM-DD` parse |
| `models.dfy` | `Models` | the entities of `sdk/models.go`, the error kinds, the descriptor decode and its re-encoding |
| `dateranges.dfy` | `DateRanges` | `GetDateRange` |
| `requests.dfy` | `RequestExtraction` | `GetRequests` and `processOne` |
| `scheduling.dfy` | `Scheduling` | `GetRequestsByDate` |
| `accounts.dfy` | `AdAccounts` | account ids, explicit accounts, and `GetRequestsByDateAndAdAccounts` |
| `errors.dfy` | `QErrors` | `sdk/errors.go` |

The four list-building functions (`GetDateRange`, `GetRequests`,
`GetRequestsByDate` and `GetRequestsByDateAndAdAccounts`) are each a `method`
with loop invariants. Its `ensures` ties the result to a ghost reference
definition written as a recursive function. The lookup over the fixed
candidate list in `extractAdAccountFromLooseMap` (sdk/sdk.go:525-531) is the
recursive function `AdAccounts.FirstStringValue`, whose `ensures` states the
first match. The properties the code promises are lemmas about these
reference definitions. Go's `error` results become `Result` values. Each error
kind is a `Models.SdkError` constructor:

- one per site that can fail on a decoded value;
- `AdAccountsNotDecodable` for the decode site of `GetAdAccounts`
  (sdk/sdk.go:500-502). `GetRequestsByDateAndAdAccounts` returns that error
  as it is.

The marshal sites at sdk/sdk.go:407, 437 and 497 have no constructor, because
encoding a value that was just decoded cannot fail. A nil `*QError` is `None`.

Behaviour of the code that might be expected otherwise, and that the model
keeps as written:

- An object item whose descriptor does not decode aborts `GetRequests`; it is
  not skipped.
- Configured accounts are not de-duplicated.
- `GetRequests` returns a nil slice with no error when no request survives.
  The model returns the empty list.
- In the date-resume case, the date floor holds until the first pair is
  emitted (`len(out) == 0`). It is not tied to the first request: when every
  date of the first walked request is before the floor, the floor carries on
  to the next request. `Scheduling.FloorAppliesOnce` states what this means
  for ascending dates.

## Model

| member | source | states |
|---|---|---|
| Calendar.ParseDate | sdk/sdk.go:752-754 | the strict `YYYY-MM-DD` parse; no `ensures` of its own. Its contract is `Calendar.ParseFormatRoundTrip` and `Calendar.FormatOfParsed`: it accepts exactly the `YYYY-MM-DD` forms of valid dates with four-digit years, each parsed to its own day |
| Calendar.ParseFormatRoundTrip | sdk/sdk.go:752-754 | every valid date with a four-digit year, written `YYYY-MM-DD`, parses back to its own day |
| Calendar.FormatOfParsed | sdk/sdk.go:752-754 | a text the parse accepts is a valid date with a four-digit year and is exactly that date's `YYYY-MM-DD` form |
| Calendar.ParseDateInjective | sdk/sdk.go:752-754 | two texts that parse to the same day are the same text: the layout admits one spelling per day |
| Calendar.DayNumberMonotone | sdk/sdk.go:380-383 | day ordinals follow calendar order, so `After` and `Before` on parsed dates are `>` and `<` on ordinals, and distinct dates have distinct ordinals |
| Calendar.NextDateIsSuccessor | sdk/sdk.go:389-392 | `AddDate(0, 0, 1)` on a valid date gives a valid date whose ordinal is one more |
| Calendar.NextDate | sdk/sdk.go:391 | the day after a valid date is a valid date |
| DateRanges.DaysBetweenShape | sdk/sdk.go:386-392 | the walk from start to end lists `end - start + 1` consecutive days |
| DateRanges.DateRangeSpec | sdk/sdk.go:369-398 | an unparseable start, then an unparseable end, then a start after the end are the three errors, in that order; otherwise the days run from start to end inclusive, consecutive, first and last included |
| DateRanges.DateRangeAscending | sdk/sdk.go:386-392 | the days of a successful range are strictly ascending, so none repeats |
| DateRanges.GetDateRange | sdk/sdk.go:369-398 | the loop returns exactly the reference range, errors included |
| Decimal.FormatNat | sdk/errors.go:106-109 | the `%d` text of a natural number is non-empty and made of digits only |
| Decimal.FormatInt | sdk/errors.go:106-109 | the `%d` text of an integer is non-empty, starts with `-` exactly when the integer is negative, and is digits after that; `Decimal.FormatIntRoundTrip` reads it back |
| Decimal.FormatIntRoundTrip | sdk/errors.go:81-86 | the `%d` text of every integer is a decimal integer whose value is that integer |
| Decimal.DigitRoundTrip | sdk/sdk.go:752-754 | a digit character and its value convert back and forth |
| Models.DecodeDescriptor | sdk/sdk.go:440-443 | decoding a descriptor fails only with the descriptor error; `null` decodes to the zero descriptor; any other non-object fails |
| Models.DecodeStringItems | sdk/models.go:120 | a decoded `sample_questions` list has one string per item, and a failure is the descriptor error |
| Models.DescriptorAsObject | sdk/sdk.go:546-548 | the descriptor re-encoded and decoded into a map, honouring the `omitempty` tags; no `ensures` of its own. Its contract is `Models.DescriptorObjectKeys` |
| Models.DescriptorObjectKeys | sdk/models.go:107-121 | the re-encoded descriptor always has its seven non-`omitempty` keys and only known keys; each of `purpose`, `business_domain`, `grain` and `sample_questions` is there exactly when its field is non-empty |
| Models.DecodeDescriptorStatus | sdk/models.go:114 | a decoded status is a 64-bit `int`; a missing `status` decodes as 0; a numeric one keeps its value |
| RequestExtraction.ProcessOne | sdk/sdk.go:421-463 | a non-object adds nothing; an object fails exactly when its descriptor fails to decode; it adds a request exactly when the status is strictly between 100 and 300; the request carries the decoded descriptor and the item's `request` payload |
| RequestExtraction.MissingStatusDropped | sdk/sdk.go:445-449 | an item whose descriptor has no `status` is never kept |
| RequestExtraction.SurvivorsAppend | sdk/sdk.go:468-483 | the requests of concatenated item lists are the concatenation of their requests |
| RequestExtraction.SurvivorsAre | sdk/sdk.go:421-463 | a request is in the result exactly when some item's `processOne` produced it |
| RequestExtraction.SurvivorsEligible | sdk/sdk.go:446-449 | there are at most as many requests as items, and every kept request has an eligible status |
| RequestExtraction.ExtractRequestsOrder | sdk/sdk.go:465-490 | on success every request is eligible; the `requests` items come first, in list order; the singular `request` comes last, when present and not null |
| RequestExtraction.ExtractRequestsErrors | sdk/sdk.go:410-475 | a configuration that is neither an object nor null is an error; so is a non-list `requests`; so is any object item of the `requests` list whose descriptor does not decode |
| RequestExtraction.ExtractRequestsFailsIff | sdk/sdk.go:403-491 | the call fails exactly when the configuration is neither an object nor null, or `requests` is there but neither null nor a list, or some item from the list or the singular `request` is an object whose descriptor does not decode; in every other case it succeeds, with the empty list when no request survives |
| RequestExtraction.SingularRequestAborts | sdk/sdk.go:478-483 | a singular `request` whose descriptor does not decode aborts the call, whatever the `requests` list holds |
| RequestExtraction.AllDecodeAppend | sdk/sdk.go:468-472 | every item of a concatenation decodes exactly when every item of both parts does |
| RequestExtraction.ProcessAllSnoc | sdk/sdk.go:468-472 | processing one more item fails if the earlier items failed or it fails, drops it when `processOne` adds nothing, and appends its request otherwise |
| RequestExtraction.FailureIsFinal | sdk/sdk.go:469-471 | once an item fails, nothing processed after it changes the error |
| RequestExtraction.ProcessItems | sdk/sdk.go:468-472 | the `requests` loop returns exactly the reference processing, stopping at the first failing item |
| RequestExtraction.GetRequests | sdk/sdk.go:403-491 | the whole extraction, both item sources and all errors, equals the reference definition |
| Scheduling.ExpandAppend | sdk/sdk.go:665-674 | the pairs of concatenated request lists are the concatenation of their pairs |
| Scheduling.ExpandCount | sdk/sdk.go:663-676 | with no resume filter there are `metrics × dates + dimensions` pairs |
| Scheduling.ExpandMembership | sdk/sdk.go:663-676 | a pair appears exactly when its request is listed and the pair is dateless for a dimension request, or dated with one of the dates for a metric request |
| Scheduling.MetricsSpec | sdk/sdk.go:688-690 | the date-resume walk keeps exactly the non-dimension requests |
| Scheduling.GateFromNone | sdk/sdk.go:728-733 | when no request has the resume id, the gate lets nothing through |
| Scheduling.GateFromFirst | sdk/sdk.go:728-733 | the gate lets through the first request with the resume id and every request after it |
| Scheduling.GateFromSuffix | sdk/sdk.go:692-698 | every request the gate lets through is one of the requests |
| Scheduling.DropBeforeSpec | sdk/sdk.go:708-712 | the date floor keeps a suffix of the pairs; every dropped pair is dated before the floor; the first kept pair is not |
| Scheduling.LeadingBeforeAscending | sdk/sdk.go:702-712 | for ascending dates, a date is before the floor exactly when it lies in that leading run |
| Scheduling.DropBeforeDated | sdk/sdk.go:702-719 | the floor over one request's pairs keeps the pairs of the dates after the leading run |
| Scheduling.FloorAppliesOnce | sdk/sdk.go:700-719 | over metric requests, the floor trims only the first request's dates; all later requests keep every date, unless every date is before the floor |
| Scheduling.NoResumeFilter | sdk/sdk.go:663-676 | with neither `date` nor `requestId`, the schedule is every request's pairs in request order, with `metrics × dates + dimensions` pairs |
| Scheduling.DateResume | sdk/sdk.go:679-722 | with `date` set and unparseable, the result is an error; otherwise no dimension request appears, every pair is dated and its request is listed, the first date is not before the resume date, and the output is the walk without its leading pairs before that date |
| Scheduling.DimensionStateDateIsError | sdk/sdk.go:680-683 | resuming from the date `"dimension"` is an invalid-date error |
| Scheduling.RequestIdResume | sdk/sdk.go:725-746 | resuming by request id alone gives the pairs of the first request with that id and of every later request, dimensions included; an unknown id gives nothing |
| Scheduling.DateAndRequestIdResume | sdk/sdk.go:685-720 | resuming by date and request id starts at the first metric request with that id, with the date floor applied; a dimension request never opens the gate; an unknown id gives nothing |
| Scheduling.AllPairs | sdk/sdk.go:663-676 | the unfiltered loop returns exactly the reference pairs |
| Scheduling.PairsFromDate | sdk/sdk.go:679-722 | the date-resume loop returns the floor applied to the walk of the gated metric requests |
| Scheduling.PairsFromRequest | sdk/sdk.go:725-746 | the request-id loop returns the pairs of the gated requests |
| Scheduling.GetRequestsByDate | sdk/sdk.go:638-750 | the request error, then the date-range error, then the case chosen by the non-empty resume entries gives exactly the reference schedule |
| AdAccounts.NormalizeAdAccountID | sdk/sdk.go:507-515 | `account_id` wins when non-empty, else `id`; the result is empty exactly when both are |
| AdAccounts.FirstStringValue | sdk/sdk.go:525-532 | the first key in list order under which the map holds a non-empty string, or none when no key does |
| AdAccounts.ExtractAdAccountFromLooseMap | sdk/sdk.go:518-533 | a found id is a non-empty string stored under one of the eight synonyms; nothing is found exactly when no synonym holds one |
| AdAccounts.LooseMapIgnoresOtherKeys | sdk/sdk.go:519-524 | keys outside the synonym list never change the lookup |
| AdAccounts.IdIsNotAnAccountKey | sdk/sdk.go:523 | a value under `id` is never read as an explicit account |
| AdAccounts.LooseMapPriority | sdk/sdk.go:525-531 | a non-empty string under an earlier synonym wins over later ones |
| AdAccounts.IsZeroConnectorsAccountRequest | sdk/sdk.go:627-630 | the descriptor encodes to `{}`; no `ensures` of its own. Its contract is `AdAccounts.DescriptorNeverZero`: the test is never true |
| AdAccounts.DescriptorNeverZero | sdk/sdk.go:627-630 | a descriptor never re-encodes to `{}`, so the zero test is always false |
| AdAccounts.DescriptorNeverSuppliesAccount | sdk/sdk.go:544-553 | the re-encoded descriptor has no synonym key, so it never yields an explicit account |
| AdAccounts.ExtractExplicitAdAccountID | sdk/sdk.go:535-555 | an explicit account id is never empty |
| AdAccounts.OnlyPayloadSuppliesAccount | sdk/sdk.go:535-555 | the explicit account is the loose-map lookup on the request payload when that payload is an object, and none otherwise |
| AdAccounts.CarryItems | sdk/sdk.go:574-579 | every carried account is a configured one, carried under its normalized non-empty id, and there are at most as many as configured |
| AdAccounts.NoDeduplication | sdk/sdk.go:575-578 | an account with an id is carried once more every time it is listed |
| AdAccounts.AnonymousAccountDropped | sdk/sdk.go:576 | an account without an id is never carried |
| AdAccounts.FindAccount | sdk/sdk.go:586-593 | the account found is the first carried one with the id; none when no carried account has it |
| AdAccounts.FoundAccountMatches | sdk/sdk.go:587-593 | an account found for an id is a configured account whose normalized id is that id |
| AdAccounts.FindAppend | sdk/sdk.go:587-593 | the first match in a concatenation is the first part's match, else the second part's |
| AdAccounts.CarryComplete | sdk/sdk.go:574-593 | for a non-empty id, the search finds nothing exactly when no configured account has that normalized id |
| AdAccounts.CarryFindsFirst | sdk/sdk.go:574-593 | for a non-empty id, the account found is the first configured account whose normalized id it is |
| AdAccounts.FanOne | sdk/sdk.go:584-621 | each pair yields at least one item; exactly one without carried accounts; at most one per carried account otherwise |
| AdAccounts.PerAccount | sdk/sdk.go:603-612 | one item per carried account, in carry order, each with that account's id and object |
| AdAccounts.FlattenAppend | sdk/sdk.go:583-622 | items appended block after block: flattening a concatenation concatenates the flattenings |
| AdAccounts.FlattenMember | sdk/sdk.go:583-622 | an item is in the output exactly when it is in one pair's block |
| AdAccounts.FlattenLength | sdk/sdk.go:583-622 | the output length is bounded by the block-length bounds times the number of blocks |
| AdAccounts.FanOutAppend | sdk/sdk.go:583-622 | the fan-out of concatenated pair lists is the concatenation of their fan-outs |
| AdAccounts.FanOneCases | sdk/sdk.go:584-621 | every item keeps its pair's date and request; an explicit id gives one item with the found account or none; otherwise each carried account gives one item; with no carried accounts there is one item with no account |
| AdAccounts.FanOutCount | sdk/sdk.go:583-622 | there are at least as many items as pairs; exactly as many without carried accounts; at most `pairs × accounts` otherwise |
| AdAccounts.NoExplicitIdsFromPayloads | sdk/sdk.go:535-555 | when no payload holds a synonym key, no pair has an explicit account |
| AdAccounts.FanOutCrossCount | sdk/sdk.go:603-612 | with carried accounts and no explicit ids, there are exactly `pairs × accounts` items |
| AdAccounts.FanOutCrossCovers | sdk/sdk.go:603-612 | with no explicit ids, every pair is served by every carried account |
| AdAccounts.FanOutCrossOnly | sdk/sdk.go:603-612 | with carried accounts and no explicit ids, every item is some pair served by some carried account |
| AdAccounts.FanOutCross | sdk/sdk.go:603-612 | both directions together: the items are exactly the pairs crossed with the carried accounts |
| AdAccounts.FanOutExplicit | sdk/sdk.go:584-600 | a pair with an explicit id contributes an item with that id and the first carried account under it, if any |
| AdAccounts.CarryAccounts | sdk/sdk.go:574-579 | the carry loop returns exactly the reference carry |
| AdAccounts.FindCarried | sdk/sdk.go:586-593 | the search loop, with its early `break`, returns the first carried account with the id |
| AdAccounts.AppendPerAccount | sdk/sdk.go:604-612 | the per-account loop appends one item per carried account, in order |
| AdAccounts.GetRequestsByDateAndAdAccounts | sdk/sdk.go:558-625 | the pairs error, then the accounts error, then the fan-out of every pair gives exactly the reference result |
| QErrors.GetErrorCodeType | sdk/errors.go:92-97 | `TMP` exactly for the three temporary codes, `DEF` exactly for the twelve definitive ones, empty for every other code |
| QErrors.ErrorCode | sdk/errors.go:120-125 | a nil error has code 0; otherwise its own code |
| QErrors.ErrorMessage | sdk/errors.go:128-143 | a nil error gives `nil QError`; code 0 gives the empty text; a listed code gives its label; any other gives `unknown error` |
| QErrors.Error | sdk/errors.go:100-110 | a nil error gives `nil QError`; otherwise the code and its label, followed by the cause exactly when `Err` is non-empty |
| QErrors.TablesCoverSameCodes | sdk/errors.go:37-71 | the label table and the message table both cover exactly the fifteen declared codes |
| QErrors.CodeKindsDisjoint | sdk/errors.go:18-35 | no code is both temporary and definitive |
| QErrors.MessageKnownIffTyped | sdk/errors.go:92-97 | for a non-zero code, the message is not `unknown error` exactly when the code has a type |
| QErrors.MessageEmptyIffCodeZero | sdk/errors.go:128-143 | the message is empty exactly for code 0 |
| QErrors.NoLabelIsUnknown | sdk/errors.go:55-71 | no label is empty or reads `unknown error` |
| QErrors.LabelsHaveNoComma | sdk/errors.go:55-71 | no label contains a comma |
| QErrors.NumberHasNoComma | sdk/errors.go:106-109 | the `%d` text of a code has no comma |
| QErrors.HeadHasNoCause | sdk/errors.go:109 | the text without a cause never contains `, cause: ` |
| QErrors.ErrorHasCauseIff | sdk/errors.go:100-110 | the text of a non-nil error contains `, cause: ` exactly when `Err` is non-empty |
| QErrors.Atoi | sdk/errors.go:81-87 | a parse succeeds exactly on an optional sign followed by decimal digits whose value fits 64 bits, and gives that value |
| QErrors.ParseQErrorCode | sdk/errors.go:73-90 | `int` and `int64` values are taken as they are; a string is parsed; any other type gives `(0, false)`; a failure always gives code 0 |
| QErrors.CodeTextRoundTrip | sdk/errors.go:81-87 | a code written with `%d` parses back to itself |

## Left out

- Logging (`Infof`), `DumpToFile`, the message types and everything else of `sdk` outside the two cores are not part of this model.
- JSON text is not modelled. `connectorConf` and the payloads are decoded values (`Json`). The marshal and unmarshal round trips become functions on those values, and their `err` results become the decode errors they can raise.
- Descriptor decode: Go's case-insensitive key matching is left out. Keys match exactly. The schema is kept as a raw value; its inner typing is not checked. In the re-encoded descriptor, the value under `schema` is that raw value, not Go's re-encoding of the `Schema` struct (which always has `orderedFields` and `tableName` and drops unknown inner keys); only the key set of the re-encoded descriptor is modelled, and it is the only part that is ever read.
- `GetAdAccounts` is an input. `GetRequestsByDateAndAdAccounts` takes the decoded accounts, or their decode error, as a `Result`.
- `AdAccountChildID` is never set by the core and is not a field of the model.
- Time zones and times of day are left out. Every parsed date is a day ordinal at midnight UTC.
- The defensive `if !startedReq { continue }` inside the dates loop of the date-resume case cannot be reached and is not modelled.
- The error texts of `fmt.Errorf` (wrapping with `%w`) are not modelled. Each error site is an `SdkError` constructor.
- QErrors.ParseQErrorCode: the `float64` case (`QErrorCode(int(v))`) is not modelled. Go converts a float to an integer by truncating toward zero, but the result for a value outside the `int` range, or for NaN, is implementation-dependent, and the model can state no value for those inputs. A JSON number decodes as `float64`, so the model does not cover a numeric code read from decoded JSON.
- `QError.MarshalJSON` and `QError.Unwrap` are not modelled; they produce JSON text and wrapped errors.
- QErrors.Atoi: the exact error values of `strconv.Atoi` (`ErrSyntax`, `ErrRange`) are collapsed into `None`.
- The loops of `GetRequestsByDate` and `GetRequestsByDateAndAdAccounts` are split into helper methods (`AllPairs`, `PairsFromDate`, `PairsFromRequest`, `CarryAccounts`, `FindCarried`, `AppendPerAccount`). They keep the source's order of work.
- The `requests` loop of `GetRequests` (sdk/sdk.go:468-472) is the helper method `ProcessItems`, which keeps the source's order of work and its early return.
- Pointer identity is not modelled. The `acCopy` copies become account values in `Some`.
