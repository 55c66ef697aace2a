# Perx client: request planning, id guards and status handling

This project models the request-building core of the Perx API client
(`src/client.ts`). Each client call is modelled as a pure function. It maps
the call's arguments to the HTTP request the client sends: verb, path,
bearer header, query parameters and body. For calls that check an id before
sending, the function returns a `Plan` instead. A plan is either
`BadRequest(message)`, for the bad-request error the client throws before
any request is made, or `Send(request)`.

The model covers:

- **The reward-scope translation** (`fromRewardsScopeToQueryParams`). It is
  an imperative method that builds the parameter map field by field, as the
  source does. It is proved equal to the specification function
  `RewardScopes.RewardQuery`. Beside it are these lemmas:
  - a parameter is present exactly when its field is truthy;
  - the renaming table sends `catalogId` as `filter_for_catalogs`, `order`
    as `order_by`, `categoryNamePrefix` as `categories`, and so on;
  - numbers are sent as decimal text that reads back;
  - the translation loses only falsy fields (the round trip through
    `ScopeFromQuery`).
- **The id guards.** `/^\d+$/` is applied to the template string of the id.
  `/^(me|\d+)$/` is its widening for customers. They guard issueVoucher,
  reserveReward, releaseRewardReservation, confirmRewardReservation,
  redeemVoucher, releaseVoucher, getLoyaltyProgram and getCustomer. Each
  guarded planner states:
  - it sends exactly when the guard accepts;
  - the exact error message when it refuses;
  - that the path's id segment is the id text.

  Further lemmas show:
  - a numeric id passes exactly when it is not negative;
  - an accepted id segment contains only digits;
  - no loyalty-program id can reach the `transactions_history` endpoint.
- **Defaults and omitted parameters.** JavaScript truthiness is modelled
  explicitly (`Js`):
  - getVouchers (`||` defaults of 24 and 1, which also replace an explicit
    0);
  - getCategories (`parentId && {...}`, so a 0 parent id is sent like no
    parent at all);
  - reserveReward (a default parameter of 900000 ms, which does not replace
    an explicit 0);
  - redeemVoucher (`confirm` is left out only when undefined, so `false` is
    sent);
  - searchRewards (page and size are declared, but an omitted one is
    undefined and not sent) and queryLoyaltyTransactionsHistory.
- **Status pre-classification.** The transport accepts every status below
  450 (`validateStatus`). getUserToken, getApplicationToken and
  getCustomerDetail turn a 401 into an Unauthorized error before parsing.
  Every other call hands the 401 to the response parser.

JavaScript numbers are modelled as mathematical integers, and `${n}` as
`Js.DecimalString` (a sign and canonical decimal digits), which has two
round-trip lemmas. A parameter whose value is `undefined` is dropped by the
HTTP layer, so each parameter map holds exactly the parameters the client
hands to the HTTP layer; how that layer writes them into the query string
is not modelled (see "Left out").

Modules:
- `Wrappers`: Option.
- `Js`: truthiness, digits, decimal text.
- `IdGuard`: the two id patterns.
- `Http`: the request shape.
- `RewardScopes`: the reward-scope specification.
- `RewardTranslation`: the imperative translation.
- `QueryParams`: the other calls' parameters.
- `Client`: one planner per call, and lemmas that relate calls.
- `Status`: status handling.

## Model

| member | source | states |
|---|---|---|
| `RewardTranslation.FromRewardsScopeToQueryParams` | src/client.ts:611-644 | the map built by the ten guarded assignments is exactly `RewardQuery(scope)` |
| `RewardScopes.RewardQuery` | src/client.ts:611-644 | a parameter is present exactly when its scope field is truthy; its value is the field's value, or the decimal text of a page or size, or the text 'true' for the points flag; no other key appears |
| `RewardScopes.FieldAt` | src/client.ts:613-640 | defined as the order of the ten tests: catalogId, tagIds, filterByPointsBalance, brandId, sortBy, order, categoryNamePrefix, page, pageSize, filterForMerchants |
| `RewardScopes.QueryUpTo` | src/client.ts:612-642 | defined as `out` after the first k guarded assignments: the empty record, then each assignment in source order applied when its test passes |
| `RewardScopes.IsSet` | src/client.ts:613-640 | defined as the ten `if (scope.x)` tests: strings truthy when non-empty, the tag list whenever present, the flag when true, page and size when nonzero |
| `RewardScopes.ParamValue` | src/client.ts:614-641 | defined as the ten assigned values: strings and the tag list as given, the flag as 'true', page and size as their decimal text |
| `RewardScopes.RewardQueryField` | src/client.ts:613-642 | per field: its renamed parameter is present iff the field is truthy, and then carries the field's value |
| `RewardScopes.QueryUpToField` | src/client.ts:613-642 | after the first k assignments, a field's parameter is present iff the field is among the first k and truthy |
| `RewardScopes.QueryUpToNames` | src/client.ts:613-642 | after any prefix of the assignments, only parameter names from the renaming table appear |
| `RewardScopes.RewardQueryFacts` | src/client.ts:611-644 | collected per-field presence and value facts of the full translation |
| `RewardScopes.ParamName` | src/client.ts:613-642 | defined as the renaming table: catalogId to filter_for_catalogs, tagIds to tag_ids, filterByPointsBalance to filter_by_points_balance, brandId to filter_for_brands, sortBy to sort_by, order to order_by, categoryNamePrefix to categories, page to page, pageSize to size, filterForMerchants to filter_for_merchants |
| `RewardScopes.ParamNameInjective` | src/client.ts:613-642 | the renaming table sends distinct scope fields to distinct parameter names, and each name leads back to its field |
| `RewardScopes.ParamNameEq` | src/client.ts:613-642 | two fields share a parameter name exactly when they are the same field |
| `RewardScopes.IndexOfFieldAt` | src/client.ts:613-642 | the position of each assignment in source order and the field it tests correspond one to one |
| `RewardScopes.IndexOf` | src/client.ts:613-642 | every field has a position among the ten assignments |
| `RewardScopes.NormalizeFields` | src/client.ts:613-642 | a normalized field is kept exactly when it is truthy, and is otherwise absent |
| `RewardScopes.TextParamBack` | src/client.ts:613-632 | a text parameter set iff its field is truthy reads back as the truthy part of that field |
| `RewardScopes.NumberParamBack` | src/client.ts:634-639 | a page or size sent as `${n}` iff it is nonzero reads back as that number |
| `RewardScopes.RewardQueryRoundTrip` | src/client.ts:611-644 | reading the parameters back gives the scope with its falsy fields removed, so nothing truthy is lost or altered |
| `RewardScopes.RewardQueryOfNormalize` | src/client.ts:611-644 | dropping falsy fields beforehand does not change the parameters |
| `RewardScopes.RewardQueryEqualIff` | src/client.ts:611-644 | two scopes give the same parameters iff they agree on their truthy fields |
| `RewardScopes.EmptyRewardQuery` | src/client.ts:611-644 | the parameters are empty iff every field is falsy, and `{}` gives no parameters |
| `RewardScopes.RewardQueryValues` | src/client.ts:619-621 | `filter_by_points_balance` is sent iff the flag is true, and then always as the text 'true' |
| `RewardScopes.RewardQueryPaging` | src/client.ts:634-639 | page and size are sent iff nonzero, as decimal text that reads back as the number |
| `Js.NumberOr` | src/client.ts:400-401 | the logical-or default: the value when it is truthy, and the fallback for undefined or 0 |
| `Js.TruthyString` | src/client.ts:402-405 | defined as JavaScript truthiness of an optional string: present and non-empty |
| `Js.TruthyNumber` | src/client.ts:400-401 | defined as JavaScript truthiness of an optional integer: present and not 0 |
| `Js.TruthyBoolean` | src/client.ts:619 | defined as JavaScript truthiness of an optional flag: present and true |
| `Js.TruthyArray` | src/client.ts:616 | defined as JavaScript truthiness of an optional array: present, even when empty |
| `Js.DecimalString` | src/client.ts:635 | defined as `${n}` of an integer: a minus sign for a negative number, then the canonical decimal digits |
| `Js.DigitChar` | src/client.ts:635 | a digit value below 10 becomes a digit character that reads back as that value |
| `Js.DigitValue` | src/client.ts:635 | a digit character's value is below 10 |
| `Js.NatDigits` | src/client.ts:635 | the decimal text of a natural number is canonical (no leading zero) and ends in its last digit |
| `Js.ParseNatOfNatDigits` | src/client.ts:635 | decimal text of a natural number parses back to it |
| `Js.ParseNatLowerBound` | src/client.ts:635 | canonical text of two or more digits denotes at least 10 |
| `Js.NatDigitsOfParseNat` | src/client.ts:635 | canonical digit text is the decimal text of its value |
| `Js.DecimalStringRoundTrip` | src/client.ts:635 | `${n}` parses back to n for every integer |
| `Js.ParseDecimalRoundTrip` | src/client.ts:635 | text that parses to n is exactly `${n}` |
| `Js.DecimalStringInjective` | src/client.ts:635 | distinct integers have distinct decimal text |
| `Js.DecimalStringDigits` | src/client.ts:381 | `${n}` consists of digits only iff n is not negative |
| `Wrappers.Option.GetOr` | src/client.ts:413 | a default parameter: the argument when given, the default when omitted |
| `IdGuard.IdText` | src/client.ts:381 | defined as the template string of an id: a number's decimal text, a string unchanged |
| `IdGuard.IsIntegerLiteral` | src/client.ts:381 | defined as `/^\d+$/`: a non-empty text of ASCII digits only |
| `IdGuard.IsCustomerId` | src/client.ts:524 | defined as the customer pattern of src/client.ts:524: exactly 'me', or an integer literal |
| `IdGuard.NumberIdAccepted` | src/client.ts:381 | a numeric id passes `/^\d+$/` iff it is not negative, and its text reads back as the number |
| `IdGuard.NonDigitRejected` | src/client.ts:381 | any text with a non-digit character fails the integer pattern, and passes the customer pattern only when it is 'me' |
| `IdGuard.PatternExamples` | src/client.ts:381 | the anchored patterns refuse '', '-1', '1.5', ' 1', '1\n', 'me1', 'ME', and accept '0', '007', 'me' (customer only) |
| `Http.Bearer` | src/client.ts:343 | the authorization header is exactly the text 'Bearer ' followed by the token, unchanged |
| `Client.UserAccountScope` | src/client.ts:329 | defined as the template `user_account(identifier:<identifier>)` |
| `Client.ClientCredentials` | src/client.ts:326-328 | defined as the body fields client_id and client_secret from the configuration, and grant_type 'client_credentials' (also src/client.ts:355-357) |
| `Client.UserAccountScopeRoundTrip` | src/client.ts:329 | the user identifier reads back from the token scope `user_account(identifier:...)` |
| `Client.GetApplicationToken` | src/client.ts:353-365 | POST to the token path, no header, and a body of exactly the configured client id, the configured client secret and the client-credentials grant |
| `Client.GetUserToken` | src/client.ts:324-338 | the configured client id and secret and the client-credentials grant, plus the user scope and the configured `expires_in` |
| `Client.TokenRequestsAgree` | src/client.ts:324-365 | the application body is the user body without scope and expires_in; user token requests are injective in the identifier |
| `Client.GetCustomerDetail` | src/client.ts:340-351 | GET with no parameters and no body; an unchecked numeric id: the path is the user-accounts prefix followed by text that reads back as the id |
| `Client.InvalidIdMessage` | src/client.ts:382 | defined as the bad-request text 'Invalid <argument>: <value>, expected <argument> as integer' |
| `Client.CheckIntegerId` | src/client.ts:381-383 | sends the request iff the id text is an integer literal; otherwise the message naming the argument and echoing the value |
| `Client.IdPath` | src/client.ts:384 | defined as the path template: the prefix, then the id text, then the suffix (as at src/client.ts:417, 434, 449, 464, 481, 496 and 527); the token scope of src/client.ts:329 is the same template |
| `Client.SegmentOfIdPath` | src/client.ts:384 | the id segment of an id path is the id, whatever the prefix and suffix |
| `Client.IssueVoucher` | src/client.ts:380-392 | sends iff the reward id is an integer literal; message 'Invalid rewardId: …'; POST, empty object, id in `/v4/rewards/{id}/issue` |
| `Client.ReserveReward` | src/client.ts:413-428 | as issueVoucher, to `/reserve`, with the timeout parameter |
| `Client.ReleaseRewardReservation` | src/client.ts:430-443 | sends iff the reservation id is an integer literal; PATCH `/v4/vouchers/{id}/release` |
| `Client.ConfirmRewardReservation` | src/client.ts:445-458 | sends iff the reservation id is an integer literal; PATCH `/v4/vouchers/{id}/confirm` |
| `Client.RedeemVoucher` | src/client.ts:460-475 | sends iff the voucher id is an integer literal; POST to `/redeem` with `confirm` passed through |
| `Client.ReleaseVoucher` | src/client.ts:477-490 | sends iff the voucher id is an integer literal; PATCH `/v4/vouchers/{id}/release` |
| `Client.GetLoyaltyProgram` | src/client.ts:492-505 | sends iff the program id is an integer literal; GET `/v4/loyalty/{id}` |
| `Client.GetCustomer` | src/client.ts:523-536 | id defaults to 'me'; sends iff the id text is 'me' or an integer literal; message 'Invalid customerId: …, expected customer as integer' |
| `Client.GetMe` | src/client.ts:519-521 | always sends, to `/v4/customers/me` |
| `Client.GetRewards` | src/client.ts:367-378 | GET `/v4/rewards`, no body, with the translated scope, which reads back as the scope without its falsy fields |
| `Client.GetVouchers` | src/client.ts:394-411 | GET `/v4/vouchers`, no body, with the voucher parameters, which read back as the effective scope |
| `Client.GetLoyaltyPrograms` | src/client.ts:507-517 | GET `/v4/loyalty`, no parameters |
| `Client.SubmitTransaction` | src/client.ts:538-549 | POST `/v4/pos/transactions` with the application token and the serialized body as given |
| `Client.SubmitLoyaltyTransaction` | src/client.ts:551-562 | POST `/v4/pos/loyalty_transactions` with the serialized body as given |
| `Client.SearchRewards` | src/client.ts:564-578 | GET `/v4/search`, no body, with the keyword always and page and size whenever they are passed (an omitted one is undefined and not sent) |
| `Client.GetCategories` | src/client.ts:580-594 | GET `/v4/categories` with the category parameters |
| `Client.QueryLoyaltyTransactionsHistory` | src/client.ts:596-609 | GET `/v4/loyalty/transactions_history` with page and `size := perPage` |
| `Client.IntegerChecksAgree` | src/client.ts:380-505 | all seven integer-checked calls accept exactly the same ids |
| `Client.NumberMatchesItsText` | src/client.ts:380-536 | a numeric id and its decimal string give the same plan, passing or failing together and sending the same request, for issueVoucher, redeemVoucher, releaseVoucher, getLoyaltyProgram and getCustomer |
| `Client.NumericIds` | src/client.ts:380-392 | a numeric id is accepted iff not negative, and the path segment reads back as the number |
| `Client.CheckedSegmentsAreDigits` | src/client.ts:380-505 | no non-digit character (slash, dot, '?', '#') can appear in an accepted id segment |
| `Client.LoyaltyProgramIsNotHistory` | src/client.ts:492-505 | no accepted loyalty-program id yields the transactions-history path |
| `Client.ReleaseCallsCoincide` | src/client.ts:430-490 | releaseRewardReservation and releaseVoucher send the same request for the same id, and differ only in their error message |
| `Client.CustomerIds` | src/client.ts:519-536 | getMe is getCustomer for 'me' and for no id; the customer check is the integer check plus exactly 'me' |
| `QueryParams.PutText` | src/client.ts:402-405 | a string parameter is added iff it is truthy; a falsy one leaves the map exactly as it was, and no other key changes |
| `QueryParams.VoucherQuery` | src/client.ts:399-406 | size and page are always sent (24 and 1 when absent or 0); state, type, sort_by and order only when truthy |
| `QueryParams.VoucherQueryRoundTrip` | src/client.ts:399-406 | reading the parameters back gives the effective scope |
| `QueryParams.VoucherQueryEqualIff` | src/client.ts:399-406 | two voucher scopes give the same parameters iff their effective scopes agree |
| `QueryParams.VoucherQueryDefaults` | src/client.ts:400-401 | `{}` asks for page 1 of 24; 0 acts like absent; a page or size of 0 is never sent |
| `QueryParams.CategoryQuery` | src/client.ts:585-589 | parent_id is present iff the parent id is truthy; page and size always |
| `QueryParams.CategoryQueryEqualIff` | src/client.ts:585-589 | two category requests coincide iff their truthy parent ids, pages and sizes do |
| `QueryParams.CategoryParentZeroIsRoot` | src/client.ts:586 | a parent id of 0 is sent like no parent id |
| `QueryParams.PutNumber` | src/client.ts:571-572 | a number parameter is added iff it is passed, 0 included, and nothing else changes |
| `QueryParams.SearchQuery` | src/client.ts:569-573 | search_string always, even empty; page and size present iff passed, with their values as given; no other key |
| `QueryParams.SearchQueryInjective` | src/client.ts:569-573 | a search request determines keyword, page and size, including which of page and size were omitted |
| `QueryParams.SearchKeywordOnly` | src/client.ts:569-573 | a search without page and size sends the keyword alone |
| `QueryParams.HistoryQuery` | src/client.ts:601-604 | exactly page and size, the latter carrying perPage |
| `QueryParams.HistoryPagingMatchesSearch` | src/client.ts:564-609 | history paging is search paging without the keyword |
| `QueryParams.ReserveQuery` | src/client.ts:413-423 | timeout is always sent: 900000 when omitted, the argument as given otherwise |
| `QueryParams.ReserveQueryTimeouts` | src/client.ts:413-423 | omitting is 900000; distinct timeouts give distinct requests; an explicit 0 is not replaced |
| `QueryParams.RedeemQuery` | src/client.ts:460-470 | confirm is present iff passed, false included |
| `QueryParams.RedeemQueryInjective` | src/client.ts:460-470 | omitted, false and true give three distinct requests |
| `Status.ValidateStatus` | src/client.ts:303 | defined as the transport's acceptance test: a status below 450 |
| `Status.ChecksUnauthorized` | src/client.ts:333-362 | defined as the calls that test for 401 themselves: getUserToken, getApplicationToken and getCustomerDetail |
| `Status.Settle` | src/client.ts:303 | a transport failure iff status >= 450; Unauthorized iff the status is 401 and the call checks it; parsed otherwise, keeping the status |
| `Status.SettleAgreesAwayFrom401` | src/client.ts:303-361 | for any status other than 401 every call settles alike |
| `Status.UnauthorizedOnlyWhereChecked` | src/client.ts:333-362 | a 401 becomes Unauthorized exactly for getUserToken, getApplicationToken and getCustomerDetail; other calls parse it |
| `Status.ValidateStatusThreshold` | src/client.ts:303 | 449 and 404 are parsed, 450 and 500 are transport failures |

## Left out

- The axios instance, `baseURL`, and the debug interceptors that log requests and responses (src/client.ts:300-317) are left out. They are I/O and do not affect which request is built.
- Promises and `async`/`await` are not modelled. Each call is modelled as the request it sends, together with the status handling applied to its response.
- `BasePerxResponse.parseAndEval`, the response models and `PerxError` are not part of this model. A parsed response is represented only by `Status.Parse(status)`.
- `Serialize` of transactions and the `makeEarnRequest`/`makeBurnRequest` helpers are not part of this model. The serialized text is a parameter of SubmitTransaction and SubmitLoyaltyTransaction.
- config.ts is not part of this model. `tokenDurationInSeconds` is taken as an integer.
- JavaScript numbers are integers here: NaN, infinities, fractions and exponent notation in `${n}` are not modelled. A fractional id would fail the integer pattern in the source as well.
- Client.GetVouchers: a `null` or `undefined` scope is not modelled. With such a scope, `scope?.size` would survive, but `scope.state` throws.
- How axios serializes parameters into a query string is not modelled: the order of the parameters (the source's records keep insertion order, a map does not), array brackets, escaping, and the number-to-text conversion of plain numeric parameters.
- An empty `tagIds` array is truthy, so the parameter map holds `tag_ids` with an empty list, but axios writes no `tag_ids` pair for it. RewardScopes.RewardQueryRoundTrip and Client.GetRewards state their read-back on the parameter map, not on the query string that is sent.
- The difference between sending `params: {}` and sending no params at all is not modelled. Both are an empty parameter map here.
- The state changes a call causes on the server (issuing, reserving or redeeming a voucher) lie outside the client and are not modelled.
- src/__tests__/client.test.ts runs against a live server and is not modelled.
