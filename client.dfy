/**
 * The calls of `PerxService` as request planners: given the call's
 * arguments (and the read-only configuration), each returns the request it
 * makes, or the bad-request error it fails with before making any request.
 */
module Client {
  import opened Wrappers
  import opened Js
  import opened Http
  import opened IdGuard
  import opened RewardScopes
  import opened QueryParams

  /** The part of the configuration the calls read; the base URL belongs to the transport. */
  datatype PerxConfig = PerxConfig(clientId: string, clientSecret: string, tokenDurationInSeconds: int)

  const TokenPath := "/v4/oauth/token"

  // ---------------------------------------------------------------------
  // Templates with one value in the middle
  // ---------------------------------------------------------------------

  /** A template with one value between a fixed prefix and suffix: the id paths and the token scope. */
  function IdPath(prefix: string, id: string, suffix: string): string {
    prefix + id + suffix
  }

  /** The value between the prefix and the suffix: the inverse of IdPath. */
  function SegmentOf(path: string, prefix: string, suffix: string): Option<string> {
    if |path| >= |prefix| + |suffix| && path[..|prefix|] == prefix && path[|path| - |suffix|..] == suffix
    then Some(path[|prefix|..|path| - |suffix|])
    else None
  }

  lemma SegmentOfIdPath(prefix: string, id: string, suffix: string)
    ensures SegmentOf(IdPath(prefix, id, suffix), prefix, suffix) == Some(id)
  {
    var p := IdPath(prefix, id, suffix);
    assert p[..|prefix|] == prefix;
    assert p[|p| - |suffix|..] == suffix;
    assert p[|prefix|..|p| - |suffix|] == id;
  }

  // ---------------------------------------------------------------------
  // Tokens and the POS customer lookup
  // ---------------------------------------------------------------------

  /** The token scope that binds a user token to one external user identifier. */
  function UserAccountScope(identifier: string): string {
    IdPath("user_account(identifier:", identifier, ")")
  }

  /** Reads the identifier back out of a token scope. */
  function ScopeIdentifier(scope: string): Option<string> {
    SegmentOf(scope, "user_account(identifier:", ")")
  }

  /** The identifier is recoverable from the scope, so distinct users get distinct scopes. */
  lemma UserAccountScopeRoundTrip(identifier: string)
    ensures ScopeIdentifier(UserAccountScope(identifier)) == Some(identifier)
  {
    SegmentOfIdPath("user_account(identifier:", identifier, ")");
  }

  function ClientCredentials(config: PerxConfig): map<string, Value> {
    map["client_id" := Text(config.clientId),
        "client_secret" := Text(config.clientSecret),
        "grant_type" := Text("client_credentials")]
  }

  /** `getApplicationToken`: the client-credentials grant, with no user scope and no expiry. */
  function GetApplicationToken(config: PerxConfig): (r: Request)
    ensures r.verb == Post && r.path == TokenPath && r.authorization == None && r.params == map[]
    ensures r.body.Fields? && r.body.fields.Keys == {"client_id", "client_secret", "grant_type"}
    ensures r.body.fields["client_id"] == Text(config.clientId)
    ensures r.body.fields["client_secret"] == Text(config.clientSecret)
    ensures r.body.fields["grant_type"] == Text("client_credentials")
  {
    Request(Post, TokenPath, None, map[], Fields(ClientCredentials(config)))
  }

  /** `getUserToken`: the same grant, scoped to one user and asking for the configured lifetime. */
  function GetUserToken(config: PerxConfig, userIdentifier: string): (r: Request)
    ensures r.verb == Post && r.path == TokenPath && r.authorization == None && r.params == map[]
    ensures r.body.Fields?
    ensures r.body.fields.Keys == {"client_id", "client_secret", "grant_type", "scope", "expires_in"}
    ensures r.body.fields["client_id"] == Text(config.clientId)
    ensures r.body.fields["client_secret"] == Text(config.clientSecret)
    ensures r.body.fields["grant_type"] == Text("client_credentials")
    ensures r.body.fields["scope"] == Text(UserAccountScope(userIdentifier))
    ensures r.body.fields["expires_in"] == Number(config.tokenDurationInSeconds)
  {
    Request(Post, TokenPath, None, map[], Fields(ClientCredentials(config)[
      "scope" := Text(UserAccountScope(userIdentifier))][
      "expires_in" := Number(config.tokenDurationInSeconds)]))
  }

  /**
   * The two token requests differ only in the user token's two extra body
   * fields, and a user token request names its user: distinct identifiers
   * give distinct requests.
   */
  lemma TokenRequestsAgree(config: PerxConfig, a: string, b: string)
    ensures GetApplicationToken(config).body.fields == GetUserToken(config, a).body.fields - {"scope", "expires_in"}
    ensures GetApplicationToken(config).(body := NoBody) == GetUserToken(config, a).(body := NoBody)
    ensures GetUserToken(config, a) == GetUserToken(config, b) <==> a == b
  {
    var app, user := GetApplicationToken(config).body.fields, GetUserToken(config, a).body.fields - {"scope", "expires_in"};
    assert app.Keys == user.Keys;
    if GetUserToken(config, a) == GetUserToken(config, b) {
      assert GetUserToken(config, a).body.fields["scope"] == GetUserToken(config, b).body.fields["scope"];
      UserAccountScopeRoundTrip(a);
      UserAccountScopeRoundTrip(b);
    }
  }

  const UserAccountsPrefix := "/v4/pos/user_accounts/"

  /** `getCustomerDetail`: the user id is a number, put into the path as `${userId}` without any check. */
  function GetCustomerDetail(applicationToken: string, userId: int): (r: Request)
    ensures r.verb == Get && r.authorization == Bearer(applicationToken) && r.params == map[]
    ensures r.body == NoBody
    ensures |r.path| > |UserAccountsPrefix| && r.path[..|UserAccountsPrefix|] == UserAccountsPrefix
    ensures ParseDecimal(r.path[|UserAccountsPrefix|..]) == Some(userId)
  {
    DecimalStringRoundTrip(userId);
    var path := UserAccountsPrefix + DecimalString(userId);
    assert path[|UserAccountsPrefix|..] == DecimalString(userId);
    Request(Get, path, Bearer(applicationToken), map[], NoBody)
  }

  // ---------------------------------------------------------------------
  // The id checks
  // ---------------------------------------------------------------------

  /** The bad-request message of a failed id check, naming the argument and echoing its value. */
  function InvalidIdMessage(argument: string, text: string): string {
    "Invalid " + argument + ": " + text + ", expected " + argument + " as integer"
  }

  /** `if (!/^\d+$/.test(`${id}`)) throw PerxError.badRequest(...)`, in front of the request. */
  function CheckIntegerId(argument: string, text: string, request: Request): (p: Plan)
    ensures p.Send? <==> IsIntegerLiteral(text)
    ensures p.Send? ==> p.request == request
    ensures p.BadRequest? ==> p.message == InvalidIdMessage(argument, text)
  {
    if IsIntegerLiteral(text) then Send(request) else BadRequest(InvalidIdMessage(argument, text))
  }

  /** Only POSTs and PATCHes with an empty object body `{}`. */
  const EmptyObject := Fields(map[])

  /** `issueVoucher`: POST `/v4/rewards/{rewardId}/issue`. */
  function IssueVoucher(userToken: string, rewardId: Id): (p: Plan)
    ensures p.Send? <==> IsIntegerLiteral(IdText(rewardId))
    ensures p.BadRequest? ==> p.message == InvalidIdMessage("rewardId", IdText(rewardId))
    ensures p.Send? ==> p.request.verb == Post && p.request.authorization == Bearer(userToken)
    ensures p.Send? ==> SegmentOf(p.request.path, "/v4/rewards/", "/issue") == Some(IdText(rewardId))
    ensures p.Send? ==> p.request.params == map[] && p.request.body == EmptyObject
  {
    SegmentOfIdPath("/v4/rewards/", IdText(rewardId), "/issue");
    CheckIntegerId("rewardId", IdText(rewardId),
      Request(Post, IdPath("/v4/rewards/", IdText(rewardId), "/issue"), Bearer(userToken), map[], EmptyObject))
  }

  /** `reserveReward`: POST `/v4/rewards/{rewardId}/reserve`, with the reservation timeout. */
  function ReserveReward(userToken: string, rewardId: string, timeoutInMs: Option<int>): (p: Plan)
    ensures p.Send? <==> IsIntegerLiteral(rewardId)
    ensures p.BadRequest? ==> p.message == InvalidIdMessage("rewardId", rewardId)
    ensures p.Send? ==> p.request.verb == Post && p.request.authorization == Bearer(userToken)
    ensures p.Send? ==> SegmentOf(p.request.path, "/v4/rewards/", "/reserve") == Some(rewardId)
    ensures p.Send? ==> p.request.params == ReserveQuery(timeoutInMs) && p.request.body == EmptyObject
  {
    SegmentOfIdPath("/v4/rewards/", rewardId, "/reserve");
    CheckIntegerId("rewardId", rewardId,
      Request(Post, IdPath("/v4/rewards/", rewardId, "/reserve"), Bearer(userToken), ReserveQuery(timeoutInMs), EmptyObject))
  }

  /** `releaseRewardReservation`: PATCH `/v4/vouchers/{reservationId}/release`. */
  function ReleaseRewardReservation(userToken: string, reservationId: string): (p: Plan)
    ensures p.Send? <==> IsIntegerLiteral(reservationId)
    ensures p.BadRequest? ==> p.message == InvalidIdMessage("reservationId", reservationId)
    ensures p.Send? ==> p.request.verb == Patch && p.request.authorization == Bearer(userToken)
    ensures p.Send? ==> SegmentOf(p.request.path, "/v4/vouchers/", "/release") == Some(reservationId)
    ensures p.Send? ==> p.request.params == map[] && p.request.body == EmptyObject
  {
    SegmentOfIdPath("/v4/vouchers/", reservationId, "/release");
    CheckIntegerId("reservationId", reservationId,
      Request(Patch, IdPath("/v4/vouchers/", reservationId, "/release"), Bearer(userToken), map[], EmptyObject))
  }

  /** `confirmRewardReservation`: PATCH `/v4/vouchers/{reservationId}/confirm`. */
  function ConfirmRewardReservation(userToken: string, reservationId: string): (p: Plan)
    ensures p.Send? <==> IsIntegerLiteral(reservationId)
    ensures p.BadRequest? ==> p.message == InvalidIdMessage("reservationId", reservationId)
    ensures p.Send? ==> p.request.verb == Patch && p.request.authorization == Bearer(userToken)
    ensures p.Send? ==> SegmentOf(p.request.path, "/v4/vouchers/", "/confirm") == Some(reservationId)
    ensures p.Send? ==> p.request.params == map[] && p.request.body == EmptyObject
  {
    SegmentOfIdPath("/v4/vouchers/", reservationId, "/confirm");
    CheckIntegerId("reservationId", reservationId,
      Request(Patch, IdPath("/v4/vouchers/", reservationId, "/confirm"), Bearer(userToken), map[], EmptyObject))
  }

  /** `redeemVoucher`: POST `/v4/vouchers/{voucherId}/redeem`, passing `confirm` through. */
  function RedeemVoucher(userToken: string, voucherId: Id, confirm: Option<bool>): (p: Plan)
    ensures p.Send? <==> IsIntegerLiteral(IdText(voucherId))
    ensures p.BadRequest? ==> p.message == InvalidIdMessage("voucherId", IdText(voucherId))
    ensures p.Send? ==> p.request.verb == Post && p.request.authorization == Bearer(userToken)
    ensures p.Send? ==> SegmentOf(p.request.path, "/v4/vouchers/", "/redeem") == Some(IdText(voucherId))
    ensures p.Send? ==> p.request.params == RedeemQuery(confirm) && p.request.body == EmptyObject
  {
    SegmentOfIdPath("/v4/vouchers/", IdText(voucherId), "/redeem");
    CheckIntegerId("voucherId", IdText(voucherId),
      Request(Post, IdPath("/v4/vouchers/", IdText(voucherId), "/redeem"), Bearer(userToken), RedeemQuery(confirm), EmptyObject))
  }

  /** `releaseVoucher`: PATCH `/v4/vouchers/{voucherId}/release`. */
  function ReleaseVoucher(userToken: string, voucherId: Id): (p: Plan)
    ensures p.Send? <==> IsIntegerLiteral(IdText(voucherId))
    ensures p.BadRequest? ==> p.message == InvalidIdMessage("voucherId", IdText(voucherId))
    ensures p.Send? ==> p.request.verb == Patch && p.request.authorization == Bearer(userToken)
    ensures p.Send? ==> SegmentOf(p.request.path, "/v4/vouchers/", "/release") == Some(IdText(voucherId))
    ensures p.Send? ==> p.request.params == map[] && p.request.body == EmptyObject
  {
    SegmentOfIdPath("/v4/vouchers/", IdText(voucherId), "/release");
    CheckIntegerId("voucherId", IdText(voucherId),
      Request(Patch, IdPath("/v4/vouchers/", IdText(voucherId), "/release"), Bearer(userToken), map[], EmptyObject))
  }

  /** `getLoyaltyProgram`: GET `/v4/loyalty/{loyaltyProgramId}`. */
  function GetLoyaltyProgram(userToken: string, loyaltyProgramId: Id): (p: Plan)
    ensures p.Send? <==> IsIntegerLiteral(IdText(loyaltyProgramId))
    ensures p.BadRequest? ==> p.message == InvalidIdMessage("loyaltyProgramId", IdText(loyaltyProgramId))
    ensures p.Send? ==> p.request.verb == Get && p.request.authorization == Bearer(userToken)
    ensures p.Send? ==> SegmentOf(p.request.path, "/v4/loyalty/", "") == Some(IdText(loyaltyProgramId))
    ensures p.Send? ==> p.request.params == map[] && p.request.body == NoBody
  {
    SegmentOfIdPath("/v4/loyalty/", IdText(loyaltyProgramId), "");
    CheckIntegerId("loyaltyProgramId", IdText(loyaltyProgramId),
      Request(Get, IdPath("/v4/loyalty/", IdText(loyaltyProgramId), ""), Bearer(userToken), map[], NoBody))
  }

  /** `getCustomer`: GET `/v4/customers/{customerId}`, the customer id defaulting to 'me'. */
  function GetCustomer(userToken: string, customerId: Option<Id>): (p: Plan)
    ensures var text := IdText(customerId.GetOr(StringId("me")));
      && (p.Send? <==> IsCustomerId(text))
      && (p.BadRequest? ==> p.message == "Invalid customerId: " + text + ", expected customer as integer")
      && (p.Send? ==> p.request.verb == Get && p.request.authorization == Bearer(userToken))
      && (p.Send? ==> SegmentOf(p.request.path, "/v4/customers/", "") == Some(text))
      && (p.Send? ==> p.request.params == map[] && p.request.body == NoBody)
  {
    var text := IdText(customerId.GetOr(StringId("me")));
    SegmentOfIdPath("/v4/customers/", text, "");
    if IsCustomerId(text)
    then Send(Request(Get, IdPath("/v4/customers/", text, ""), Bearer(userToken), map[], NoBody))
    else BadRequest("Invalid customerId: " + text + ", expected customer as integer")
  }

  /** `getMe`: getCustomer for 'me'. */
  function GetMe(userToken: string): (p: Plan)
    ensures p.Send? && p.request.path == "/v4/customers/me"
  {
    assert IsCustomerId("me");
    GetCustomer(userToken, Some(StringId("me")))
  }

  // ---------------------------------------------------------------------
  // The calls without an id check
  // ---------------------------------------------------------------------

  /** `getRewards`: the reward scope travels as its translated query. */
  function GetRewards(userToken: string, scope: RewardScope): (r: Request)
    ensures r.verb == Get && r.path == "/v4/rewards" && r.authorization == Bearer(userToken)
    ensures r.params == RewardQuery(scope) && ScopeFromQuery(r.params) == Normalize(scope)
    ensures r.body == NoBody
  {
    RewardQueryRoundTrip(scope);
    Request(Get, "/v4/rewards", Bearer(userToken), RewardQuery(scope), NoBody)
  }

  /** `getVouchers`: page size and page defaulted, the rest only when set. */
  function GetVouchers(userToken: string, scope: VoucherScope): (r: Request)
    ensures r.verb == Get && r.path == "/v4/vouchers" && r.authorization == Bearer(userToken)
    ensures r.params == VoucherQuery(scope) && VoucherScopeFromQuery(r.params) == EffectiveVoucherScope(scope)
    ensures r.body == NoBody
  {
    VoucherQueryRoundTrip(scope);
    Request(Get, "/v4/vouchers", Bearer(userToken), VoucherQuery(scope), NoBody)
  }

  function GetLoyaltyPrograms(userToken: string): (r: Request)
    ensures r.verb == Get && r.path == "/v4/loyalty" && r.authorization == Bearer(userToken)
    ensures r.params == map[] && r.body == NoBody
  {
    Request(Get, "/v4/loyalty", Bearer(userToken), map[], NoBody)
  }

  /** `submitTransaction`: the body is the serializer's output, sent as given. */
  function SubmitTransaction(applicationToken: string, serialized: string): (r: Request)
    ensures r.verb == Post && r.path == "/v4/pos/transactions" && r.authorization == Bearer(applicationToken)
    ensures r.params == map[] && r.body == Serialized(serialized)
  {
    Request(Post, "/v4/pos/transactions", Bearer(applicationToken), map[], Serialized(serialized))
  }

  /** `submitLoyaltyTransaction`: likewise, to the loyalty-transaction endpoint. */
  function SubmitLoyaltyTransaction(applicationToken: string, serialized: string): (r: Request)
    ensures r.verb == Post && r.path == "/v4/pos/loyalty_transactions" && r.authorization == Bearer(applicationToken)
    ensures r.params == map[] && r.body == Serialized(serialized)
  {
    Request(Post, "/v4/pos/loyalty_transactions", Bearer(applicationToken), map[], Serialized(serialized))
  }

  /** `searchRewards`: page and size are declared, but an omitted one is undefined and not sent. */
  function SearchRewards(userToken: string, keyword: string, page: Option<int>, size: Option<int>): (r: Request)
    ensures r.verb == Get && r.path == "/v4/search" && r.authorization == Bearer(userToken)
    ensures r.params == SearchQuery(keyword, page, size) && r.body == NoBody
  {
    Request(Get, "/v4/search", Bearer(userToken), SearchQuery(keyword, page, size), NoBody)
  }

  function GetCategories(userToken: string, parentId: Option<int>, page: int, size: int): (r: Request)
    ensures r.verb == Get && r.path == "/v4/categories" && r.authorization == Bearer(userToken)
    ensures r.params == CategoryQuery(parentId, page, size) && r.body == NoBody
  {
    Request(Get, "/v4/categories", Bearer(userToken), CategoryQuery(parentId, page, size), NoBody)
  }

  function QueryLoyaltyTransactionsHistory(userToken: string, page: int, perPage: int): (r: Request)
    ensures r.verb == Get && r.path == "/v4/loyalty/transactions_history" && r.authorization == Bearer(userToken)
    ensures r.params == HistoryQuery(page, perPage) && r.body == NoBody
  {
    Request(Get, "/v4/loyalty/transactions_history", Bearer(userToken), HistoryQuery(page, perPage), NoBody)
  }

  // ---------------------------------------------------------------------
  // Properties across calls
  // ---------------------------------------------------------------------

  /**
   * The reward, reservation, voucher and loyalty-program checks are one and
   * the same rule, whatever the call: an id passes exactly when its string
   * form is one or more ASCII digits.
   */
  lemma IntegerChecksAgree(userToken: string, id: Id, timeoutInMs: Option<int>, confirm: Option<bool>)
    ensures var ok := IsIntegerLiteral(IdText(id));
      && IssueVoucher(userToken, id).Send? == ok
      && ReserveReward(userToken, IdText(id), timeoutInMs).Send? == ok
      && ReleaseRewardReservation(userToken, IdText(id)).Send? == ok
      && ConfirmRewardReservation(userToken, IdText(id)).Send? == ok
      && RedeemVoucher(userToken, id, confirm).Send? == ok
      && ReleaseVoucher(userToken, id).Send? == ok
      && GetLoyaltyProgram(userToken, id).Send? == ok
  {
  }

  /**
   * A number and its decimal string are the same id to every call that takes
   * `string | number`: `issueVoucher(t, 5)` and `issueVoucher(t, '5')` pass
   * or fail together and send the same request.
   */
  lemma NumberMatchesItsText(userToken: string, n: int, confirm: Option<bool>)
    ensures IssueVoucher(userToken, NumberId(n)) == IssueVoucher(userToken, StringId(DecimalString(n)))
    ensures RedeemVoucher(userToken, NumberId(n), confirm) == RedeemVoucher(userToken, StringId(DecimalString(n)), confirm)
    ensures ReleaseVoucher(userToken, NumberId(n)) == ReleaseVoucher(userToken, StringId(DecimalString(n)))
    ensures GetLoyaltyProgram(userToken, NumberId(n)) == GetLoyaltyProgram(userToken, StringId(DecimalString(n)))
    ensures GetCustomer(userToken, Some(NumberId(n))) == GetCustomer(userToken, Some(StringId(DecimalString(n))))
  {
  }

  /**
   * A numeric id passes exactly when it is not negative, and the id segment
   * of the path then reads back as that number.
   */
  lemma NumericIds(userToken: string, n: int)
    ensures IssueVoucher(userToken, NumberId(n)).Send? <==> n >= 0
    ensures IssueVoucher(userToken, NumberId(n)).Send? ==>
      var seg := SegmentOf(IssueVoucher(userToken, NumberId(n)).request.path, "/v4/rewards/", "/issue");
      seg.Some? && ParseDecimal(seg.value) == Some(n)
  {
    NumberIdAccepted(n);
  }

  /**
   * Every path a checked call sends carries only digits in its id segment:
   * no slash, dot, query or fragment can be smuggled into it.
   */
  lemma CheckedSegmentsAreDigits(userToken: string, id: Id, c: char)
    requires !IsDigit(c)
    ensures IssueVoucher(userToken, id).Send? ==> c !in IdText(id)
    ensures GetLoyaltyProgram(userToken, id).Send? ==> c !in IdText(id)
  {
    if c in IdText(id) {
      var i :| 0 <= i < |IdText(id)| && IdText(id)[i] == c;
      NonDigitRejected(IdText(id), i);
    }
  }

  /**
   * No loyalty-program id can reach the transactions-history endpoint, which
   * shares its prefix: `transactions_history` is not an integer literal.
   */
  lemma LoyaltyProgramIsNotHistory(userToken: string, id: Id, page: int, perPage: int)
    ensures GetLoyaltyProgram(userToken, id).Send? ==>
      GetLoyaltyProgram(userToken, id).request.path != QueryLoyaltyTransactionsHistory(userToken, page, perPage).path
  {
    if GetLoyaltyProgram(userToken, id).Send? {
      var text, p := IdText(id), GetLoyaltyProgram(userToken, id).request.path;
      assert p == "/v4/loyalty/" + text;
      assert IsDigit(text[0]);
      assert IsDigit(p[12]);
      assert !IsDigit("/v4/loyalty/transactions_history"[12]);
    }
  }

  /**
   * releaseRewardReservation and releaseVoucher hit the same endpoint: for
   * the same id they pass or fail together and send the same request; only
   * their error messages differ.
   */
  lemma ReleaseCallsCoincide(userToken: string, id: string)
    ensures ReleaseRewardReservation(userToken, id).Send? <==> ReleaseVoucher(userToken, StringId(id)).Send?
    ensures ReleaseRewardReservation(userToken, id).Send? ==> ReleaseRewardReservation(userToken, id) == ReleaseVoucher(userToken, StringId(id))
    ensures ReleaseRewardReservation(userToken, id).BadRequest? ==>
      ReleaseRewardReservation(userToken, id).message != ReleaseVoucher(userToken, StringId(id)).message
  {
    var a, b := InvalidIdMessage("reservationId", id), InvalidIdMessage("voucherId", id);
    assert a[8] == 'r' && b[8] == 'v';
  }

  /**
   * getCustomer's default is 'me', getMe is getCustomer for 'me', and the
   * customer check is the integer check widened by exactly the text 'me',
   * which every other check refuses.
   */
  lemma CustomerIds(userToken: string, s: string)
    ensures GetMe(userToken) == GetCustomer(userToken, None) == GetCustomer(userToken, Some(StringId("me")))
    ensures GetCustomer(userToken, Some(StringId(s))).Send? <==> s == "me" || GetLoyaltyProgram(userToken, StringId(s)).Send?
    ensures GetLoyaltyProgram(userToken, StringId("me")).BadRequest?
    ensures GetCustomer(userToken, Some(StringId(s))).Send? && s != "me" ==> AllDigits(s)
  {
    NonDigitRejected("me", 0);
  }
}
