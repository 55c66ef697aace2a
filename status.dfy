/**
 * How a response status is sorted before the response body is parsed. The
 * transport is created with `validateStatus: status < 450`, so a status of
 * 450 or more fails in the transport; below that, the token calls and the
 * POS customer-detail call turn a 401 into an unauthorized error, and
 * everything else goes to the generic response parser.
 */
module Status {

  /** The calls of the client. */
  datatype Operation =
    | GetUserToken | GetCustomerDetail | GetApplicationToken | GetRewards | IssueVoucher
    | GetVouchers | ReserveReward | ReleaseRewardReservation | ConfirmRewardReservation
    | RedeemVoucher | ReleaseVoucher | GetLoyaltyProgram | GetLoyaltyPrograms | GetMe
    | GetCustomer | SubmitTransaction | SubmitLoyaltyTransaction | SearchRewards
    | GetCategories | QueryLoyaltyTransactionsHistory

  /** The calls that test `resp.status == 401` themselves. */
  predicate ChecksUnauthorized(op: Operation) {
    op == GetUserToken || op == GetApplicationToken || op == GetCustomerDetail
  }

  /** The transport's `validateStatus`: the statuses it hands back instead of failing. */
  predicate ValidateStatus(status: int) {
    status < 450
  }

  datatype Outcome =
    | TransportFailure(status: int)  // rejected by validateStatus
    | Unauthorized                   // PerxError.unauthorized(), before any parsing
    | Parse(status: int)             // handed to the response parser with this status

  /** The outcome of a response with this status to this call. */
  function Settle(op: Operation, status: int): (o: Outcome)
    ensures o.TransportFailure? <==> !ValidateStatus(status)
    ensures o.Unauthorized? <==> ValidateStatus(status) && status == 401 && ChecksUnauthorized(op)
    ensures o.Parse? <==> ValidateStatus(status) && !(status == 401 && ChecksUnauthorized(op))
    ensures !o.Unauthorized? ==> o.status == status
  {
    if !ValidateStatus(status) then TransportFailure(status)
    else if status == 401 && ChecksUnauthorized(op) then Unauthorized
    else Parse(status)
  }

  /**
   * The 401 check is the only thing that tells calls apart: at any other
   * status, every call settles the same way.
   */
  lemma SettleAgreesAwayFrom401(a: Operation, b: Operation, status: int)
    requires status != 401
    ensures Settle(a, status) == Settle(b, status)
  {
  }

  /**
   * A 401 is an unauthorized error exactly for the three calls that check
   * for it; every other call, getCustomer and getMe included, passes it to
   * the parser.
   */
  lemma UnauthorizedOnlyWhereChecked(op: Operation)
    ensures Settle(op, 401) == Unauthorized <==> op in {GetUserToken, GetApplicationToken, GetCustomerDetail}
    ensures !ChecksUnauthorized(op) ==> Settle(op, 401) == Parse(401)
  {
  }

  /** The threshold sits between 449 and 450; error statuses below it reach the parser. */
  lemma ValidateStatusThreshold(op: Operation)
    ensures Settle(op, 449) == Parse(449) && Settle(op, 450) == TransportFailure(450)
    ensures Settle(op, 404) == Parse(404) && Settle(op, 500) == TransportFailure(500)
  {
  }
}
