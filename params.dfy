/**
 * The query parameters of the paged and optional-argument calls: the
 * defaults they fill in, and which arguments they leave out. A parameter
 * whose value is `undefined` is left out of the map, so each map below
 * holds exactly the parameters the client hands to the HTTP layer.
 */
module QueryParams {
  import opened Wrappers
  import opened Js
  import opened Http

  // ---------------------------------------------------------------------
  // getVouchers
  // ---------------------------------------------------------------------

  /** `Partial<PerxVoucherScope>`. */
  datatype VoucherScope = VoucherScope(
    size: Option<int>,
    page: Option<int>,
    sortBy: Option<string>,
    order: Option<string>,
    state: Option<string>,
    voucherType: Option<string>)

  const EmptyVoucherScope := VoucherScope(None, None, None, None, None, None)

  const DefaultVoucherPageSize := 24
  const DefaultVoucherPage := 1

  /** `value || undefined`: the parameter is sent only when the string is truthy. */
  function PutText(q: map<string, Value>, name: string, o: Option<string>): (r: map<string, Value>)
    ensures name in r <==> name in q || TruthyString(o)
    ensures TruthyString(o) ==> r[name] == Text(o.value)
    ensures forall k | k in q && k != name :: k in r && r[k] == q[k]
    ensures !TruthyString(o) ==> r == q
    ensures forall k | k in r && k != name :: k in q
  {
    if TruthyString(o) then q[name := Text(o.value)] else q
  }

  const VoucherParamNames: set<string> := {"size", "page", "state", "type", "sort_by", "order"}

  /**
   * size and page are always sent, falling back to 24 and 1 when absent or
   * 0; state, type, sort_by and order are sent only when truthy.
   */
  function VoucherQuery(scope: VoucherScope): (q: map<string, Value>)
    ensures "size" in q && q["size"] == Number(if TruthyNumber(scope.size) then scope.size.value else DefaultVoucherPageSize)
    ensures "page" in q && q["page"] == Number(if TruthyNumber(scope.page) then scope.page.value else DefaultVoucherPage)
    ensures "state" in q <==> TruthyString(scope.state)
    ensures "state" in q ==> q["state"] == Text(scope.state.value)
    ensures "type" in q <==> TruthyString(scope.voucherType)
    ensures "type" in q ==> q["type"] == Text(scope.voucherType.value)
    ensures "sort_by" in q <==> TruthyString(scope.sortBy)
    ensures "sort_by" in q ==> q["sort_by"] == Text(scope.sortBy.value)
    ensures "order" in q <==> TruthyString(scope.order)
    ensures "order" in q ==> q["order"] == Text(scope.order.value)
    ensures q.Keys <= VoucherParamNames
  {
    var paging := map["size" := Number(NumberOr(scope.size, DefaultVoucherPageSize)),
                      "page" := Number(NumberOr(scope.page, DefaultVoucherPage))];
    PutText(PutText(PutText(PutText(paging, "state", scope.state), "type", scope.voucherType),
                    "sort_by", scope.sortBy), "order", scope.order)
  }

  /** The scope the server effectively sees: defaults filled in, falsy strings dropped. */
  function EffectiveVoucherScope(scope: VoucherScope): VoucherScope {
    VoucherScope(
      Some(NumberOr(scope.size, DefaultVoucherPageSize)),
      Some(NumberOr(scope.page, DefaultVoucherPage)),
      KeepString(scope.sortBy), KeepString(scope.order),
      KeepString(scope.state), KeepString(scope.voucherType))
  }

  function NumberAt(q: map<string, Value>, name: string): Option<int> {
    if name in q && q[name].Number? then Some(q[name].n) else None
  }

  /** Reads a voucher scope back from the parameters sent. */
  function VoucherScopeFromQuery(q: map<string, Value>): VoucherScope {
    VoucherScope(NumberAt(q, "size"), NumberAt(q, "page"), TextParam(q, "sort_by"),
                 TextParam(q, "order"), TextParam(q, "state"), TextParam(q, "type"))
  }

  /** Reading the parameters back gives the effective scope: nothing else is lost. */
  lemma VoucherQueryRoundTrip(scope: VoucherScope)
    ensures VoucherScopeFromQuery(VoucherQuery(scope)) == EffectiveVoucherScope(scope)
  {
  }

  /** Two scopes list the same vouchers exactly when their effective scopes agree. */
  lemma VoucherQueryEqualIff(a: VoucherScope, b: VoucherScope)
    ensures VoucherQuery(a) == VoucherQuery(b) <==> EffectiveVoucherScope(a) == EffectiveVoucherScope(b)
  {
    VoucherQueryRoundTrip(a);
    VoucherQueryRoundTrip(b);
    if EffectiveVoucherScope(a) == EffectiveVoucherScope(b) {
      var qa, qb := VoucherQuery(a), VoucherQuery(b);
      assert forall k | k in qa :: k in qb && qa[k] == qb[k];
      assert forall k | k in qb :: k in qa;
    }
  }

  /**
   * The server never sees a page size or page of 0: `{}` asks for page 1 of
   * 24, and an explicit 0 reads as the default.
   */
  lemma VoucherQueryDefaults(scope: VoucherScope)
    ensures VoucherQuery(EmptyVoucherScope) == map["size" := Number(24), "page" := Number(1)]
    ensures VoucherQuery(scope.(size := Some(0), page := Some(0))) == VoucherQuery(scope.(size := None, page := None))
    ensures VoucherQuery(scope)["size"].n != 0 && VoucherQuery(scope)["page"].n != 0
  {
    var e := VoucherQuery(EmptyVoucherScope);
    assert e.Keys == {"size", "page"};
    VoucherQueryEqualIff(scope.(size := Some(0), page := Some(0)), scope.(size := None, page := None));
  }

  // ---------------------------------------------------------------------
  // getCategories
  // ---------------------------------------------------------------------

  /** `...(parentId && { parent_id: parentId } || {})`, then page and size. */
  function CategoryQuery(parentId: Option<int>, page: int, size: int): (q: map<string, Value>)
    ensures "parent_id" in q <==> TruthyNumber(parentId)
    ensures "parent_id" in q ==> q["parent_id"] == Number(parentId.value)
    ensures "page" in q && q["page"] == Number(page)
    ensures "size" in q && q["size"] == Number(size)
    ensures q.Keys <= {"parent_id", "page", "size"}
  {
    var parent: map<string, Value> := if TruthyNumber(parentId) then map["parent_id" := Number(parentId.value)] else map[];
    parent + map["page" := Number(page), "size" := Number(size)]
  }

  /** Two category requests coincide exactly when their truthy parent ids, pages and sizes do. */
  lemma CategoryQueryEqualIff(a: Option<int>, pa: int, sa: int, b: Option<int>, pb: int, sb: int)
    ensures CategoryQuery(a, pa, sa) == CategoryQuery(b, pb, sb) <==> KeepNumber(a) == KeepNumber(b) && pa == pb && sa == sb
  {
    var qa, qb := CategoryQuery(a, pa, sa), CategoryQuery(b, pb, sb);
    if qa == qb {
      assert qa["page"] == qb["page"] && qa["size"] == qb["size"];
      if TruthyNumber(a) {
        assert qa["parent_id"] == qb["parent_id"];
      }
    }
  }

  /** A parent id of 0 is sent exactly like no parent id at all. */
  lemma CategoryParentZeroIsRoot(page: int, size: int)
    ensures CategoryQuery(Some(0), page, size) == CategoryQuery(None, page, size)
    ensures "parent_id" !in CategoryQuery(Some(0), page, size)
  {
    CategoryQueryEqualIff(Some(0), page, size, None, page, size);
  }

  // ---------------------------------------------------------------------
  // searchRewards and queryLoyaltyTransactionsHistory
  // ---------------------------------------------------------------------

  /** `value` as a number parameter when given; an undefined one is not sent. */
  function PutNumber(q: map<string, Value>, name: string, o: Option<int>): (r: map<string, Value>)
    ensures name in r <==> name in q || o.Some?
    ensures o.Some? ==> r[name] == Number(o.value)
    ensures o.None? ==> r == q
    ensures forall k | k in q && k != name :: k in r && r[k] == q[k]
    ensures forall k | k in r && k != name :: k in q
  {
    if o.Some? then q[name := Number(o.value)] else q
  }

  /**
   * The keyword is always sent, even an empty one; page and size are sent
   * whenever they are passed, 0 included, and left out when omitted.
   */
  function SearchQuery(keyword: string, page: Option<int>, size: Option<int>): (q: map<string, Value>)
    ensures "search_string" in q && q["search_string"] == Text(keyword)
    ensures "page" in q <==> page.Some?
    ensures page.Some? ==> q["page"] == Number(page.value)
    ensures "size" in q <==> size.Some?
    ensures size.Some? ==> q["size"] == Number(size.value)
    ensures q.Keys <= {"search_string", "page", "size"}
  {
    PutNumber(PutNumber(map["search_string" := Text(keyword)], "page", page), "size", size)
  }

  /** A search request determines its arguments, omitted ones included. */
  lemma SearchQueryInjective(k1: string, p1: Option<int>, s1: Option<int>, k2: string, p2: Option<int>, s2: Option<int>)
    ensures SearchQuery(k1, p1, s1) == SearchQuery(k2, p2, s2) <==> k1 == k2 && p1 == p2 && s1 == s2
  {
    var a, b := SearchQuery(k1, p1, s1), SearchQuery(k2, p2, s2);
    if a == b {
      assert a["search_string"] == b["search_string"];
      if p1.Some? { assert a["page"] == b["page"]; }
      if s1.Some? { assert a["size"] == b["size"]; }
    }
  }

  /** Omitting page and size sends the keyword alone. */
  lemma SearchKeywordOnly(keyword: string)
    ensures SearchQuery(keyword, None, None) == map["search_string" := Text(keyword)]
  {
  }

  /** The history's `perPage` is sent under the name `size`. */
  function HistoryQuery(page: int, perPage: int): (q: map<string, Value>)
    ensures q.Keys == {"page", "size"}
    ensures q["page"] == Number(page) && q["size"] == Number(perPage)
  {
    map["page" := Number(page), "size" := Number(perPage)]
  }

  /** History paging is the search's paging without a keyword. */
  lemma HistoryPagingMatchesSearch(keyword: string, page: int, perPage: int)
    ensures HistoryQuery(page, perPage) == SearchQuery(keyword, Some(page), Some(perPage)) - {"search_string"}
  {
    var h, s := HistoryQuery(page, perPage), SearchQuery(keyword, Some(page), Some(perPage)) - {"search_string"};
    assert h.Keys == s.Keys;
  }

  // ---------------------------------------------------------------------
  // reserveReward and redeemVoucher
  // ---------------------------------------------------------------------

  /** 900 seconds, in milliseconds. */
  const DefaultReservationTimeout := 900 * 1000

  /**
   * `timeoutInMs` is a default parameter: only an omitted argument takes
   * the default, and an explicit one, 0 included, is sent as given.
   */
  function ReserveQuery(timeoutInMs: Option<int>): (q: map<string, Value>)
    ensures q.Keys == {"timeout"}
    ensures timeoutInMs.None? ==> q["timeout"] == Number(900000)
    ensures timeoutInMs.Some? ==> q["timeout"] == Number(timeoutInMs.value)
  {
    map["timeout" := Number(timeoutInMs.GetOr(DefaultReservationTimeout))]
  }

  /**
   * Omitting the timeout is the same as passing 900000; distinct explicit
   * timeouts are distinct requests, and unlike the `||` defaults of
   * getVouchers an explicit 0 is not replaced.
   */
  lemma ReserveQueryTimeouts(a: int, b: int)
    ensures ReserveQuery(None) == ReserveQuery(Some(DefaultReservationTimeout))
    ensures ReserveQuery(Some(a)) == ReserveQuery(Some(b)) <==> a == b
    ensures ReserveQuery(Some(0)) != ReserveQuery(None)
  {
    assert ReserveQuery(Some(a))["timeout"] == Number(a);
    assert ReserveQuery(Some(b))["timeout"] == Number(b);
    assert ReserveQuery(Some(0))["timeout"] != ReserveQuery(None)["timeout"];
  }

  /** `{ confirm }`: absent when undefined; false is sent, not dropped. */
  function RedeemQuery(confirm: Option<bool>): (q: map<string, Value>)
    ensures "confirm" in q <==> confirm.Some?
    ensures confirm.Some? ==> q["confirm"] == Flag(confirm.value)
    ensures q.Keys <= {"confirm"}
  {
    if confirm.Some? then map["confirm" := Flag(confirm.value)] else map[]
  }

  /** The three ways to call redeemVoucher (omitted, false, true) send three different requests. */
  lemma RedeemQueryInjective(a: Option<bool>, b: Option<bool>)
    ensures RedeemQuery(a) == RedeemQuery(b) <==> a == b
  {
    if RedeemQuery(a) == RedeemQuery(b) && a.Some? {
      assert RedeemQuery(a)["confirm"] == RedeemQuery(b)["confirm"];
    }
  }
}
