/**
 * `getRewards` translates a partial reward scope (camelCase, every field
 * optional) into query parameters (snake_case) through a fixed renaming
 * table, leaving out every field that is falsy in JavaScript.
 */
module RewardScopes {
  import opened Wrappers
  import opened Js
  import opened Http

  /** `Partial<PerxRewardScope>`: every field may be absent. */
  datatype RewardScope = RewardScope(
    page: Option<int>,
    pageSize: Option<int>,
    categoryNamePrefix: Option<string>,
    catalogId: Option<string>,
    brandId: Option<string>,
    tagIds: Option<seq<string>>,
    filterByPointsBalance: Option<bool>,
    filterForMerchants: Option<string>,
    sortBy: Option<string>,
    order: Option<string>)

  /** The scope `{}`. */
  const EmptyScope := RewardScope(None, None, None, None, None, None, None, None, None, None)

  /** The ten fields the translation looks at. */
  datatype Field =
    | CatalogId | TagIds | FilterByPointsBalance | BrandId | SortBy
    | Order | CategoryNamePrefix | Page | PageSize | FilterForMerchants

  /** The number of fields, and the order in which the translation tests them. */
  const FieldCount: nat := 10

  function FieldAt(i: nat): Field
    requires i < FieldCount
  {
    match i
    case 0 => CatalogId
    case 1 => TagIds
    case 2 => FilterByPointsBalance
    case 3 => BrandId
    case 4 => SortBy
    case 5 => Order
    case 6 => CategoryNamePrefix
    case 7 => Page
    case 8 => PageSize
    case _ => FilterForMerchants
  }

  /** The position of a field in the translation's order. */
  function IndexOf(f: Field): (i: nat)
    ensures i < FieldCount && FieldAt(i) == f
  {
    match f
    case CatalogId => 0
    case TagIds => 1
    case FilterByPointsBalance => 2
    case BrandId => 3
    case SortBy => 4
    case Order => 5
    case CategoryNamePrefix => 6
    case Page => 7
    case PageSize => 8
    case FilterForMerchants => 9
  }

  /** The renaming table: the query parameter each field is sent as. */
  function ParamName(f: Field): string {
    match f
    case CatalogId => "filter_for_catalogs"
    case TagIds => "tag_ids"
    case FilterByPointsBalance => "filter_by_points_balance"
    case BrandId => "filter_for_brands"
    case SortBy => "sort_by"
    case Order => "order_by"
    case CategoryNamePrefix => "categories"
    case Page => "page"
    case PageSize => "size"
    case FilterForMerchants => "filter_for_merchants"
  }

  /** The inverse of the renaming table. */
  function FieldOf(k: string): (f: Field)
    requires k in ParamNames
    ensures ParamName(f) == k
  {
    if k == "filter_for_catalogs" then CatalogId
    else if k == "tag_ids" then TagIds
    else if k == "filter_by_points_balance" then FilterByPointsBalance
    else if k == "filter_for_brands" then BrandId
    else if k == "sort_by" then SortBy
    else if k == "order_by" then Order
    else if k == "categories" then CategoryNamePrefix
    else if k == "page" then Page
    else if k == "size" then PageSize
    else FilterForMerchants
  }

  /** The table is one-to-one: each parameter name belongs to one field. */
  lemma ParamNameInjective(f: Field)
    ensures ParamName(f) in ParamNames && FieldOf(ParamName(f)) == f
  {
  }

  const ParamNames: set<string> :=
    {"filter_for_catalogs", "tag_ids", "filter_by_points_balance", "filter_for_brands", "sort_by",
     "order_by", "categories", "page", "size", "filter_for_merchants"}

  /** The field passes the translation's `if (scope.field)` test. */
  predicate IsSet(scope: RewardScope, f: Field) {
    match f
    case CatalogId => TruthyString(scope.catalogId)
    case TagIds => TruthyArray(scope.tagIds)
    case FilterByPointsBalance => TruthyBoolean(scope.filterByPointsBalance)
    case BrandId => TruthyString(scope.brandId)
    case SortBy => TruthyString(scope.sortBy)
    case Order => TruthyString(scope.order)
    case CategoryNamePrefix => TruthyString(scope.categoryNamePrefix)
    case Page => TruthyNumber(scope.page)
    case PageSize => TruthyNumber(scope.pageSize)
    case FilterForMerchants => TruthyString(scope.filterForMerchants)
  }

  /** The value a set field is sent with: strings and the tag list as they are, numbers as `${n}`, the flag as 'true'. */
  function ParamValue(scope: RewardScope, f: Field): Value
    requires IsSet(scope, f)
  {
    match f
    case CatalogId => Text(scope.catalogId.value)
    case TagIds => TextList(scope.tagIds.value)
    case FilterByPointsBalance => Text("true")
    case BrandId => Text(scope.brandId.value)
    case SortBy => Text(scope.sortBy.value)
    case Order => Text(scope.order.value)
    case CategoryNamePrefix => Text(scope.categoryNamePrefix.value)
    case Page => Text(DecimalString(scope.page.value))
    case PageSize => Text(DecimalString(scope.pageSize.value))
    case FilterForMerchants => Text(scope.filterForMerchants.value)
  }

  /**
   * The parameters contributed by the first `k` fields of the order: each
   * truthy field assigns its parameter.
   */
  function QueryUpTo(scope: RewardScope, k: nat): map<string, Value>
    requires k <= FieldCount
    decreases k
  {
    if k == 0 then map[]
    else
      var q := QueryUpTo(scope, k - 1);
      var f := FieldAt(k - 1);
      if IsSet(scope, f) then q[ParamName(f) := ParamValue(scope, f)] else q
  }

  /**
   * After the first `k` fields, a field's parameter is present exactly when
   * the field is among them and truthy, and then carries that field's value.
   */
  lemma {:induction false} QueryUpToField(scope: RewardScope, k: nat, f: Field)
    requires k <= FieldCount
    ensures ParamName(f) in QueryUpTo(scope, k) <==> IndexOf(f) < k && IsSet(scope, f)
    ensures ParamName(f) in QueryUpTo(scope, k) ==> QueryUpTo(scope, k)[ParamName(f)] == ParamValue(scope, f)
    decreases k
  {
    if k > 0 {
      var g := FieldAt(k - 1);
      QueryUpToField(scope, k - 1, f);
      ParamNameEq(f, g);
      IndexOfFieldAt(k - 1);
    }
  }

  /** Distinct fields have distinct parameter names. */
  lemma ParamNameEq(f: Field, g: Field)
    ensures ParamName(f) == ParamName(g) <==> f == g
  {
    ParamNameInjective(f);
    ParamNameInjective(g);
  }

  lemma IndexOfFieldAt(i: nat)
    requires i < FieldCount
    ensures IndexOf(FieldAt(i)) == i
  {
  }

  /** Testing fields never produces a parameter outside the table. */
  lemma {:induction false} QueryUpToNames(scope: RewardScope, k: nat)
    requires k <= FieldCount
    ensures QueryUpTo(scope, k).Keys <= ParamNames
    decreases k
  {
    if k > 0 {
      QueryUpToNames(scope, k - 1);
      ParamNameInjective(FieldAt(k - 1));
    }
  }

  /** What the fold establishes once every field has been tested. */
  lemma RewardQueryFacts(scope: RewardScope)
    ensures forall f :: ParamName(f) in QueryUpTo(scope, FieldCount) <==> IsSet(scope, f)
    ensures forall f :: IsSet(scope, f) ==> QueryUpTo(scope, FieldCount)[ParamName(f)] == ParamValue(scope, f)
    ensures QueryUpTo(scope, FieldCount).Keys <= ParamNames
  {
    forall f ensures ParamName(f) in QueryUpTo(scope, FieldCount) <==> IsSet(scope, f)
      ensures IsSet(scope, f) ==> QueryUpTo(scope, FieldCount)[ParamName(f)] == ParamValue(scope, f)
    {
      QueryUpToField(scope, FieldCount, f);
    }
    QueryUpToNames(scope, FieldCount);
  }

  /**
   * The query parameters of a reward scope: a parameter is present exactly
   * when its field is truthy, it carries that field's value, and no
   * parameter outside the renaming table is ever produced.
   */
  function RewardQuery(scope: RewardScope): (q: map<string, Value>)
    ensures forall f :: ParamName(f) in q <==> IsSet(scope, f)
    ensures forall f :: IsSet(scope, f) ==> q[ParamName(f)] == ParamValue(scope, f)
    ensures q.Keys <= ParamNames
  {
    RewardQueryFacts(scope);
    QueryUpTo(scope, FieldCount)
  }

  // ---------------------------------------------------------------------
  // What the translation keeps and what it loses.
  // ---------------------------------------------------------------------

  /** The scope with every falsy field dropped: `""`, `0` and `false` read as absent. */
  function Normalize(scope: RewardScope): RewardScope {
    RewardScope(
      KeepNumber(scope.page), KeepNumber(scope.pageSize), KeepString(scope.categoryNamePrefix),
      KeepString(scope.catalogId), KeepString(scope.brandId), scope.tagIds,
      KeepBoolean(scope.filterByPointsBalance), KeepString(scope.filterForMerchants),
      KeepString(scope.sortBy), KeepString(scope.order))
  }

  /** Normalizing keeps exactly the fields that pass the test, with their values. */
  lemma NormalizeFields(scope: RewardScope, f: Field)
    ensures IsSet(Normalize(scope), f) <==> IsSet(scope, f)
    ensures IsSet(scope, f) ==> ParamValue(Normalize(scope), f) == ParamValue(scope, f)
  {
  }

  function NumberParam(q: map<string, Value>, name: string): Option<int> {
    if name in q && q[name].Text? then ParseDecimal(q[name].s) else None
  }

  function ListParam(q: map<string, Value>, name: string): Option<seq<string>> {
    if name in q && q[name].TextList? then Some(q[name].items) else None
  }

  function FlagParam(q: map<string, Value>, name: string): Option<bool> {
    if name in q && q[name] == Text("true") then Some(true) else None
  }

  /** Reads a reward scope back from query parameters: the inverse of the translation. */
  function ScopeFromQuery(q: map<string, Value>): RewardScope {
    RewardScope(
      NumberParam(q, ParamName(Page)),
      NumberParam(q, ParamName(PageSize)),
      TextParam(q, ParamName(CategoryNamePrefix)),
      TextParam(q, ParamName(CatalogId)),
      TextParam(q, ParamName(BrandId)),
      ListParam(q, ParamName(TagIds)),
      FlagParam(q, ParamName(FilterByPointsBalance)),
      TextParam(q, ParamName(FilterForMerchants)),
      TextParam(q, ParamName(SortBy)),
      TextParam(q, ParamName(Order)))
  }

  lemma TextParamBack(q: map<string, Value>, name: string, o: Option<string>)
    requires name in q <==> TruthyString(o)
    requires name in q ==> q[name] == Text(o.value)
    ensures TextParam(q, name) == KeepString(o)
  {
  }

  lemma NumberParamBack(q: map<string, Value>, name: string, o: Option<int>)
    requires name in q <==> TruthyNumber(o)
    requires name in q ==> q[name] == Text(DecimalString(o.value))
    ensures NumberParam(q, name) == KeepNumber(o)
  {
    if name in q {
      DecimalStringRoundTrip(o.value);
    }
  }

  /** One field of the scope read back from the query. */
  lemma RewardQueryField(scope: RewardScope, f: Field)
    ensures ParamName(f) in RewardQuery(scope) <==> IsSet(scope, f)
    ensures IsSet(scope, f) ==> RewardQuery(scope)[ParamName(f)] == ParamValue(scope, f)
  {
  }

  /** The translation loses nothing but the falsy fields: reading its output back gives the normalized scope. */
  lemma RewardQueryRoundTrip(scope: RewardScope)
    ensures ScopeFromQuery(RewardQuery(scope)) == Normalize(scope)
  {
    var q, r, n := RewardQuery(scope), ScopeFromQuery(RewardQuery(scope)), Normalize(scope);
    assert r.page == n.page by {
      RewardQueryField(scope, Page);
      NumberParamBack(q, ParamName(Page), scope.page);
    }
    assert r.pageSize == n.pageSize by {
      RewardQueryField(scope, PageSize);
      NumberParamBack(q, ParamName(PageSize), scope.pageSize);
    }
    assert r.categoryNamePrefix == n.categoryNamePrefix by {
      RewardQueryField(scope, CategoryNamePrefix);
      TextParamBack(q, ParamName(CategoryNamePrefix), scope.categoryNamePrefix);
    }
    assert r.catalogId == n.catalogId by {
      RewardQueryField(scope, CatalogId);
      TextParamBack(q, ParamName(CatalogId), scope.catalogId);
    }
    assert r.brandId == n.brandId by {
      RewardQueryField(scope, BrandId);
      TextParamBack(q, ParamName(BrandId), scope.brandId);
    }
    assert r.tagIds == n.tagIds by {
      RewardQueryField(scope, TagIds);
    }
    assert r.filterByPointsBalance == n.filterByPointsBalance by {
      RewardQueryField(scope, FilterByPointsBalance);
    }
    assert r.filterForMerchants == n.filterForMerchants by {
      RewardQueryField(scope, FilterForMerchants);
      TextParamBack(q, ParamName(FilterForMerchants), scope.filterForMerchants);
    }
    assert r.sortBy == n.sortBy by {
      RewardQueryField(scope, SortBy);
      TextParamBack(q, ParamName(SortBy), scope.sortBy);
    }
    assert r.order == n.order by {
      RewardQueryField(scope, Order);
      TextParamBack(q, ParamName(Order), scope.order);
    }
  }

  /** Dropping the falsy fields first changes nothing sent. */
  lemma RewardQueryOfNormalize(scope: RewardScope)
    ensures RewardQuery(Normalize(scope)) == RewardQuery(scope)
  {
    var a, b := RewardQuery(Normalize(scope)), RewardQuery(scope);
    forall k | k in a ensures k in b && a[k] == b[k] {
      NormalizeFields(scope, FieldOf(k));
    }
    forall k | k in b ensures k in a {
      NormalizeFields(scope, FieldOf(k));
    }
  }

  /** Two scopes produce the same query exactly when they agree on their truthy fields. */
  lemma RewardQueryEqualIff(a: RewardScope, b: RewardScope)
    ensures RewardQuery(a) == RewardQuery(b) <==> Normalize(a) == Normalize(b)
  {
    RewardQueryRoundTrip(a);
    RewardQueryRoundTrip(b);
    if Normalize(a) == Normalize(b) {
      RewardQueryOfNormalize(a);
      RewardQueryOfNormalize(b);
    }
  }

  /** A scope yields no parameter at all exactly when every field of it is falsy; `{}` yields none. */
  lemma EmptyRewardQuery(scope: RewardScope)
    ensures RewardQuery(scope) == map[] <==> Normalize(scope) == EmptyScope
    ensures RewardQuery(EmptyScope) == map[]
  {
    assert Normalize(EmptyScope) == EmptyScope;
    RewardQueryEqualIff(scope, EmptyScope);
    forall k | k in RewardQuery(EmptyScope) ensures false {
      RewardQueryField(EmptyScope, FieldOf(k));
    }
  }

  /**
   * The points-balance flag is sent only when it is true, and then always
   * as the text 'true'; false and absent both leave it out.
   */
  lemma RewardQueryValues(scope: RewardScope)
    ensures "filter_by_points_balance" in RewardQuery(scope) <==> scope.filterByPointsBalance == Some(true)
    ensures "filter_by_points_balance" in RewardQuery(scope) ==> RewardQuery(scope)["filter_by_points_balance"] == Text("true")
  {
    RewardQueryField(scope, FilterByPointsBalance);
  }

  /** page and size are sent only when nonzero, as decimal text that reads back to the number. */
  lemma RewardQueryPaging(scope: RewardScope)
    ensures "page" in RewardQuery(scope) <==> scope.page.Some? && scope.page.value != 0
    ensures "page" in RewardQuery(scope) ==> NumberParam(RewardQuery(scope), "page") == scope.page
    ensures "size" in RewardQuery(scope) <==> scope.pageSize.Some? && scope.pageSize.value != 0
    ensures "size" in RewardQuery(scope) ==> NumberParam(RewardQuery(scope), "size") == scope.pageSize
  {
    var q := RewardQuery(scope);
    RewardQueryField(scope, Page);
    NumberParamBack(q, ParamName(Page), scope.page);
    RewardQueryField(scope, PageSize);
    NumberParamBack(q, ParamName(PageSize), scope.pageSize);
  }

}
