/**
 * `fromRewardsScopeToQueryParams` as the client writes it: a record built
 * up in place by one conditional assignment per field, proved to produce
 * the query that RewardScopes specifies.
 */
module RewardTranslation {
  import opened Wrappers
  import opened Js
  import opened Http
  import opened RewardScopes

  /** The query is the fold over all ten fields. */
  lemma RewardQueryIsFold(scope: RewardScope)
    ensures RewardQuery(scope) == QueryUpTo(scope, 10)
  {
  }

  /**
   * One more field of the order, `taken` being the outcome of its truthiness
   * test: assign its parameter when taken, else leave the map alone.
   */
  lemma QueryUpToStep(scope: RewardScope, k: nat, taken: bool)
    requires k < FieldCount && taken == IsSet(scope, FieldAt(k))
    ensures QueryUpTo(scope, k + 1) == if taken then QueryUpTo(scope, k)[ParamName(FieldAt(k)) := ParamValue(scope, FieldAt(k))] else QueryUpTo(scope, k)
  {
  }

  /**
   * `fromRewardsScopeToQueryParams`: starts from `{}` and assigns one
   * parameter per truthy field, in the source's order.
   */
  method FromRewardsScopeToQueryParams(scope: RewardScope) returns (out: map<string, Value>)
    ensures out == RewardQuery(scope)
  {
    out := map[];
    QueryUpToStep(scope, 0, TruthyString(scope.catalogId));
    if TruthyString(scope.catalogId) {
      out := out["filter_for_catalogs" := Text(scope.catalogId.value)];
    }
    assert out == QueryUpTo(scope, 1);
    QueryUpToStep(scope, 1, TruthyArray(scope.tagIds));
    if TruthyArray(scope.tagIds) {
      out := out["tag_ids" := TextList(scope.tagIds.value)];
    }
    assert out == QueryUpTo(scope, 2);
    QueryUpToStep(scope, 2, TruthyBoolean(scope.filterByPointsBalance));
    if TruthyBoolean(scope.filterByPointsBalance) {
      out := out["filter_by_points_balance" := Text("true")];
    }
    assert out == QueryUpTo(scope, 3);
    QueryUpToStep(scope, 3, TruthyString(scope.brandId));
    if TruthyString(scope.brandId) {
      out := out["filter_for_brands" := Text(scope.brandId.value)];
    }
    assert out == QueryUpTo(scope, 4);
    QueryUpToStep(scope, 4, TruthyString(scope.sortBy));
    if TruthyString(scope.sortBy) {
      out := out["sort_by" := Text(scope.sortBy.value)];
    }
    assert out == QueryUpTo(scope, 5);
    QueryUpToStep(scope, 5, TruthyString(scope.order));
    if TruthyString(scope.order) {
      out := out["order_by" := Text(scope.order.value)];
    }
    assert out == QueryUpTo(scope, 6);
    QueryUpToStep(scope, 6, TruthyString(scope.categoryNamePrefix));
    if TruthyString(scope.categoryNamePrefix) {
      out := out["categories" := Text(scope.categoryNamePrefix.value)];
    }
    assert out == QueryUpTo(scope, 7);
    QueryUpToStep(scope, 7, TruthyNumber(scope.page));
    if TruthyNumber(scope.page) {
      out := out["page" := Text(DecimalString(scope.page.value))];
    }
    assert out == QueryUpTo(scope, 8);
    QueryUpToStep(scope, 8, TruthyNumber(scope.pageSize));
    if TruthyNumber(scope.pageSize) {
      out := out["size" := Text(DecimalString(scope.pageSize.value))];
    }
    assert out == QueryUpTo(scope, 9);
    QueryUpToStep(scope, 9, TruthyString(scope.filterForMerchants));
    if TruthyString(scope.filterForMerchants) {
      out := out["filter_for_merchants" := Text(scope.filterForMerchants.value)];
    }
    assert out == QueryUpTo(scope, 10);
    RewardQueryIsFold(scope);
  }
}
