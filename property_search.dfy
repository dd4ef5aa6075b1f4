/** The property search of the data-access layer: `getAllProperties` builds one
    SQL statement from an options record and a row limit. The statement text is
    a fixed SELECT/JOIN prefix, an optional WHERE of AND-joined conditions,
    GROUP BY, an optional HAVING on the average rating, ORDER BY and LIMIT; every
    user-supplied value travels separately as a positional parameter `$k`. */
module PropertySearch {
  import opened JsValues

  /** The search options; a falsy field (missing, "", 0) is no filter. */
  datatype SearchOptions = SearchOptions(
    city: Option<string>,
    ownerId: Option<int>,
    minimumPricePerNight: Option<int>,
    maximumPricePerNight: Option<int>,
    minimumRating: Option<int>)

  datatype Filter = City | OwnerId | MinimumPrice | MaximumPrice | MinimumRating

  /** The filters that become WHERE conditions; the rating goes to HAVING. */
  type WhereFilter = f: Filter | f != MinimumRating witness City

  /** Whether the option behind `f` is truthy. */
  predicate Present(o: SearchOptions, f: Filter) {
    match f
    case City => TruthyString(o.city)
    case OwnerId => TruthyNumber(o.ownerId)
    case MinimumPrice => TruthyNumber(o.minimumPricePerNight)
    case MaximumPrice => TruthyNumber(o.maximumPricePerNight)
    case MinimumRating => TruthyNumber(o.minimumRating)
  }

  /** The options with the field behind `f` missing. */
  function Without(o: SearchOptions, f: Filter): SearchOptions {
    match f
    case City => o.(city := None)
    case OwnerId => o.(ownerId := None)
    case MinimumPrice => o.(minimumPricePerNight := None)
    case MaximumPrice => o.(maximumPricePerNight := None)
    case MinimumRating => o.(minimumRating := None)
  }

  /** The default of the `limit` argument. */
  const DefaultLimit := 10

  function LimitOrDefault(limit: Option<int>): int {
    if limit.Some? then limit.value else DefaultLimit
  }

  /** The parameter a present filter binds: the city wrapped in `%` wildcards,
      prices in cents, and each number as its decimal text. */
  function BoundValue(o: SearchOptions, f: Filter): Value
    requires Present(o, f)
  {
    match f
    case City => Str("%" + o.city.value + "%")
    case OwnerId => Str(IntString(o.ownerId.value))
    case MinimumPrice => Str(IntString(o.minimumPricePerNight.value * 100))
    case MaximumPrice => Str(IntString(o.maximumPricePerNight.value * 100))
    case MinimumRating => Str(IntString(o.minimumRating.value))
  }

  /** A WHERE condition; `k` is the number of its placeholder `$k`. */
  datatype Condition =
    | CityLike(k: nat)
    | OwnerIs(k: nat)
    | CostAtLeast(k: nat)
    | CostAtMost(k: nat)

  /** One piece appended to the statement text. */
  datatype Clause =
    | SelectFromJoin
    | Where(conditions: seq<Condition>)
    | GroupByProperty
    | HavingRatingAtLeast(k: nat)
    | OrderByCostLimit(k: nat)

  datatype Query = Query(text: seq<Clause>, values: seq<Value>)

  function ConditionFor(f: WhereFilter, k: nat): Condition {
    match f
    case City => CityLike(k)
    case OwnerId => OwnerIs(k)
    case MinimumPrice => CostAtLeast(k)
    case MaximumPrice => CostAtMost(k)
  }

  /** A present WHERE filter together with the value it binds. */
  datatype Binding = Binding(filter: WhereFilter, value: Value)

  /** The binding of WHERE filter `f`, if its option is present. */
  function Bind(o: SearchOptions, f: WhereFilter): seq<Binding> {
    if Present(o, f) then [Binding(f, BoundValue(o, f))] else []
  }

  /** The present WHERE filters in the fixed order city, owner, minimum price,
      maximum price, with their values. */
  function WhereBindings(o: SearchOptions): seq<Binding> {
    Bind(o, City) + Bind(o, OwnerId) + Bind(o, MinimumPrice) + Bind(o, MaximumPrice)
  }

  /** The rating value, if the rating option is present. */
  function RatingValues(o: SearchOptions): seq<Value> {
    if Present(o, MinimumRating) then [BoundValue(o, MinimumRating)] else []
  }

  /** The conditions of the bindings `bs`, the last one carrying placeholder
      `$|bs|`. */
  function Conditions(bs: seq<Binding>): seq<Condition> {
    if bs == [] then []
    else Conditions(bs[..|bs| - 1]) + [ConditionFor(bs[|bs| - 1].filter, |bs|)]
  }

  /** The values of the bindings `bs`, in order. */
  function Values(bs: seq<Binding>): seq<Value> {
    if bs == [] then [] else Values(bs[..|bs| - 1]) + [bs[|bs| - 1].value]
  }

  /** The statement and parameter list that a search must produce: the present
      WHERE filters in fixed order, condition i naming value i; then the rating
      value, if any; and the limit last. */
  function SearchQuery(o: SearchOptions, limit: Option<int>): Query {
    var bs := WhereBindings(o);
    var values := Values(bs) + RatingValues(o) + [Num(LimitOrDefault(limit))];
    var text :=
      [SelectFromJoin]
      + (if bs == [] then [] else [Where(Conditions(bs))])
      + [GroupByProperty]
      + (if Present(o, MinimumRating) then [HavingRatingAtLeast(|bs| + 1)] else [])
      + [OrderByCostLimit(|values|)];
    Query(text, values)
  }

  /** The first half of `getAllProperties`: for each WHERE filter in turn, if
      its option is truthy, push its value and then its condition with
      placeholder `$<values.length>`. */
  method CollectWhereConditions(options: SearchOptions)
    returns (values: seq<Value>, conditions: seq<Condition>)
    ensures values == Values(WhereBindings(options))
    ensures conditions == Conditions(WhereBindings(options))
  {
    values := [];
    conditions := [];
    ghost var bs: seq<Binding> := [];

    if TruthyString(options.city) {
      values := values + [Str("%" + options.city.value + "%")];
      conditions := conditions + [CityLike(|values|)];
      Added(options, bs, City);
      bs := bs + [Binding(City, BoundValue(options, City))];
    }
    assert values == Values(bs) && conditions == Conditions(bs) && bs == Bind(options, City);

    if TruthyNumber(options.ownerId) {
      values := values + [Str(IntString(options.ownerId.value))];
      conditions := conditions + [OwnerIs(|values|)];
      Added(options, bs, OwnerId);
      bs := bs + [Binding(OwnerId, BoundValue(options, OwnerId))];
    }
    assert values == Values(bs) && conditions == Conditions(bs) && bs == Bind(options, City) + Bind(options, OwnerId);

    if TruthyNumber(options.minimumPricePerNight) {
      values := values + [Str(IntString(options.minimumPricePerNight.value * 100))];
      conditions := conditions + [CostAtLeast(|values|)];
      Added(options, bs, MinimumPrice);
      bs := bs + [Binding(MinimumPrice, BoundValue(options, MinimumPrice))];
    }
    assert values == Values(bs) && conditions == Conditions(bs) && bs == Bind(options, City) + Bind(options, OwnerId) + Bind(options, MinimumPrice);

    if TruthyNumber(options.maximumPricePerNight) {
      values := values + [Str(IntString(options.maximumPricePerNight.value * 100))];
      conditions := conditions + [CostAtMost(|values|)];
      Added(options, bs, MaximumPrice);
      bs := bs + [Binding(MaximumPrice, BoundValue(options, MaximumPrice))];
    }
    assert values == Values(bs) && conditions == Conditions(bs) && bs == WhereBindings(options);
  }

  /** `getAllProperties`: collect the WHERE conditions and their values; join
      the conditions under WHERE; group; add HAVING for the rating; push the
      limit and close with ORDER BY/LIMIT. */
  method GetAllProperties(options: SearchOptions, limit: Option<int>)
    returns (query: seq<Clause>, values: seq<Value>)
    ensures Query(query, values) == SearchQuery(options, limit)
  {
    query := [SelectFromJoin];
    var conditions;
    values, conditions := CollectWhereConditions(options);
    ghost var whereValues := values;

    if |conditions| > 0 {
      query := query + [Where(conditions)];
    }
    query := query + [GroupByProperty];

    if TruthyNumber(options.minimumRating) {
      values := values + [Str(IntString(options.minimumRating.value))];
      query := query + [HavingRatingAtLeast(|values|)];
    }
    values := values + [Num(LimitOrDefault(limit))];
    query := query + [OrderByCostLimit(|values|)];
    Assemble(options, limit, whereValues, conditions);
  }

  /** Pushing the value of a present WHERE filter, then its condition with the
      new number of values as placeholder, extends both lists in step. */
  lemma Added(o: SearchOptions, bs: seq<Binding>, f: WhereFilter)
    requires Present(o, f)
    ensures var bs' := bs + [Binding(f, BoundValue(o, f))];
      && Values(bs') == Values(bs) + [BoundValue(o, f)]
      && Conditions(bs') == Conditions(bs) + [ConditionFor(f, |Values(bs)| + 1)]
  {
    var bs' := bs + [Binding(f, BoundValue(o, f))];
    assert bs'[..|bs'| - 1] == bs;
    ValuesLength(bs);
  }

  lemma {:induction false} ValuesLength(bs: seq<Binding>)
    ensures |Values(bs)| == |Conditions(bs)| == |bs|
  {
    if bs != [] {
      ValuesLength(bs[..|bs| - 1]);
    }
  }

  /** The specification, unfolded into the order the builder appends, given
      the WHERE values and conditions it has collected. */
  lemma Assemble(o: SearchOptions, limit: Option<int>, whereValues: seq<Value>, conditions: seq<Condition>)
    requires whereValues == Values(WhereBindings(o))
    requires conditions == Conditions(WhereBindings(o))
    ensures var values := whereValues
        + (if TruthyNumber(o.minimumRating) then [Str(IntString(o.minimumRating.value))] else [])
        + [Num(LimitOrDefault(limit))];
      SearchQuery(o, limit) == Query(
        [SelectFromJoin]
        + (if |conditions| > 0 then [Where(conditions)] else [])
        + [GroupByProperty]
        + (if TruthyNumber(o.minimumRating) then [HavingRatingAtLeast(|whereValues| + 1)] else [])
        + [OrderByCostLimit(|values|)],
        values)
  {
    ValuesLength(WhereBindings(o));
  }
}
