/** What a property search statement promises, proved about the specification
    `SearchQuery` that the builder `GetAllProperties` is verified against. */
module SearchProperties {
  import opened JsValues
  import opened PropertySearch

  /** The order in which the builder tests the options. */
  function FilterRank(f: Filter): nat {
    match f
    case City => 0
    case OwnerId => 1
    case MinimumPrice => 2
    case MaximumPrice => 3
    case MinimumRating => 4
  }

  /** `[f]` if the option behind `f` is present, else nothing. */
  function KeepOne(o: SearchOptions, f: Filter): seq<Filter> {
    if Present(o, f) then [f] else []
  }

  /** The present filters, in the order the builder tests them. */
  function PresentFilters(o: SearchOptions): seq<Filter> {
    KeepOne(o, City) + KeepOne(o, OwnerId) + KeepOne(o, MinimumPrice)
    + KeepOne(o, MaximumPrice) + KeepOne(o, MinimumRating)
  }

  /** What a placeholder stands for: the value of a filter, or the limit. */
  datatype Slot = FilterSlot(filter: Filter) | LimitSlot

  /** A placeholder `$k` of the statement text, with what it stands for. */
  datatype Ref = Ref(slot: Slot, k: nat)

  function ConditionRef(c: Condition): Ref {
    match c
    case CityLike(k) => Ref(FilterSlot(City), k)
    case OwnerIs(k) => Ref(FilterSlot(OwnerId), k)
    case CostAtLeast(k) => Ref(FilterSlot(MinimumPrice), k)
    case CostAtMost(k) => Ref(FilterSlot(MaximumPrice), k)
  }

  function ClauseRefs(c: Clause): seq<Ref> {
    match c
    case SelectFromJoin => []
    case Where(cs) => seq(|cs|, i requires 0 <= i < |cs| => ConditionRef(cs[i]))
    case GroupByProperty => []
    case HavingRatingAtLeast(k) => [Ref(FilterSlot(MinimumRating), k)]
    case OrderByCostLimit(k) => [Ref(LimitSlot, k)]
  }

  /** The placeholders of a statement text, in reading order. */
  function Refs(text: seq<Clause>): seq<Ref> {
    if text == [] then [] else ClauseRefs(text[0]) + Refs(text[1..])
  }

  /** Value `v` is what a present filter `f` binds. */
  predicate Binds(o: SearchOptions, f: Filter, v: Value) {
    Present(o, f) && v == BoundValue(o, f)
  }

  /** The clauses in the order the statement text must keep. */
  function ClauseRank(c: Clause): nat {
    match c
    case SelectFromJoin => 0
    case Where(_) => 1
    case GroupByProperty => 2
    case HavingRatingAtLeast(_) => 3
    case OrderByCostLimit(_) => 4
  }

  /** `fs` lists filters in the builder's order, each at most once. */
  predicate Ascending(fs: seq<Filter>) {
    forall i, j :: 0 <= i < j < |fs| ==> FilterRank(fs[i]) < FilterRank(fs[j])
  }

  predicate AnyWhereFilter(o: SearchOptions) {
    Present(o, City) || Present(o, OwnerId) || Present(o, MinimumPrice) || Present(o, MaximumPrice)
  }

  // ---------------------------------------------------------------------------
  // The present filters

  /** Appending a filter ranked after all of `fs` keeps `fs` ascending. */
  lemma AscendingAppend(o: SearchOptions, fs: seq<Filter>, f: Filter)
    requires Ascending(fs)
    requires forall g :: g in fs ==> FilterRank(g) < FilterRank(f)
    ensures Ascending(fs + KeepOne(o, f))
  { }

  /** The present filters are exactly the truthy options, each once, in the
      order city, owner, minimum price, maximum price, minimum rating. */
  lemma PresentFiltersExact(o: SearchOptions)
    ensures forall f :: f in PresentFilters(o) <==> Present(o, f)
    ensures Ascending(PresentFilters(o))
  {
    var fs := KeepOne(o, City);
    AscendingAppend(o, fs, OwnerId);
    fs := fs + KeepOne(o, OwnerId);
    AscendingAppend(o, fs, MinimumPrice);
    fs := fs + KeepOne(o, MinimumPrice);
    AscendingAppend(o, fs, MaximumPrice);
    fs := fs + KeepOne(o, MaximumPrice);
    AscendingAppend(o, fs, MinimumRating);
    forall f ensures f in PresentFilters(o) <==> Present(o, f) {
      assert forall g :: f in KeepOne(o, g) <==> f == g && Present(o, g);
    }
  }

  // ---------------------------------------------------------------------------
  // Bindings against present filters

  /** The bindings `bs` are the present filters `fs`, each with its value. */
  predicate Aligned(o: SearchOptions, bs: seq<Binding>, fs: seq<Filter>) {
    && |bs| == |fs|
    && forall i :: 0 <= i < |bs| ==> bs[i].filter == fs[i] && Binds(o, fs[i], bs[i].value)
  }

  lemma AlignedAppend(o: SearchOptions, bs: seq<Binding>, fs: seq<Filter>, bs': seq<Binding>, fs': seq<Filter>)
    requires Aligned(o, bs, fs) && Aligned(o, bs', fs')
    ensures Aligned(o, bs + bs', fs + fs')
  {
    forall i | 0 <= i < |bs + bs'|
      ensures (bs + bs')[i].filter == (fs + fs')[i] && Binds(o, (fs + fs')[i], (bs + bs')[i].value)
    {
      if i >= |bs| {
        assert (bs + bs')[i] == bs'[i - |bs|];
        assert (fs + fs')[i] == fs'[i - |bs|];
      }
    }
  }

  /** The WHERE bindings are the present WHERE filters, in order. */
  lemma WhereBindingsAligned(o: SearchOptions)
    ensures Aligned(o, WhereBindings(o),
      KeepOne(o, City) + KeepOne(o, OwnerId) + KeepOne(o, MinimumPrice) + KeepOne(o, MaximumPrice))
  {
    AlignedAppend(o, Bind(o, City), KeepOne(o, City), Bind(o, OwnerId), KeepOne(o, OwnerId));
    AlignedAppend(o, Bind(o, City) + Bind(o, OwnerId), KeepOne(o, City) + KeepOne(o, OwnerId),
      Bind(o, MinimumPrice), KeepOne(o, MinimumPrice));
    AlignedAppend(o, Bind(o, City) + Bind(o, OwnerId) + Bind(o, MinimumPrice),
      KeepOne(o, City) + KeepOne(o, OwnerId) + KeepOne(o, MinimumPrice),
      Bind(o, MaximumPrice), KeepOne(o, MaximumPrice));
  }

  /** Condition i names placeholder `$i+1`, and value i is binding i's value. */
  lemma {:induction false} ConditionsAt(bs: seq<Binding>)
    ensures |Conditions(bs)| == |Values(bs)| == |bs|
    ensures forall i :: 0 <= i < |bs| ==>
      Conditions(bs)[i] == ConditionFor(bs[i].filter, i + 1) && Values(bs)[i] == bs[i].value
  {
    if bs != [] {
      ConditionsAt(bs[..|bs| - 1]);
    }
  }

  // ---------------------------------------------------------------------------
  // Placeholders

  lemma {:induction false} RefsAppend(a: seq<Clause>, b: seq<Clause>)
    ensures Refs(a + b) == Refs(a) + Refs(b)
  {
    if a != [] {
      assert (a + b)[0] == a[0];
      assert (a + b)[1..] == a[1..] + b;
      RefsAppend(a[1..], b);
    } else {
      assert a + b == b;
    }
  }

  /** The placeholders of the WHERE clause, if any. */
  lemma WhereRefs(o: SearchOptions)
    ensures var bs := WhereBindings(o);
      var w := if bs == [] then [] else [Where(Conditions(bs))];
      |Refs(w)| == |bs|
      && forall i :: 0 <= i < |bs| ==> Refs(w)[i] == Ref(FilterSlot(bs[i].filter), i + 1)
  {
    var bs := WhereBindings(o);
    ConditionsAt(bs);
    if bs != [] {
      assert Refs([Where(Conditions(bs))]) == ClauseRefs(Where(Conditions(bs)));
    }
  }

  lemma RefsSingleton(c: Clause)
    ensures Refs([c]) == ClauseRefs(c)
  { }

  /** The placeholders of a statement of the builder's shape, clause by clause. */
  lemma ShapeRefs(w: seq<Clause>, h: seq<Clause>, n: nat)
    ensures Refs([SelectFromJoin] + w + [GroupByProperty] + h + [OrderByCostLimit(n)])
      == Refs(w) + Refs(h) + [Ref(LimitSlot, n)]
  {
    RefsSingleton(SelectFromJoin);
    RefsSingleton(GroupByProperty);
    RefsSingleton(OrderByCostLimit(n));
    var a := [SelectFromJoin] + w;
    RefsAppend([SelectFromJoin], w);
    assert Refs(a) == Refs(w);
    var b := a + [GroupByProperty];
    RefsAppend(a, [GroupByProperty]);
    assert Refs(b) == Refs(w);
    var c := b + h;
    RefsAppend(b, h);
    var d := c + [OrderByCostLimit(n)];
    RefsAppend(c, [OrderByCostLimit(n)]);
    assert Refs(d) == Refs(w) + Refs(h) + [Ref(LimitSlot, n)];
  }

  /** The placeholders of a search, clause by clause: those of WHERE, that of
      HAVING, and the LIMIT's. */
  lemma SearchRefs(o: SearchOptions, limit: Option<int>)
    ensures var q := SearchQuery(o, limit);
      var bs := WhereBindings(o);
      Refs(q.text)
      == Refs(if bs == [] then [] else [Where(Conditions(bs))])
         + (if Present(o, MinimumRating) then [Ref(FilterSlot(MinimumRating), |bs| + 1)] else [])
         + [Ref(LimitSlot, |q.values|)]
  {
    var q := SearchQuery(o, limit);
    var bs := WhereBindings(o);
    var w: seq<Clause> := if bs == [] then [] else [Where(Conditions(bs))];
    var h: seq<Clause> := if Present(o, MinimumRating) then [HavingRatingAtLeast(|bs| + 1)] else [];
    ShapeRefs(w, h, |q.values|);
    assert Refs(h) == if Present(o, MinimumRating) then [Ref(FilterSlot(MinimumRating), |bs| + 1)] else [];
  }

  /** Placeholder `$k` stands for `values[k-1]`: the placeholders, in reading
      order, are `$1 .. $n` for the `n` values; the first ones stand for the
      present filters in the builder's order, each bound to its value; the last
      is the LIMIT, bound to the limit. */
  lemma Placeholders(o: SearchOptions, limit: Option<int>)
    ensures var q := SearchQuery(o, limit);
      var r := Refs(q.text);
      var fs := PresentFilters(o);
      && |r| == |q.values| == |fs| + 1
      && (forall i :: 0 <= i < |fs| ==> r[i] == Ref(FilterSlot(fs[i]), i + 1) && Binds(o, fs[i], q.values[i]))
      && r[|fs|] == Ref(LimitSlot, |fs| + 1)
      && q.values[|fs|] == Num(LimitOrDefault(limit))
  {
    var q := SearchQuery(o, limit);
    var r := Refs(q.text);
    var fs := PresentFilters(o);
    SearchRefs(o, limit);
    WhereRefs(o);
    ConditionsAt(WhereBindings(o));
    WhereBindingsAligned(o);
    assert fs == KeepOne(o, City) + KeepOne(o, OwnerId) + KeepOne(o, MinimumPrice) + KeepOne(o, MaximumPrice)
      + KeepOne(o, MinimumRating);
    assert |r| == |q.values| == |fs| + 1;
    FilterPlaceholders(o, limit);
  }

  /** The placeholders before the limit's: `$i+1` stands for the i-th present
      filter and is bound to its value. */
  lemma FilterPlaceholders(o: SearchOptions, limit: Option<int>)
    requires var q := SearchQuery(o, limit);
      |Refs(q.text)| == |q.values| == |PresentFilters(o)| + 1
    ensures var q := SearchQuery(o, limit);
      var r := Refs(q.text);
      var fs := PresentFilters(o);
      forall i :: 0 <= i < |fs| ==> r[i] == Ref(FilterSlot(fs[i]), i + 1) && Binds(o, fs[i], q.values[i])
  {
    var q := SearchQuery(o, limit);
    var bs := WhereBindings(o);
    var r := Refs(q.text);
    var fs := PresentFilters(o);
    var whereFilters := KeepOne(o, City) + KeepOne(o, OwnerId) + KeepOne(o, MinimumPrice) + KeepOne(o, MaximumPrice);
    SearchRefs(o, limit);
    WhereRefs(o);
    ConditionsAt(bs);
    WhereBindingsAligned(o);
    assert fs == whereFilters + KeepOne(o, MinimumRating);
    forall i | 0 <= i < |fs|
      ensures r[i] == Ref(FilterSlot(fs[i]), i + 1) && Binds(o, fs[i], q.values[i])
    {
      if i < |bs| {
        assert fs[i] == whereFilters[i] == bs[i].filter;
        assert q.values[i] == Values(bs)[i] == bs[i].value;
      } else {
        assert fs[i] == MinimumRating;
        assert q.values[i] == BoundValue(o, MinimumRating);
      }
    }
  }

  // ---------------------------------------------------------------------------
  // Clauses

  /** A statement of the builder's shape, with at most one WHERE and at most one
      HAVING clause in their places, keeps the clause order. */
  lemma ShapeOrder(w: seq<Clause>, h: seq<Clause>, n: nat)
    requires |w| <= 1 && (w != [] ==> w[0].Where?)
    requires |h| <= 1 && (h != [] ==> h[0].HavingRatingAtLeast?)
    ensures var t := [SelectFromJoin] + w + [GroupByProperty] + h + [OrderByCostLimit(n)];
      && (forall i, j :: 0 <= i < j < |t| ==> ClauseRank(t[i]) < ClauseRank(t[j]))
      && ((exists i :: 0 <= i < |t| && t[i].Where?) <==> w != [])
      && (forall i :: 0 <= i < |t| && t[i].Where? ==> t[i] == w[0])
      && ((exists i :: 0 <= i < |t| && t[i].HavingRatingAtLeast?) <==> h != [])
  {
    var t := [SelectFromJoin] + w + [GroupByProperty] + h + [OrderByCostLimit(n)];
    assert forall i :: 0 <= i < |t| ==> ClauseRank(t[i]) == if i == 0 then 0 else if i < |w| + 1 then 1
      else if i == |w| + 1 then 2 else if i < |w| + |h| + 2 then 3 else 4;
    if w != [] {
      assert t[1].Where?;
    }
    if h != [] {
      assert t[|w| + 2].HavingRatingAtLeast?;
    }
  }

  /** The statement text of a search, in the builder's shape. */
  lemma SearchShape(o: SearchOptions, limit: Option<int>)
    ensures var q := SearchQuery(o, limit);
      var bs := WhereBindings(o);
      && q.text == [SelectFromJoin]
        + (if AnyWhereFilter(o) then [Where(Conditions(bs))] else [])
        + [GroupByProperty]
        + (if Present(o, MinimumRating) then [HavingRatingAtLeast(|bs| + 1)] else [])
        + [OrderByCostLimit(|q.values|)]
      && (AnyWhereFilter(o) ==> Conditions(bs) != [])
  {
    var bs := WhereBindings(o);
    ConditionsAt(bs);
    assert bs == [] <==> !AnyWhereFilter(o);
  }

  /** The clauses come in the order SELECT, WHERE, GROUP BY, HAVING, ORDER BY,
      each at most once, opening with the SELECT and closing with the ORDER BY
      whose LIMIT names the last value. */
  lemma ClauseOrder(o: SearchOptions, limit: Option<int>)
    ensures var t := SearchQuery(o, limit).text;
      && (forall i, j :: 0 <= i < j < |t| ==> ClauseRank(t[i]) < ClauseRank(t[j]))
      && t[0] == SelectFromJoin
      && GroupByProperty in t
      && t[|t| - 1] == OrderByCostLimit(|SearchQuery(o, limit).values|)
  { }

  /** WHERE appears iff one of the four WHERE filters is present, and then has
      at least one condition; HAVING appears iff the rating is present. */
  lemma WhereAndHaving(o: SearchOptions, limit: Option<int>)
    ensures var t := SearchQuery(o, limit).text;
      && ((exists i :: 0 <= i < |t| && t[i].Where?) <==> AnyWhereFilter(o))
      && (forall i :: 0 <= i < |t| && t[i].Where? ==> t[i].conditions != [])
      && ((exists i :: 0 <= i < |t| && t[i].HavingRatingAtLeast?) <==> Present(o, MinimumRating))
  {
    var q := SearchQuery(o, limit);
    var bs := WhereBindings(o);
    var w: seq<Clause> := if AnyWhereFilter(o) then [Where(Conditions(bs))] else [];
    var h: seq<Clause> := if Present(o, MinimumRating) then [HavingRatingAtLeast(|bs| + 1)] else [];
    SearchShape(o, limit);
    ShapeOrder(w, h, |q.values|);
  }

  // ---------------------------------------------------------------------------
  // Values

  /** The bound values carry the options: the city inside `%` wildcards, the
      owner and the rating as their decimal text, and each price bound in
      cents (the option times 100), as decimal text that reads back. */
  lemma BoundValueMeaning(o: SearchOptions, f: Filter)
    requires Present(o, f)
    ensures f == City ==> BoundValue(o, f) == Str("%" + o.city.value + "%")
    ensures f == OwnerId ==> BoundValue(o, f).Str? && ParseInt(BoundValue(o, f).s) == Some(o.ownerId.value)
    ensures f == MinimumPrice ==>
      BoundValue(o, f).Str? && ParseInt(BoundValue(o, f).s) == Some(100 * o.minimumPricePerNight.value)
    ensures f == MaximumPrice ==>
      BoundValue(o, f).Str? && ParseInt(BoundValue(o, f).s) == Some(100 * o.maximumPricePerNight.value)
    ensures f == MinimumRating ==>
      BoundValue(o, f).Str? && ParseInt(BoundValue(o, f).s) == Some(o.minimumRating.value)
  {
    match f
    case City =>
    case OwnerId => ParseIntString(o.ownerId.value);
    case MinimumPrice => ParseIntString(o.minimumPricePerNight.value * 100);
    case MaximumPrice => ParseIntString(o.maximumPricePerNight.value * 100);
    case MinimumRating => ParseIntString(o.minimumRating.value);
  }

  /** A falsy option is no filter: the search is the same as with the option
      missing altogether. */
  lemma AbsentIsNoFilter(o: SearchOptions, f: Filter, limit: Option<int>)
    requires !Present(o, f)
    ensures SearchQuery(Without(o, f), limit) == SearchQuery(o, limit)
  {
    var o' := Without(o, f);
    assert forall g :: Present(o', g) == Present(o, g);
    assert WhereBindings(o') == WhereBindings(o) by {
      assert Bind(o', City) == Bind(o, City);
      assert Bind(o', OwnerId) == Bind(o, OwnerId);
      assert Bind(o', MinimumPrice) == Bind(o, MinimumPrice);
      assert Bind(o', MaximumPrice) == Bind(o, MaximumPrice);
    }
    assert RatingValues(o') == RatingValues(o);
  }

  // ---------------------------------------------------------------------------
  // Injection safety

  /** Options with the same present filters have WHERE bindings for the same
      filters in the same order. */
  lemma SameWhereFilters(o: SearchOptions, o': SearchOptions)
    requires forall f :: Present(o, f) <==> Present(o', f)
    ensures var bs, bs' := WhereBindings(o), WhereBindings(o');
      |bs| == |bs'| && forall i :: 0 <= i < |bs| ==> bs[i].filter == bs'[i].filter
  {
    WhereBindingsAligned(o);
    WhereBindingsAligned(o');
    assert KeepOne(o, City) == KeepOne(o', City);
    assert KeepOne(o, OwnerId) == KeepOne(o', OwnerId);
    assert KeepOne(o, MinimumPrice) == KeepOne(o', MinimumPrice);
    assert KeepOne(o, MaximumPrice) == KeepOne(o', MaximumPrice);
  }

  /** The statement text depends only on which options are present, never on
      their values or on the limit: user input reaches the values only. */
  lemma TextDependsOnlyOnPresence(o: SearchOptions, o': SearchOptions, limit: Option<int>, limit': Option<int>)
    requires forall f :: Present(o, f) <==> Present(o', f)
    ensures SearchQuery(o, limit).text == SearchQuery(o', limit').text
  {
    var bs, bs' := WhereBindings(o), WhereBindings(o');
    var q, q' := SearchQuery(o, limit), SearchQuery(o', limit');
    SameWhereFilters(o, o');
    ConditionsAt(bs);
    ConditionsAt(bs');
    assert Conditions(bs) == Conditions(bs');
    assert |q.values| == |q'.values| by {
      assert |RatingValues(o)| == |RatingValues(o')|;
    }
    SearchShape(o, limit);
    SearchShape(o', limit');
  }
}
