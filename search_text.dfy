/** The SQL text of a property search, as `getAllProperties` spells it: each
    clause is the string the builder appends with `+=`, and the conditions are
    joined with `AND` the way `conditions.join` joins them. */
module SearchText {
  import opened JsValues
  import opened PropertySearch
  import SearchProperties

  /** The placeholder `$k`, written with the decimal digits of `k`; it reads
      back as `k`. */
  function Placeholder(k: nat): (s: string)
    ensures |s| >= 2 && s[0] == '$'
    ensures ParseNat(s[1..]) == Some(k)
  {
    ParseNatString(k);
    assert ("$" + NatString(k))[1..] == NatString(k);
    "$" + NatString(k)
  }

  const SelectText := "SELECT properties.*, AVG(property_reviews.rating) as average_rating\n  FROM properties\n  JOIN property_reviews ON properties.id = property_reviews.property_id"
  const AndText := " \n      AND "

  /** The condition text pushed at lines 111-126: a column test that ends with
      its own placeholder `$k`, the only `$` in it. */
  function ConditionText(c: Condition): (s: string)
    ensures |s| > |Placeholder(c.k)| && s[|s| - |Placeholder(c.k)|..] == Placeholder(c.k)
    ensures forall i :: 0 <= i < |s| - |Placeholder(c.k)| ==> s[i] != '$'
  {
    match c
    case CityLike(k) => OnPlaceholder("city LIKE ", k)
    case OwnerIs(k) => OnPlaceholder("properties.owner_id = ", k)
    case CostAtLeast(k) => OnPlaceholder("properties.cost_per_night >= ", k)
    case CostAtMost(k) => OnPlaceholder("properties.cost_per_night <= ", k)
  }

  /** A test `test` on placeholder `$k`, where `test` holds no `$` of its own. */
  function OnPlaceholder(test: string, k: nat): (s: string)
    requires |test| > 0 && forall i :: 0 <= i < |test| ==> test[i] != '$'
    ensures |s| > |Placeholder(k)| && s[|s| - |Placeholder(k)|..] == Placeholder(k)
    ensures forall i :: 0 <= i < |s| - |Placeholder(k)| ==> s[i] != '$'
  {
    var s := test + Placeholder(k);
    assert s[|s| - |Placeholder(k)|..] == Placeholder(k);
    s
  }

  /** `parts.join(sep)`: the parts with `sep` between each two neighbours. */
  function Join(parts: seq<string>, sep: string): (s: string)
    ensures parts != [] ==> |s| >= |parts[|parts| - 1]|
  {
    if |parts| == 0 then ""
    else if |parts| == 1 then parts[0]
    else Join(parts[..|parts| - 1], sep) + sep + parts[|parts| - 1]
  }

  /** Joining two non-empty lists puts one separator between their joins. */
  lemma {:induction false} JoinAppend(a: seq<string>, b: seq<string>, sep: string)
    requires a != [] && b != []
    ensures Join(a + b, sep) == Join(a, sep) + sep + Join(b, sep)
    decreases |b|
  {
    var ab := a + b;
    assert ab[|ab| - 1] == b[|b| - 1];
    if |b| == 1 {
      assert ab[..|ab| - 1] == a;
    } else {
      assert ab[..|ab| - 1] == a + b[..|b| - 1];
      JoinAppend(a, b[..|b| - 1], sep);
    }
  }

  /** `conditions.join(AndText)`; it is empty exactly when there are no conditions. */
  function JoinConditions(cs: seq<Condition>): (s: string)
    ensures s == "" <==> cs == []
  {
    var parts := seq(|cs|, i requires 0 <= i < |cs| => ConditionText(cs[i]));
    Join(parts, AndText)
  }

  /** The line break (after a space) that opens every clause after the SELECT. */
  const Break := " \n"

  /** The string each clause appends. Every clause after the SELECT opens with
      a space and a line break, so appending never runs two words together. */
  function ClauseText(c: Clause): (s: string)
    ensures c != SelectFromJoin ==> |s| > 2 && s[0] == ' ' && s[1] == '\n'
  {
    match c
    case SelectFromJoin => SelectText
    case Where(cs) => Break + "    WHERE " + JoinConditions(cs)
    case GroupByProperty => Break + "    GROUP BY properties.id"
    case HavingRatingAtLeast(k) => Break + "      HAVING AVG(property_reviews.rating) >= " + Placeholder(k)
    case OrderByCostLimit(k) => Break + "    ORDER BY cost_per_night\n  LIMIT " + Placeholder(k) + ";\n  "
  }

  /** The statement text: the clause strings, appended in order. */
  function Render(text: seq<Clause>): string {
    if text == [] then "" else Render(text[..|text| - 1]) + ClauseText(text[|text| - 1])
  }

  /** Appending clauses appends their strings: building the clause list and
      rendering it is building the string with `+=`. */
  lemma {:induction false} RenderAppend(a: seq<Clause>, b: seq<Clause>)
    ensures Render(a + b) == Render(a) + Render(b)
  {
    if b == [] {
      assert a + b == a;
    } else {
      assert (a + b)[..|a + b| - 1] == a + b[..|b| - 1];
      RenderAppend(a, b[..|b| - 1]);
    }
  }

  /** A single clause renders as its own string. */
  lemma RenderSingle(c: Clause)
    ensures Render([c]) == ClauseText(c)
  {
    assert [c][..0] == [];
  }

  /** Rendering a statement of the builder's shape appends the strings of its
      clauses in order. */
  lemma ShapeRender(w: seq<Clause>, h: seq<Clause>, last: Clause)
    requires |w| <= 1 && |h| <= 1
    ensures Render([SelectFromJoin] + w + [GroupByProperty] + h + [last]) ==
      ClauseText(SelectFromJoin) + Render(w) + ClauseText(GroupByProperty) + Render(h) + ClauseText(last)
  {
    RenderAppend([SelectFromJoin] + w + [GroupByProperty] + h, [last]);
    RenderAppend([SelectFromJoin] + w + [GroupByProperty], h);
    RenderAppend([SelectFromJoin] + w, [GroupByProperty]);
    RenderAppend([SelectFromJoin], w);
    RenderSingle(SelectFromJoin);
    RenderSingle(GroupByProperty);
    RenderSingle(last);
  }

  /** The statement string of a search is the builder's sequence of `+=`: the
      SELECT, the WHERE with the joined conditions when there are any, GROUP BY,
      the HAVING on `$n+1` after `n` WHERE values when the rating is truthy,
      and ORDER BY with the LIMIT on the last value's placeholder. */
  lemma RenderedStatement(o: SearchOptions, limit: Option<int>)
    ensures var bs := WhereBindings(o);
      var q := SearchQuery(o, limit);
      Render(q.text) ==
        ClauseText(SelectFromJoin)
        + (if bs == [] then "" else ClauseText(Where(Conditions(bs))))
        + ClauseText(GroupByProperty)
        + (if Present(o, MinimumRating) then ClauseText(HavingRatingAtLeast(|bs| + 1)) else "")
        + ClauseText(OrderByCostLimit(|q.values|))
  {
    var bs := WhereBindings(o);
    var q := SearchQuery(o, limit);
    var w: seq<Clause> := if bs == [] then [] else [Where(Conditions(bs))];
    var h: seq<Clause> := if Present(o, MinimumRating) then [HavingRatingAtLeast(|bs| + 1)] else [];
    SearchProperties.SearchShape(o, limit);
    assert SearchProperties.AnyWhereFilter(o) <==> bs != [];
    ShapeRender(w, h, OrderByCostLimit(|q.values|));
    var rw := if bs == [] then "" else ClauseText(Where(Conditions(bs)));
    var rh := if Present(o, MinimumRating) then ClauseText(HavingRatingAtLeast(|bs| + 1)) else "";
    assert Render(w) == rw by {
      if w != [] {
        RenderSingle(w[0]);
      }
    }
    assert Render(h) == rh by {
      if h != [] {
        RenderSingle(h[0]);
      }
    }
  }

  /** Injection safety, on the SQL string itself: options with the same present
      filters give the same statement text, whatever their values and limit. */
  lemma RenderedDependsOnlyOnPresence(o: SearchOptions, o': SearchOptions, limit: Option<int>, limit': Option<int>)
    requires forall f :: Present(o, f) <==> Present(o', f)
    ensures Render(SearchQuery(o, limit).text) == Render(SearchQuery(o', limit').text)
  {
    SearchProperties.TextDependsOnlyOnPresence(o, o', limit, limit');
  }
}
