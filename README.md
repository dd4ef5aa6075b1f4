# LightBnB data access: the property search builder

This project models the part of LightBnB's data-access layer
(`LightBnB_WebApp/server/database.js`) whose behaviour can be stated: the
statement builder inside `getAllProperties`, together with the parameter lists of
the two INSERT statements, `addUser` and `addProperty`.

`getAllProperties(options, limit = 10)` builds one SQL statement and, in step
with it, the list of values bound to its positional placeholders `$1, $2, ...`.
For each of the options `city`, `owner_id`, `minimum_price_per_night` and
`maximum_price_per_night` that is truthy, it pushes the option's value (the city
inside `%` wildcards, prices times 100, each as its decimal text) and then a
condition whose placeholder is the new length of the value list. It joins the
conditions with `AND` under one `WHERE`, adds `GROUP BY`, adds a `HAVING` on the
average rating when `minimum_rating` is truthy, and closes with `ORDER BY` and
a `LIMIT` bound to the limit, always the last value.

The model has five modules, one file each:

- `JsValues` (`js_values.dfy`): JavaScript option values with their
  truthiness. It also has the decimal text a template literal `${n}` gives an
  integer, with a parser that reads it back.
- `PropertySearch` (`property_search.dfy`) holds the options, the clause
  datatype that stands for each string the builder appends, and the
  specification `SearchQuery`. It also holds the builder itself, as two
  imperative methods over local sequences:
  - `CollectWhereConditions` is the WHERE half, lines 104-127.
  - `GetAllProperties` calls it and then appends the rest, lines 129-147.

  `CollectWhereConditions` is proved to return the values and conditions of
  the present WHERE filters. `GetAllProperties` is proved to compute exactly
  `SearchQuery`.
- `SearchProperties` (`search_properties.dfy`) proves what the statement
  promises, using reference definitions that do not follow the builder:
  - the present filters in the builder's order;
  - the placeholders of a statement text in reading order;
  - a rank for each clause kind.
- `SearchText` (`search_text.dfy`): the SQL string each clause stands for, as
  the source spells it, and the statement string as those strings appended in
  order.
- `Inserts` (`inserts.dfy`): `addUser` and `addProperty` as functions from the
  record to the INSERT statement's table, columns, placeholders and values.

## Model

| member | source | states |
|---|---|---|
| JsValues.NatString | LightBnB_WebApp/server/database.js:115 | the template-literal text of a natural number is a non-empty string of decimal digits with no leading zero |
| JsValues.IntString | LightBnB_WebApp/server/database.js:120 | the text of an integer starts with `-` exactly when the integer is negative; after that sign it is a non-empty run of decimal digits with no leading zero |
| JsValues.ParseNatString | LightBnB_WebApp/server/database.js:115 | the decimal text of a natural number reads back as that number |
| JsValues.ParseIntString | LightBnB_WebApp/server/database.js:119-126 | the decimal text of any integer, negative ones included, reads back as that integer |
| JsValues.IntStringInjective | LightBnB_WebApp/server/database.js:119-126 | different integers are bound as different texts |
| PropertySearch.CollectWhereConditions | LightBnB_WebApp/server/database.js:104-127 | after the four WHERE tests, the values are the present WHERE filters' values in the order city, owner, minimum price, maximum price, and condition i carries placeholder `$i+1` |
| PropertySearch.GetAllProperties | LightBnB_WebApp/server/database.js:103-147 | the builder returns exactly the statement and value list of the specification `SearchQuery` for every options record and limit |
| PropertySearch.Added | LightBnB_WebApp/server/database.js:109-126 | pushing a present filter's value and then its condition extends both lists by one, and the condition's placeholder is the new number of values |
| PropertySearch.ValuesLength | LightBnB_WebApp/server/database.js:109-127 | there is one value per condition, and one of each per present WHERE filter |
| PropertySearch.Assemble | LightBnB_WebApp/server/database.js:129-147 | `SearchQuery` is the SELECT, the WHERE when there are conditions, GROUP BY, the HAVING on placeholder `$n+1` after `n` WHERE values when the rating is truthy, and ORDER BY/LIMIT on the last value's placeholder |
| SearchProperties.PresentFiltersExact | LightBnB_WebApp/server/database.js:109-142 | the reference list of present filters holds exactly the truthy options, each once, in the order city, owner, minimum price, maximum price, minimum rating |
| SearchProperties.WhereBindingsAligned | LightBnB_WebApp/server/database.js:109-127 | the WHERE bindings are the present WHERE filters in order, each with the value that filter binds |
| SearchProperties.ConditionsAt | LightBnB_WebApp/server/database.js:109-126 | condition i names placeholder `$i+1` and is the condition of binding i, whose value is value i |
| SearchProperties.SearchRefs | LightBnB_WebApp/server/database.js:129-146 | the placeholders of the statement, in reading order, are those of WHERE, then HAVING's, then LIMIT's, which is `$n` for `n` values |
| SearchProperties.Placeholders | LightBnB_WebApp/server/database.js:109-146 | the placeholders in reading order are `$1 .. $n` for the `n` values, so `$k` names value k. The first ones stand for the present filters in order, each bound to its filter's value, so an absent option binds nothing. The last is the LIMIT, bound to the limit, and `n` is the number of present filters plus one |
| SearchProperties.ShapeOrder | LightBnB_WebApp/server/database.js:129-147 | a statement of the builder's shape keeps the clause order and has WHERE or HAVING exactly when it appended one |
| SearchProperties.ClauseOrder | LightBnB_WebApp/server/database.js:105-147 | the clauses come in the order SELECT, WHERE, GROUP BY, HAVING, ORDER BY/LIMIT, each at most once; the statement opens with the SELECT, has a GROUP BY, and closes with the LIMIT on the last value |
| SearchProperties.WhereAndHaving | LightBnB_WebApp/server/database.js:129-142 | WHERE appears iff one of the four WHERE filters is truthy, and then holds at least one condition; HAVING appears iff the minimum rating is truthy, so the rating never yields a WHERE condition |
| SearchProperties.BoundValueMeaning | LightBnB_WebApp/server/database.js:110-139 | what `PropertySearch.BoundValue` pushes for each filter: the city as `%city%`; the owner and the rating as texts that read back as themselves; each price as a text that reads back as the option times 100 |
| SearchProperties.AbsentIsNoFilter | LightBnB_WebApp/server/database.js:109-142 | a falsy option (empty string, zero) gives the same statement and values as the option missing altogether |
| SearchProperties.SameWhereFilters | LightBnB_WebApp/server/database.js:109-127 | options with the same truthy fields have WHERE bindings for the same filters in the same order |
| SearchProperties.TextDependsOnlyOnPresence | LightBnB_WebApp/server/database.js:105-147 | the statement text depends only on which options are truthy, never on their values or on the limit |
| SearchText.Placeholder | LightBnB_WebApp/server/database.js:111 | a placeholder is `$` followed by text that reads back as its number |
| SearchText.ConditionText | LightBnB_WebApp/server/database.js:111-126 | each condition pushed is a column test that ends with its own placeholder `$k`, and that placeholder is the only `$` in it |
| SearchText.Join | LightBnB_WebApp/server/database.js:131-132 | the join of a non-empty list is at least as long as its last element, so a non-empty condition makes a non-empty join |
| SearchText.JoinAppend | LightBnB_WebApp/server/database.js:131-132 | joining two non-empty lists puts exactly one separator between their joins |
| SearchText.JoinConditions | LightBnB_WebApp/server/database.js:131-132 | the joined conditions are empty exactly when there are no conditions, so a WHERE is never left without one |
| SearchText.ClauseText | LightBnB_WebApp/server/database.js:105-146 | every clause appended after the SELECT opens with a space and a line break, so no two words run together |
| SearchText.RenderedStatement | LightBnB_WebApp/server/database.js:105-146 | the SQL string of a search is the SELECT, the WHERE with the joined conditions when there are any, GROUP BY, the HAVING on `$n+1` when the rating is truthy, and ORDER BY/LIMIT on the last value's placeholder, appended in that order |
| SearchText.RenderAppend | LightBnB_WebApp/server/database.js:130-147 | the string of a clause list is the clause strings appended in order, as the builder's `+=` appends them |
| SearchText.RenderedDependsOnlyOnPresence | LightBnB_WebApp/server/database.js:105-147 | the SQL string itself is the same for any two options records with the same truthy fields, whatever their values and limits |
| Inserts.AddUser | LightBnB_WebApp/server/database.js:56-58 | the user insert targets `users` with the column list `UserColumns`, and its value k, bound to `$k`, is the field stored in column k |
| Inserts.UserColumnsOnce | LightBnB_WebApp/server/database.js:57 | the `users` column list names each user column exactly once |
| Inserts.UserNamesOnce | LightBnB_WebApp/server/database.js:57 | the column names the user insert writes are all different |
| Inserts.AddProperty | LightBnB_WebApp/server/database.js:165-167 | the property insert targets `properties` with the fourteen columns of `PropertyColumns` and fourteen values; value k, bound to `$k`, is the field stored in column k |
| Inserts.PropertyColumnsOnce | LightBnB_WebApp/server/database.js:166 | the `properties` column list names each of the fourteen property columns exactly once |
| Inserts.PropertyNamesOnce | LightBnB_WebApp/server/database.js:166 | the column names the property insert writes are all different |

## Left out

- The `pg` connection pool and its credentials (lines 1-8) are external I/O.
- Every `pool.query(...).then(...).catch(...)` chain is left out, together with the error message it returns in place of rows. These are asynchronous calls into a database driver.
- What the SQL means is left out: what `LIKE`, the join, `AVG`, `GROUP BY` and `ORDER BY` return is the database's business. The model stops at the statement text and its values.
- The constant statements of `getUserWithEmail`, `getUserWithId` and `getAllReservations` are left out. Each is a fixed string with one or two values and nothing to prove.
- JavaScript numbers are modelled as integers. A fractional price or rating, the floating-point rounding of `* 100`, and the exponent notation that `${}` uses for very large numbers are not modelled.
- An option that arrives as a numeric string is not coerced to a number, as `*` would coerce it: prices, owner and rating are integers in the model.
- An option is `None` (undefined or null) or a value of its own type, and its falsy values (`""` and `0`) count as missing, as `None` does. Options of other JavaScript types (`NaN`, objects) are not modelled.
- A missing `limit` takes the default 10. Any given limit, `0` included, is bound unchanged, as the JavaScript default parameter binds it. A limit of another type is not modelled.
- The builder returns its statement as a list of clauses; the string each clause appends is `SearchText.ClauseText`. No lemma ties the rendered string to the placeholder list directly: that goes through the clause list.
- The INSERT statements are modelled as their table, columns, placeholder numbers and values. The literal SQL string of each is not rendered.
- `getAllProperties` scales the price filters by 100 (lines 120, 125), but `addProperty` (line 165) binds `cost_per_night` as given. The model follows the code: `Inserts.PropertyField` stores the cost per night unscaled.
