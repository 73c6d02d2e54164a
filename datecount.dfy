/**
 * `DateQuery.add_date_select` and the two overrides of `CountQuery` in
 * django/db/models/sql/subqueries.py.
 */
module DateCountQueries {
  import opened SqlBase

  /** `Date((alias, column), lookup_type, date_trunc_sql)`: a truncated date column. */
  datatype DateSelect = DateSelect(alias: string, column: string, lookupType: string)

  /** `order == 'ASC' and [1] or [-1]`: ascending on the one selected column, or descending. */
  function DateOrdering(order: string): (r: seq<int>)
    ensures |r| == 1
    ensures r[0] == 1 <==> order == "ASC"
    ensures r[0] == -1 <==> order != "ASC"
  {
    if order == "ASC" then [1] else [-1]
  }

  class DateQuery {
    var select: seq<DateSelect>
    var distinct: bool
    var orderBy: seq<int>

    constructor()
      ensures select == [] && !distinct && orderBy == []
    {
      select := [];
      distinct := false;
      orderBy := [];
    }

    /**
     * Turns the query into a date extraction: the one selected column is the truncated date of
     * `column` on the model's table (whose alias `join` returns), with DISTINCT, ordered by the
     * first column in the direction `order` gives.
     */
    method AddDateSelect(alias: string, column: string, lookupType: string, order: string)
      modifies this
      ensures select == [DateSelect(alias, column, lookupType)]
      ensures distinct
      ensures orderBy == DateOrdering(order)
    {
      select := [DateSelect(alias, column, lookupType)];
      distinct := true;
      orderBy := if order == "ASC" then [1] else [-1];
    }
  }

  /** The suffix that names the derived table. */
  const DerivedAlias := ") AS A1"

  /**
   * `get_from_clause`: the inner query's SQL as the only FROM entry, as a derived table named
   * `A1`, with the inner parameters unchanged.
   */
  function GetFromClause(inner: Sql): (r: (seq<string>, seq<Value>))
    ensures |r.0| == 1 && r.1 == inner.params
    ensures |r.0[0]| == |inner.text| + 8
    ensures r.0[0][0] == '(' && r.0[0][|inner.text| + 1..] == DerivedAlias
  {
    (["(" + inner.text + DerivedAlias], inner.params)
  }

  /** The inner statement of a FROM entry built by `GetFromClause`. */
  function UnwrapDerived(entry: string): string
    requires |entry| >= 8
  {
    entry[1..|entry| - 7]
  }

  /** The inner query's text can be read back from the FROM entry: nothing of it is lost. */
  lemma DerivedRoundTrip(inner: Sql)
    ensures UnwrapDerived(GetFromClause(inner).0[0]) == inner.text
  {
    var e := GetFromClause(inner).0[0];
    assert e == "(" + inner.text + DerivedAlias;
    assert e[1..|e| - 7] == inner.text;
  }

  /** `get_ordering`: the count needs no ORDER BY, so the ordering is empty. */
  function GetOrdering(): (r: seq<string>)
    ensures |r| == 0
  {
    []
  }
}
