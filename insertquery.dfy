/**
 * `InsertQuery` of django/db/models/sql/subqueries.py: the column list and value list that
 * `insert_values` collects, and the INSERT statement `as_sql` renders from them, with raw
 * values spliced into the text and every other value passed as a parameter.
 */
module InsertQueries {
  import opened Wrappers
  import opened SqlBase

  /** An element of `values`: a bound parameter, or a `RawValue` inserted into the text. */
  datatype InsertValue = Param(value: Value) | Raw(value: Value)

  // ---------------------------------------------------------------------------------
  // insert_values
  // ---------------------------------------------------------------------------------

  /** The field name `insert_values` looks up for a key: `'pk'` stands for the primary key. */
  function FieldNameOf(model: ModelMeta, key: string): (name: string)
    ensures key == "pk" ==> name == model.pkName
    ensures key != "pk" ==> name == key
  {
    if key == "pk" then model.pkName else key
  }

  /** The columns appended before the first key whose field does not exist. */
  function ColumnPrefix(model: ModelMeta, items: seq<(string, Value)>): seq<string>
  {
    if items == [] then []
    else match model.fieldByName(FieldNameOf(model, items[0].0))
      case None => []
      case Some(f) => [f.column] + ColumnPrefix(model, items[1..])
  }

  /** The first field name that does not exist, if there is one. */
  function FirstMissing(model: ModelMeta, items: seq<(string, Value)>): Option<string>
  {
    if items == [] then None
    else match model.fieldByName(FieldNameOf(model, items[0].0))
      case None => Some(FieldNameOf(model, items[0].0))
      case Some(_) => FirstMissing(model, items[1..])
  }

  /** Every key names an existing field. */
  predicate AllResolve(model: ModelMeta, items: seq<(string, Value)>)
  {
    forall k :: 0 <= k < |items| ==> model.fieldByName(FieldNameOf(model, items[k].0)).Some?
  }

  /** The values `insert_values` appends: wrapped in `RawValue` exactly when `raw` is set. */
  function Wrap(items: seq<(string, Value)>, raw: bool): (r: seq<InsertValue>)
    ensures |r| == |items|
    ensures forall k :: 0 <= k < |r| ==> r[k].value == items[k].1 && (r[k].Raw? <==> raw)
  {
    seq(|items|, k requires 0 <= k < |items| => if raw then Raw(items[k].1) else Param(items[k].1))
  }

  /**
   * `insert_values` fails exactly when some key names no field, and then the name reported is
   * the first such; when it succeeds there is one column per key, in order, each the column of
   * the named field (the primary key column for `'pk'`).
   */
  lemma {:induction false} ColumnsPerKey(model: ModelMeta, items: seq<(string, Value)>)
    ensures FirstMissing(model, items).None? <==> AllResolve(model, items)
    ensures AllResolve(model, items) ==>
              |ColumnPrefix(model, items)| == |items| &&
              forall k :: 0 <= k < |items| ==>
                ColumnPrefix(model, items)[k] == model.fieldByName(FieldNameOf(model, items[k].0)).value.column
    ensures FirstMissing(model, items).Some? ==>
              model.fieldByName(FirstMissing(model, items).value).None? &&
              |ColumnPrefix(model, items)| < |items|
  {
    if items != [] {
      ColumnsPerKey(model, items[1..]);
      var tail := items[1..];
      if AllResolve(model, tail) && model.fieldByName(FieldNameOf(model, items[0].0)).Some? {
        forall k | 0 <= k < |items|
          ensures model.fieldByName(FieldNameOf(model, items[k].0)).Some?
        {
          if k > 0 { assert items[k] == tail[k - 1]; }
        }
      }
      if AllResolve(model, items) {
        assert model.fieldByName(FieldNameOf(model, items[0].0)).Some?;
        forall k | 0 <= k < |tail|
          ensures model.fieldByName(FieldNameOf(model, tail[k].0)).Some?
        {
          assert tail[k] == items[k + 1];
        }
        forall k | 0 <= k < |items|
          ensures ColumnPrefix(model, items)[k] == model.fieldByName(FieldNameOf(model, items[k].0)).value.column
        {
          if k > 0 { assert items[k] == tail[k - 1]; }
        }
      }
    }
  }

  // ---------------------------------------------------------------------------------
  // as_sql
  // ---------------------------------------------------------------------------------

  /** The text of one VALUES slot: the raw value's text, or a placeholder. */
  function SlotText(v: InsertValue, show: Value -> string): string
  {
    match v
    case Raw(x) => show(x)
    case Param(_) => "%s"
  }

  /** The VALUES slots: every one but the first is prefixed with `', '`. */
  function Slots(values: seq<InsertValue>, show: Value -> string): (r: seq<string>)
    ensures |r| == |values|
  {
    if values == [] then []
    else Slots(values[..|values| - 1], show)
         + [(if |values| > 1 then ", " else "") + SlotText(values[|values| - 1], show)]
  }

  /** The parameters: the non-raw values, in order. */
  function Params(values: seq<InsertValue>): seq<Value>
  {
    if values == [] then []
    else Params(values[..|values| - 1])
         + (if values[|values| - 1].Raw? then [] else [values[|values| - 1].value])
  }

  /** `[qn(c) for c in columns]`. */
  function Quoted(columns: seq<string>, qn: string -> string): (r: seq<string>)
    ensures |r| == |columns| && forall k :: 0 <= k < |r| ==> r[k] == qn(columns[k])
  {
    seq(|columns|, k requires 0 <= k < |columns| => qn(columns[k]))
  }

  /** The parts `as_sql` joins with spaces. */
  function InsertParts(table: string, columns: seq<string>, values: seq<InsertValue>,
                       qn: string -> string, show: Value -> string): seq<string>
  {
    ["INSERT INTO " + qn(table), "(" + Join(", ", Quoted(columns, qn)) + ")", "VALUES ("]
    + Slots(values, show) + [")"]
  }

  /**
   * One slot per value, in order: slot k is the raw text or a placeholder, separated from the
   * previous one by a comma.
   */
  lemma {:induction false} SlotAt(values: seq<InsertValue>, show: Value -> string, k: nat)
    requires k < |values|
    ensures Slots(values, show)[k] == (if k > 0 then ", " else "") + SlotText(values[k], show)
  {
    if k < |values| - 1 {
      SlotAt(values[..|values| - 1], show, k);
    }
  }

  /** The INSERT statement has the table, the column list, `VALUES (`, one part per value and `)`. */
  lemma InsertShape(table: string, columns: seq<string>, values: seq<InsertValue>,
                    qn: string -> string, show: Value -> string)
    ensures |InsertParts(table, columns, values, qn, show)| == |values| + 4
    ensures forall k :: 0 <= k < |values| ==>
              InsertParts(table, columns, values, qn, show)[3 + k] == (if k > 0 then ", " else "") + SlotText(values[k], show)
  {
    forall k | 0 <= k < |values|
      ensures InsertParts(table, columns, values, qn, show)[3 + k] == (if k > 0 then ", " else "") + SlotText(values[k], show)
    {
      SlotAt(values, show, k);
    }
  }

  /** How many values are passed as parameters. */
  function CountParams(values: seq<InsertValue>): nat
  {
    if values == [] then 0
    else CountParams(values[..|values| - 1]) + (if values[|values| - 1].Param? then 1 else 0)
  }

  /**
   * Placeholders and parameters correspond: there is one parameter per non-raw value, and the
   * parameter of value k sits after those of the non-raw values before it.
   */
  lemma {:induction false} ParamOfSlot(values: seq<InsertValue>, k: nat)
    requires k < |values| && values[k].Param?
    ensures |Params(values[..k])| < |Params(values)|
    ensures Params(values)[|Params(values[..k])|] == values[k].value
  {
    var init := values[..|values| - 1];
    if k == |values| - 1 {
      assert values[..k] == init;
    } else {
      assert init[..k] == values[..k];
      ParamOfSlot(init, k);
    }
  }

  lemma {:induction false} ParamsCount(values: seq<InsertValue>)
    ensures |Params(values)| == CountParams(values)
  {
    if values != [] {
      ParamsCount(values[..|values| - 1]);
    }
  }

  /** Raw values never become parameters: appending them leaves the parameters as they were. */
  lemma {:induction false} RawAddsNoParams(prefix: seq<InsertValue>, items: seq<(string, Value)>)
    ensures Params(prefix + Wrap(items, true)) == Params(prefix)
  {
    if items != [] {
      var init := items[..|items| - 1];
      RawAddsNoParams(prefix, init);
      var all := prefix + Wrap(items, true);
      assert all[..|all| - 1] == prefix + Wrap(init, true);
    } else {
      assert prefix + Wrap(items, true) == prefix;
    }
  }

  /** Bound values all become parameters, in order, after the existing ones. */
  lemma {:induction false} BoundAddsAllParams(prefix: seq<InsertValue>, items: seq<(string, Value)>)
    ensures |Params(prefix + Wrap(items, false))| == |Params(prefix)| + |items|
    ensures forall k :: 0 <= k < |items| ==> Params(prefix + Wrap(items, false))[|Params(prefix)| + k] == items[k].1
  {
    if items != [] {
      var init := items[..|items| - 1];
      BoundAddsAllParams(prefix, init);
      var all := prefix + Wrap(items, false);
      assert all[..|all| - 1] == prefix + Wrap(init, false);
    } else {
      assert prefix + Wrap(items, false) == prefix;
    }
  }

  class InsertQuery {
    const model: ModelMeta
    var tables: seq<string>
    var columns: seq<string>
    var values: seq<InsertValue>

    /** `_setup_query` runs on initialisation: no columns and no values yet. */
    constructor(model: ModelMeta, tables: seq<string>)
      ensures this.model == model && this.tables == tables
      ensures columns == [] && values == []
    {
      this.model := model;
      this.tables := tables;
      columns := [];
      values := [];
    }

    /**
     * `insert_values`: one column per key (the lookup raises at the first key naming no field,
     * after the columns of the keys before it have been appended), then every value, wrapped in
     * `RawValue` iff `raw`.
     */
    method InsertValues(items: seq<(string, Value)>, raw: bool) returns (err: Option<QueryError>)
      modifies this
      ensures tables == old(tables)
      ensures columns == old(columns) + ColumnPrefix(model, items)
      ensures err == (match FirstMissing(model, items)
                      case None => None
                      case Some(name) => Some(FieldDoesNotExist(name)))
      ensures err.None? ==> values == old(values) + Wrap(items, raw)
      ensures err.Some? ==> values == old(values)
    {
      var i := 0;
      while i < |items|
        invariant 0 <= i <= |items|
        invariant tables == old(tables) && values == old(values)
        invariant columns + ColumnPrefix(model, items[i..]) == old(columns) + ColumnPrefix(model, items)
        invariant FirstMissing(model, items[i..]) == FirstMissing(model, items)
      {
        assert items[i..][1..] == items[i + 1..];
        var name := items[i].0;
        if name == "pk" {
          name := model.pkName;
        }
        match model.fieldByName(name) {
          case None =>
            return Some(FieldDoesNotExist(name));
          case Some(f) =>
            columns := columns + [f.column];
        }
        i := i + 1;
      }
      values := values + Wrap(items, raw);
      return None;
    }

    /**
     * `as_sql`: the INSERT of the first table, its quoted column list, and one VALUES slot per
     * value; parameters are the non-raw values in order. With no table, `self.tables[0]` raises.
     */
    method AsSql(qn: string -> string, show: Value -> string) returns (r: Result<Sql, QueryError>)
      ensures tables == [] <==> r.Err?
      ensures r.Err? ==> r.error == IndexError
      ensures r.Ok? ==> r.value == Sql(Join(" ", InsertParts(tables[0], columns, values, qn, show)), Params(values))
    {
      if tables == [] {
        return Err(IndexError);
      }
      var result := ["INSERT INTO " + qn(tables[0])];
      result := result + ["(" + Join(", ", Quoted(columns, qn)) + ")"];
      result := result + ["VALUES ("];
      var params: seq<Value> := [];
      var first := true;
      var i := 0;
      while i < |values|
        invariant 0 <= i <= |values|
        invariant first <==> i == 0
        invariant result == InsertParts(tables[0], columns, values[..i], qn, show)[..3 + i]
        invariant params == Params(values[..i])
      {
        assert values[..i + 1][..i] == values[..i];
        var prefix := if !first then ", " else "";
        match values[i] {
          case Raw(x) =>
            result := result + [prefix + show(x)];
          case Param(x) =>
            result := result + [prefix + "%s"];
            params := params + [x];
        }
        first := false;
        i := i + 1;
      }
      assert values[..i] == values;
      result := result + [")"];
      return Ok(Sql(Join(" ", result), params));
    }
  }
}
