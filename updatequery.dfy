/**
 * `UpdateQuery` of django/db/models/sql/subqueries.py: the UPDATE statement, the rewrite of a
 * multi-table update into a single-table one filtered by primary key, the coalescing of
 * updates of ancestor-model fields into one UPDATE per ancestor, and the batched
 * `clear_related`.
 */
module UpdateQueries {
  import opened Wrappers
  import opened SqlBase
  import opened SeqLemmas

  /** One `(column, value)` entry of `values`; a `Null` value is Python's None. */
  type Assignment = (string, Value)

  // ---------------------------------------------------------------------------------
  // as_sql: the SET list and the parameters
  // ---------------------------------------------------------------------------------

  /** `'%s = %%s' % qn(name)` for a value, `'%s = NULL' % qn(name)` for None. */
  function AssignmentText(a: Assignment, qn: string -> string): string
  {
    if a.1.Null? then qn(a.0) + " = NULL" else qn(a.0) + " = %s"
  }

  /** The SET list `as_sql` builds, one entry per element of `values`. */
  function Assignments(values: seq<Assignment>, qn: string -> string): (r: seq<string>)
    ensures |r| == |values|
  {
    if values == [] then []
    else Assignments(values[..|values| - 1], qn) + [AssignmentText(values[|values| - 1], qn)]
  }

  /** `update_params`: the non-None values, in order. */
  function BoundParams(values: seq<Assignment>): seq<Value>
  {
    if values == [] then []
    else BoundParams(values[..|values| - 1])
         + (if values[|values| - 1].1.Null? then [] else [values[|values| - 1].1])
  }

  /** A SET entry that carries a placeholder. */
  predicate IsPlaceholder(t: string)
  {
    |t| >= 5 && t[|t| - 5..] == " = %s"
  }

  function CountPlaceholders(ts: seq<string>): nat
  {
    if ts == [] then 0
    else CountPlaceholders(ts[..|ts| - 1]) + (if IsPlaceholder(ts[|ts| - 1]) then 1 else 0)
  }

  /** Entry i of the SET list is `col = NULL` for None and `col = %s` otherwise. */
  lemma {:induction false} AssignmentAt(values: seq<Assignment>, qn: string -> string, i: nat)
    requires i < |values|
    ensures Assignments(values, qn)[i] == AssignmentText(values[i], qn)
    ensures values[i].1.Null? <==> !IsPlaceholder(Assignments(values, qn)[i])
  {
    if i < |values| - 1 {
      AssignmentAt(values[..|values| - 1], qn, i);
    }
    var t := qn(values[i].0);
    if values[i].1.Null? {
      var s := t + " = NULL";
      assert s[|s| - 5..] == " NULL";
      assert " NULL"[1] != " = %s"[1];
    } else {
      var s := t + " = %s";
      assert s[|s| - 5..] == " = %s";
    }
  }

  /**
   * Placeholders and parameters correspond: the SET list has exactly as many placeholders as
   * `update_params` has values, and None never becomes a parameter.
   */
  lemma {:induction false} PlaceholdersMatchParams(values: seq<Assignment>, qn: string -> string)
    ensures CountPlaceholders(Assignments(values, qn)) == |BoundParams(values)|
    ensures forall k :: 0 <= k < |BoundParams(values)| ==> !BoundParams(values)[k].Null?
  {
    if values != [] {
      var init := values[..|values| - 1];
      PlaceholdersMatchParams(init, qn);
      AssignmentAt(values, qn, |values| - 1);
      assert Assignments(values, qn)[..|values| - 1] == Assignments(init, qn);
    }
  }

  /**
   * The parameter for the placeholder of entry i is that entry's value: it sits after the
   * parameters of the non-None entries before it.
   */
  lemma {:induction false} ParamOfEntry(values: seq<Assignment>, i: nat)
    requires i < |values| && !values[i].1.Null?
    ensures |BoundParams(values[..i])| < |BoundParams(values)|
    ensures BoundParams(values)[|BoundParams(values[..i])|] == values[i].1
  {
    var init := values[..|values| - 1];
    if i == |values| - 1 {
      assert values[..i] == init;
    } else {
      assert init[..i] == values[..i];
      ParamOfEntry(init, i);
    }
  }

  /** `' '.join(result)` for the three or four parts of an UPDATE. */
  lemma JoinUpdateParts(a: string, b: string, c: string, d: seq<string>)
    requires |d| <= 1
    ensures Join(" ", [a, b, c] + d) == a + " " + b + " " + c + (if d == [] then "" else " " + d[0])
  {
    JoinTwo(" ", a, b);
    JoinSnoc(" ", [a], b);
    assert [a] + [b] == [a, b];
    JoinSnoc(" ", [a, b], c);
    assert [a, b] + [c] == [a, b, c];
    if d != [] {
      assert [a, b, c] + d == [a, b, c] + [d[0]];
      JoinSnoc(" ", [a, b, c], d[0]);
    } else {
      assert [a, b, c] + d == [a, b, c];
    }
  }

  /**
   * What `as_sql` returns once `pre_sql_setup` has run: `('', ())` when there is nothing to
   * set; otherwise an UPDATE of the first table with the SET list, a WHERE clause only when
   * the rendered WHERE text is non-empty, and the update parameters followed by the WHERE
   * parameters. With no table at all, `self.tables[0]` raises.
   */
  predicate IsUpdateSql(r: Result<Sql, QueryError>, tables: seq<string>, values: seq<Assignment>,
                        w: Sql, qn: string -> string)
  {
    if values == [] then r == Ok(EmptySql)
    else if tables == [] then r == Err(IndexError)
    else r == Ok(Sql("UPDATE " + qn(tables[0]) + " SET " + Join(", ", Assignments(values, qn))
                     + (if w.text != "" then " WHERE " + w.text else ""),
                     BoundParams(values) + w.params))
  }

  /** The loop of `as_sql` over `values`: the SET entries and `update_params`. */
  method SetEntries(values: seq<Assignment>, qn: string -> string)
    returns (sets: seq<string>, updateParams: seq<Value>)
    ensures sets == Assignments(values, qn)
    ensures updateParams == BoundParams(values)
  {
    sets := [];
    updateParams := [];
    var i := 0;
    while i < |values|
      invariant 0 <= i <= |values|
      invariant sets == Assignments(values[..i], qn)
      invariant updateParams == BoundParams(values[..i])
    {
      assert values[..i + 1][..i] == values[..i];
      var (name, val) := values[i];
      if !val.Null? {
        sets := sets + [qn(name) + " = %s"];
        updateParams := updateParams + [val];
      } else {
        sets := sets + [qn(name) + " = NULL"];
      }
      i := i + 1;
    }
    assert values[..i] == values;
  }

  /** The body of `as_sql` after its call to `pre_sql_setup`. */
  method RenderUpdate(tables: seq<string>, values: seq<Assignment>, w: Sql, qn: string -> string)
    returns (r: Result<Sql, QueryError>)
    ensures IsUpdateSql(r, tables, values, w, qn)
  {
    if values == [] {
      return Ok(EmptySql);
    }
    if tables == [] {
      return Err(IndexError);
    }
    var table := tables[0];
    var result := ["UPDATE " + qn(table), "SET"];
    var sets, updateParams := SetEntries(values, qn);
    result := result + [Join(", ", sets)];
    assert result == ["UPDATE " + qn(table), "SET", Join(", ", sets)];
    var whereParts := if w.text != "" then ["WHERE " + w.text] else [];
    JoinUpdateParts("UPDATE " + qn(table), "SET", Join(", ", sets), whereParts);
    var head := "UPDATE " + qn(table);
    var tailText := if w.text != "" then " WHERE " + w.text else "";
    assert head + " " + "SET" + " " == head + " SET ";
    assert (if whereParts == [] then "" else " " + whereParts[0]) == tailText by {
      if w.text != "" {
        assert " " + ("WHERE " + w.text) == " WHERE " + w.text;
      }
    }
    r := Ok(Sql(Join(" ", result + whereParts), updateParams + w.params));
    assert r.value.text == head + " SET " + Join(", ", sets) + tailText;
  }

  // ---------------------------------------------------------------------------------
  // pre_sql_setup: the single-table decision and the rewrite
  // ---------------------------------------------------------------------------------

  /** The aliases `count_active_tables` counts: those with a non-zero reference count. */
  function ActiveTables(refcount: map<string, nat>): set<string>
  {
    set a | a in refcount && refcount[a] > 0
  }

  /** `pre_sql_setup` returns early exactly when there are no related updates and one active table. */
  predicate NeedsRewrite(relatedUpdates: map<string, seq<Assignment>>, refcount: map<string, nat>)
  {
    !(relatedUpdates == map[] && |ActiveTables(refcount)| == 1)
  }

  /**
   * The WHERE node after the rewrite: `pk IN (fetched ids)` when ancestor updates must share the
   * key list, otherwise `pk IN (sub-select over the old tables and WHERE node)`.
   */
  function RewrittenWhere(tables: seq<string>, where: Where, relatedUpdates: map<string, seq<Assignment>>,
                          fetchedIds: seq<Value>): Where
  {
    if relatedUpdates != map[] then Where([PkIn(fetchedIds)])
    else Where([PkInSubquery(tables, where)])
  }

  /** `for alias in self.tables[1:]: alias_map[alias][ALIAS_REFCOUNT] = 0`. */
  function ZeroAfterFirst(refcount: map<string, nat>, tables: seq<string>): map<string, nat>
  {
    map a | a in refcount :: if a in Tail(tables) then 0 else refcount[a]
  }

  /** Python's `tables[1:]`, which is empty for an empty list. */
  function Tail<T>(s: seq<T>): seq<T>
  {
    if s == [] then [] else s[1..]
  }

  /** With at most one table there is no alias after the first: nothing changes. */
  lemma ZeroAfterFirstShort(refcount: map<string, nat>, tables: seq<string>)
    requires |tables| <= 1
    ensures ZeroAfterFirst(refcount, tables) == refcount
  {
    assert Tail(tables) == [];
  }

  /** Zeroing reference counts keeps the set of aliases. */
  lemma ZeroAfterFirstKeys(refcount: map<string, nat>, tables: seq<string>)
    ensures ZeroAfterFirst(refcount, tables).Keys == refcount.Keys
  {
  }

  /** One more alias after the first gets reference count zero. */
  lemma ZeroAfterFirstSnoc(refcount: map<string, nat>, tables: seq<string>, x: string)
    requires tables != [] && x in refcount
    ensures ZeroAfterFirst(refcount, tables + [x]) == ZeroAfterFirst(refcount, tables)[x := 0]
  {
    assert Tail(tables + [x]) == Tail(tables) + [x];
  }

  lemma SubsetOfSingleton(s: set<string>, x: string)
    requires s <= {x}
    ensures |s| <= 1
  {
    if x in s {
      assert s == {x};
    } else {
      assert s == {};
    }
  }

  /**
   * After the rewrite at most one table stays active, so the UPDATE itself is a
   * single-table statement.
   */
  lemma RewriteLeavesOneTable(refcount: map<string, nat>, tables: seq<string>)
    requires forall a :: a in refcount ==> a in tables
    ensures |ActiveTables(ZeroAfterFirst(refcount, tables))| <= 1
    ensures tables != [] ==> ActiveTables(ZeroAfterFirst(refcount, tables)) <= {tables[0]}
  {
    var after := ActiveTables(ZeroAfterFirst(refcount, tables));
    if tables == [] {
      assert after == {};
    } else {
      forall a | a in refcount && a != tables[0] ensures ZeroAfterFirst(refcount, tables)[a] == 0 {
        var i :| 0 <= i < |tables| && tables[i] == a;
        assert Tail(tables)[i - 1] == a;
      }
      assert after <= {tables[0]};
      SubsetOfSingleton(after, tables[0]);
    }
  }

  // ---------------------------------------------------------------------------------
  // add_related_update / add_update_values: coalescing per ancestor model
  // ---------------------------------------------------------------------------------

  function GetOrEmpty(m: map<string, seq<Assignment>>, k: string): seq<Assignment>
  {
    if k in m then m[k] else []
  }

  /** `add_related_update`: append to the model's list, creating it on a KeyError. */
  function AddRelated(m: map<string, seq<Assignment>>, model: string, column: string, value: Value)
    : (r: map<string, seq<Assignment>>)
    ensures r.Keys == m.Keys + {model}
    ensures r[model] == GetOrEmpty(m, model) + [(column, value)]
    ensures forall k :: k in m && k != model ==> r[k] == m[k]
  {
    m[model := GetOrEmpty(m, model) + [(column, value)]]
  }

  /** One call `add_related_update(model, column, value)`. */
  datatype RelatedValue = RelatedValue(model: string, column: string, value: Value)

  /** The table after a sequence of `add_related_update` calls. */
  function CoalesceAll(m: map<string, seq<Assignment>>, calls: seq<RelatedValue>): map<string, seq<Assignment>>
    decreases calls
  {
    if calls == [] then m
    else CoalesceAll(AddRelated(m, calls[0].model, calls[0].column, calls[0].value), calls[1..])
  }

  /** The `(column, value)` pairs of the calls for one model, in call order. */
  function ForModel(calls: seq<RelatedValue>, model: string): seq<Assignment>
  {
    if calls == [] then []
    else (if calls[0].model == model then [(calls[0].column, calls[0].value)] else [])
         + ForModel(calls[1..], model)
  }

  predicate Mentions(calls: seq<RelatedValue>, model: string)
  {
    exists i :: 0 <= i < |calls| && calls[i].model == model
  }

  /**
   * Coalescing: after any sequence of calls, the list for each model is its earlier list
   * followed by every pair added for it, in order; the keys are the old ones plus the
   * models mentioned; a model no call mentions keeps its list.
   */
  lemma {:induction false} Coalesces(m: map<string, seq<Assignment>>, calls: seq<RelatedValue>, k: string)
    decreases calls
    ensures k in CoalesceAll(m, calls) <==> k in m || Mentions(calls, k)
    ensures k in CoalesceAll(m, calls) ==> CoalesceAll(m, calls)[k] == GetOrEmpty(m, k) + ForModel(calls, k)
  {
    if calls != [] {
      var c := calls[0];
      var m' := AddRelated(m, c.model, c.column, c.value);
      var head := if c.model == k then [(c.column, c.value)] else [];
      Coalesces(m', calls[1..], k);
      assert GetOrEmpty(m', k) == GetOrEmpty(m, k) + head;
      assert ForModel(calls, k) == head + ForModel(calls[1..], k);
      AppendAssoc(GetOrEmpty(m, k), head, ForModel(calls[1..], k));
      MentionsCons(calls, k);
    }
  }

  /** A model is mentioned by the calls exactly when the first call or a later one names it. */
  lemma MentionsCons(calls: seq<RelatedValue>, k: string)
    requires calls != []
    ensures Mentions(calls, k) <==> calls[0].model == k || Mentions(calls[1..], k)
  {
    if Mentions(calls, k) && calls[0].model != k {
      var i :| 0 <= i < |calls| && calls[i].model == k;
      assert calls[1..][i - 1].model == k;
    }
    if Mentions(calls[1..], k) {
      var i :| 0 <= i < |calls[1..]| && calls[1..][i].model == k;
      assert calls[i + 1].model == k;
    }
  }

  /** What a model field with a model-object value is set to: `val.pk` for a relation. */
  function FieldValue(f: FieldInfo, v: Value): Value
  {
    if f.isRelation && v.Instance? then v.pk else v
  }

  /** `values` and `related_updates` of an UpdateQuery. */
  datatype UpdateState = UpdateState(values: seq<Assignment>, related: map<string, seq<Assignment>>)

  /** One iteration of `add_update_values`, or the exception it raises. */
  function UpdateStep(st: UpdateState, name: string, val: Value, fieldByName: string -> Option<FieldInfo>)
    : (r: Result<UpdateState, QueryError>)
    ensures fieldByName(name).None? ==> r == Err(FieldDoesNotExist(name))
    ensures fieldByName(name).Some? ==>
              var f := fieldByName(name).value;
              && ((!f.direct || f.m2m) ==> r == Err(FieldError(f.name)))
              && (f.direct && !f.m2m && f.ancestor.Some? ==>
                    r == Ok(UpdateState(st.values, AddRelated(st.related, f.ancestor.value, f.column, FieldValue(f, val)))))
              && (f.direct && !f.m2m && f.ancestor.None? ==>
                    r == Ok(UpdateState(st.values + [(f.column, FieldValue(f, val))], st.related)))
  {
    match fieldByName(name)
    case None => Err(FieldDoesNotExist(name))
    case Some(f) =>
      if !f.direct || f.m2m then Err(FieldError(f.name))
      else
        var v := FieldValue(f, val);
        match f.ancestor
        case Some(model) => Ok(st.(related := AddRelated(st.related, model, f.column, v)))
        case None => Ok(st.(values := st.values + [(f.column, v)]))
  }

  /**
   * `add_update_values` over the items of its dictionary, in iteration order: the state
   * after the items processed, and the exception that stopped the loop, if any.
   */
  function UpdateValues(st: UpdateState, items: seq<(string, Value)>, fieldByName: string -> Option<FieldInfo>)
    : (UpdateState, Option<QueryError>)
    decreases items
  {
    if items == [] then (st, None)
    else match UpdateStep(st, items[0].0, items[0].1, fieldByName)
      case Err(e) => (st, Some(e))
      case Ok(st') => UpdateValues(st', items[1..], fieldByName)
  }

  /** A field `add_update_values` accepts: it exists, is direct and is not many-to-many. */
  predicate Updatable(fieldByName: string -> Option<FieldInfo>, name: string)
  {
    fieldByName(name).Some? && fieldByName(name).value.direct && !fieldByName(name).value.m2m
  }

  /** The items for local fields, as `(column, value)` with model objects replaced by their key. */
  function LocalAssignments(items: seq<(string, Value)>, fieldByName: string -> Option<FieldInfo>): seq<Assignment>
    requires forall i :: 0 <= i < |items| ==> Updatable(fieldByName, items[i].0)
  {
    if items == [] then []
    else
      assert Updatable(fieldByName, items[0].0);
      var f := fieldByName(items[0].0).value;
      (if f.ancestor.None? then [(f.column, FieldValue(f, items[0].1))] else [])
      + LocalAssignments(items[1..], fieldByName)
  }

  /** The items for ancestor fields, as the `add_related_update` calls they make. */
  function AncestorCalls(items: seq<(string, Value)>, fieldByName: string -> Option<FieldInfo>): seq<RelatedValue>
    requires forall i :: 0 <= i < |items| ==> Updatable(fieldByName, items[i].0)
  {
    if items == [] then []
    else
      assert Updatable(fieldByName, items[0].0);
      var f := fieldByName(items[0].0).value;
      (if f.ancestor.Some? then [RelatedValue(f.ancestor.value, f.column, FieldValue(f, items[0].1))] else [])
      + AncestorCalls(items[1..], fieldByName)
  }

  /**
   * `add_update_values` raises exactly when some field is missing, not direct, or
   * many-to-many.
   */
  lemma {:induction false} UpdateValuesRaises(st: UpdateState, items: seq<(string, Value)>,
                                              fieldByName: string -> Option<FieldInfo>)
    decreases items
    ensures UpdateValues(st, items, fieldByName).1.None?
            <==> forall i :: 0 <= i < |items| ==> Updatable(fieldByName, items[i].0)
  {
    if items != [] {
      match UpdateStep(st, items[0].0, items[0].1, fieldByName)
      case Err(e) =>
      case Ok(st1) =>
        UpdateValuesRaises(st1, items[1..], fieldByName);
        if UpdateValues(st1, items[1..], fieldByName).1.None? {
          forall i | 0 <= i < |items| ensures Updatable(fieldByName, items[i].0) {
            if i > 0 { assert items[i] == items[1..][i - 1]; }
          }
        } else {
          var k :| 0 <= k < |items[1..]| && !Updatable(fieldByName, items[1..][k].0);
          assert items[k + 1] == items[1..][k];
        }
    }
  }

  /**
   * The exception is the one of the first field that `add_update_values` does not accept,
   * and the state then holds the effect of the items before it.
   */
  lemma {:induction false} UpdateValuesFirstError(st: UpdateState, items: seq<(string, Value)>,
                                                  fieldByName: string -> Option<FieldInfo>, k: nat)
    decreases items
    requires k < |items| && !Updatable(fieldByName, items[k].0)
    requires forall i :: 0 <= i < k ==> Updatable(fieldByName, items[i].0)
    ensures UpdateValues(st, items, fieldByName).1
         == Some(if fieldByName(items[k].0).None? then FieldDoesNotExist(items[k].0)
                 else FieldError(fieldByName(items[k].0).value.name))
    ensures UpdateValues(st, items, fieldByName).0 == UpdateValues(st, items[..k], fieldByName).0
  {
    if k > 0 {
      assert Updatable(fieldByName, items[0].0);
      var st1 := UpdateStep(st, items[0].0, items[0].1, fieldByName).value;
      forall i | 0 <= i < k - 1 ensures Updatable(fieldByName, items[1..][i].0) {
        assert items[1..][i] == items[i + 1];
      }
      UpdateValuesFirstError(st1, items[1..], fieldByName, k - 1);
      assert items[..k][0] == items[0];
      assert items[..k][1..] == items[1..][..k - 1];
    }
  }

  /**
   * Without an error, local fields are appended to `values` in order and ancestor fields
   * are coalesced into `related_updates`.
   */
  lemma {:induction false} UpdateValuesSplits(st: UpdateState, items: seq<(string, Value)>,
                                              fieldByName: string -> Option<FieldInfo>)
    decreases items
    requires forall i :: 0 <= i < |items| ==> Updatable(fieldByName, items[i].0)
    ensures UpdateValues(st, items, fieldByName).0.values == st.values + LocalAssignments(items, fieldByName)
    ensures UpdateValues(st, items, fieldByName).0.related == CoalesceAll(st.related, AncestorCalls(items, fieldByName))
  {
    if items != [] {
      assert Updatable(fieldByName, items[0].0);
      var f := fieldByName(items[0].0).value;
      var st1 := UpdateStep(st, items[0].0, items[0].1, fieldByName).value;
      forall i | 0 <= i < |items| - 1 ensures Updatable(fieldByName, items[1..][i].0) {
        assert items[1..][i] == items[i + 1];
      }
      assert UpdateValues(st, items, fieldByName) == UpdateValues(st1, items[1..], fieldByName);
      UpdateValuesSplits(st1, items[1..], fieldByName);
      var v := FieldValue(f, items[0].1);
      var calls := AncestorCalls(items, fieldByName);
      var locals := LocalAssignments(items, fieldByName);
      if f.ancestor.Some? {
        assert st1 == st.(related := AddRelated(st.related, f.ancestor.value, f.column, v));
        assert locals == LocalAssignments(items[1..], fieldByName);
        assert calls == [RelatedValue(f.ancestor.value, f.column, v)] + AncestorCalls(items[1..], fieldByName);
        assert calls[1..] == AncestorCalls(items[1..], fieldByName);
      } else {
        assert st1 == st.(values := st.values + [(f.column, v)]);
        assert locals == [(f.column, v)] + LocalAssignments(items[1..], fieldByName);
        assert calls == AncestorCalls(items[1..], fieldByName);
      }
    }
  }

  // ---------------------------------------------------------------------------------
  // get_related_updates
  // ---------------------------------------------------------------------------------

  /** A query `get_related_updates` returns: an UPDATE of one ancestor model. */
  datatype RelatedUpdate = RelatedUpdate(model: string, values: seq<Assignment>, where: Where)

  /**
   * The filter of an ancestor query: the key list the main UPDATE was restricted to,
   * whenever `pre_sql_setup` captured one (`related_ids is not None`).
   */
  function RelatedFilter(relatedIds: Option<seq<Value>>): (w: Where)
    ensures relatedIds.None? ==> forall pk, other :: Selects(w, pk, other)
    ensures relatedIds.Some? ==> forall pk, other :: Selects(w, pk, other) <==> pk in relatedIds.value
  {
    match relatedIds
    case Some(ids) => SelectsKeys(ids); Where([PkIn(ids)])
    case None => Where([])
  }

  /** The filter as the source writes it: `if self.related_ids:` skips an empty key list. */
  function RelatedFilterAsWritten(relatedIds: Option<seq<Value>>): (w: Where)
    ensures relatedIds.None? || relatedIds.value == [] ==> forall pk, other :: Selects(w, pk, other)
    ensures relatedIds.Some? && relatedIds.value != [] ==>
              forall pk, other :: Selects(w, pk, other) <==> pk in relatedIds.value
  {
    if relatedIds.Some? && relatedIds.value != [] then SelectsKeys(relatedIds.value); Where([PkIn(relatedIds.value)])
    else Where([])
  }

  /** The filter `pk__in = ids` alone selects exactly the rows whose key is listed. */
  lemma SelectsKeys(ids: seq<Value>)
    ensures forall pk, other :: Selects(Where([PkIn(ids)]), pk, other) <==> pk in ids
  {
    forall pk, other ensures Selects(Where([PkIn(ids)]), pk, other) <==> pk in ids {
      assert Where([PkIn(ids)]).conds[0] == PkIn(ids);
    }
  }

  /**
   * As written: when there are related updates and the sub-select found no rows,
   * `pre_sql_setup` restricts the main UPDATE to `pk IN ()`, which touches no row, while the
   * ancestor query gets no filter at all and touches every row of the ancestor table.
   */
  lemma EmptyIdsUpdateEveryAncestorRow(tables: seq<string>, where: Where, related: map<string, seq<Assignment>>,
                                      pk: Value, other: Cond -> bool)
    requires related != map[]
    ensures !Selects(RewrittenWhere(tables, where, related, []), pk, other)
    ensures Selects(RelatedFilterAsWritten(Some([])), pk, other)
  {
    SelectsKeys([]);
  }

  /**
   * Corrected: an ancestor query touches exactly the rows, by key, that the main UPDATE
   * touches after `pre_sql_setup` captured the fetched keys, including when there are none.
   */
  lemma AncestorRowsMatchMainUpdate(tables: seq<string>, where: Where, related: map<string, seq<Assignment>>,
                                    fetchedIds: seq<Value>, pk: Value, other: Cond -> bool)
    requires related != map[]
    ensures Selects(RelatedFilter(Some(fetchedIds)), pk, other)
            <==> Selects(RewrittenWhere(tables, where, related, fetchedIds), pk, other)
  {
    SelectsKeys(fetchedIds);
  }

  /**
   * The loop of `get_related_updates`: one query per ancestor model, in the dictionary's
   * (unspecified) order, each setting that model's coalesced values, with the given filter.
   */
  method AncestorQueries(related: map<string, seq<Assignment>>, filter: Where) returns (qs: seq<RelatedUpdate>)
    ensures related == map[] ==> qs == []
    ensures |qs| == |related|
    ensures forall i :: 0 <= i < |qs| ==>
      && qs[i].model in related
      && qs[i].values == related[qs[i].model]
      && qs[i].where == filter
    ensures forall m :: m in related ==> exists i :: 0 <= i < |qs| && qs[i].model == m
    ensures forall i, j :: 0 <= i < j < |qs| ==> qs[i].model != qs[j].model
  {
    if related == map[] {
      return [];
    }
    qs := [];
    var remaining := related.Keys;
    ghost var pos: map<string, nat> := map[];
    while remaining != {}
      invariant remaining <= related.Keys
      invariant |qs| + |remaining| == |related.Keys|
      invariant forall i :: 0 <= i < |qs| ==>
        && qs[i].model in related && qs[i].model !in remaining
        && qs[i].values == related[qs[i].model]
        && qs[i].where == filter
      invariant forall m :: m in related && m !in remaining ==> m in pos && pos[m] < |qs| && qs[pos[m]].model == m
      invariant forall i, j :: 0 <= i < j < |qs| ==> qs[i].model != qs[j].model
      decreases remaining
    {
      var m :| m in remaining;
      assert forall i :: 0 <= i < |qs| ==> qs[i].model != m;
      pos := pos[m := |qs|];
      qs := qs + [RelatedUpdate(m, related[m], filter)];
      remaining := remaining - {m};
    }
    forall m | m in related ensures exists i :: 0 <= i < |qs| && qs[i].model == m {
      assert qs[pos[m]].model == m;
    }
  }

  /** A statement `clear_related` ran: the tables, WHERE node and SET list at `execute_sql`. */
  datatype Run = Run(tables: seq<string>, where: Where, values: seq<Assignment>)

  /** The statements of `clear_related`: per key slice, set the related column to NULL. */
  function ClearRuns(tables: seq<string>, pkColumn: string, column: string, chunks: seq<seq<Value>>): (r: seq<Run>)
    ensures |r| == |chunks|
  {
    if chunks == [] then []
    else [Run(tables, Where([ColumnIn(pkColumn, chunks[0])]), [(column, Null)])]
         + ClearRuns(tables, pkColumn, column, chunks[1..])
  }

  /**
   * The loop of `clear_related` on the statement's state: per slice, the WHERE node and the
   * values become that slice's, and the statement runs. Returns the runs and the final state.
   */
  method ClearChunks(tables: seq<string>, pkColumn: string, column: string, pkList: seq<Value>,
                     chunkSize: ChunkSize, where0: Where, values0: seq<Assignment>)
    returns (runs: seq<Run>, where: Where, values: seq<Assignment>)
    ensures runs == ClearRuns(tables, pkColumn, column, Chunks(pkList, chunkSize, 0))
    ensures runs == [] ==> where == where0 && values == values0
    ensures runs != [] ==> Run(tables, where, values) == runs[|runs| - 1]
  {
    ghost var all := ClearRuns(tables, pkColumn, column, Chunks(pkList, chunkSize, 0));
    ghost var todo := all;
    runs, where, values := [], where0, values0;
    var offset := 0;
    while offset < |pkList|
      invariant todo == ClearRuns(tables, pkColumn, column, Chunks(pkList, chunkSize, offset))
      invariant runs + todo == all
      invariant runs == [] ==> where == where0 && values == values0
      invariant runs != [] ==> Run(tables, where, values) == runs[|runs| - 1]
      decreases |pkList| - offset
    {
      ClearRunsUnfold(tables, pkColumn, column, pkList, chunkSize, offset);
      ghost var rest := ClearRuns(tables, pkColumn, column, Chunks(pkList, chunkSize, offset + chunkSize));
      where := Where([ColumnIn(pkColumn, Slice(pkList, offset, chunkSize))]);
      values := [(column, Null)];
      AppendAssoc(runs, [Run(tables, where, values)], rest);
      runs := runs + [Run(tables, where, values)];
      todo := rest;
      offset := offset + chunkSize;
    }
    assert Chunks(pkList, chunkSize, offset) == [];
    assert runs + [] == runs;
  }

  lemma ClearRunsUnfold(tables: seq<string>, pkColumn: string, column: string,
                        pkList: seq<Value>, n: ChunkSize, offset: nat)
    requires offset < |pkList|
    ensures ClearRuns(tables, pkColumn, column, Chunks(pkList, n, offset))
         == [Run(tables, Where([ColumnIn(pkColumn, Slice(pkList, offset, n))]), [(column, Null)])]
            + ClearRuns(tables, pkColumn, column, Chunks(pkList, n, offset + n))
  {
    var cs := Chunks(pkList, n, offset);
    assert cs[0] == Slice(pkList, offset, n);
    assert cs[1..] == Chunks(pkList, n, offset + n);
  }

  lemma {:induction false} ClearRunAt(tables: seq<string>, pkColumn: string, column: string, chunks: seq<seq<Value>>, i: nat)
    requires i < |chunks|
    ensures ClearRuns(tables, pkColumn, column, chunks)[i] == Run(tables, Where([ColumnIn(pkColumn, chunks[i])]), [(column, Null)])
  {
    if i > 0 { ClearRunAt(tables, pkColumn, column, chunks[1..], i - 1); }
  }

  /**
   * Every statement of `clear_related` renders as `UPDATE t SET col = NULL ...` and passes
   * only the WHERE parameters: the NULL takes no parameter.
   */
  lemma ClearRunsSetNull(tables: seq<string>, pkColumn: string, column: string, pkList: seq<Value>,
                         n: ChunkSize, i: nat, w: Sql, qn: string -> string)
    requires i < |Chunks(pkList, n, 0)| && tables != []
    ensures var run := ClearRuns(tables, pkColumn, column, Chunks(pkList, n, 0))[i];
      forall r :: IsUpdateSql(r, run.tables, run.values, w, qn) ==>
        r.Ok? && r.value.params == w.params
        && r.value.text == "UPDATE " + qn(tables[0]) + " SET " + qn(column) + " = NULL"
                           + (if w.text != "" then " WHERE " + w.text else "")
  {
    ClearRunAt(tables, pkColumn, column, Chunks(pkList, n, 0), i);
    var vs: seq<Assignment> := [(column, Null)];
    assert vs[..0] == [];
    assert Assignments(vs, qn) == [qn(column) + " = NULL"];
    assert BoundParams(vs) == [];
  }

  class UpdateQuery {
    const model: ModelMeta
    var tables: seq<string>
    var refcount: map<string, nat>
    var where: Where
    var values: seq<Assignment>
    var relatedIds: Option<seq<Value>>
    var relatedUpdates: map<string, seq<Assignment>>
    var executed: seq<Run>

    /** The alias map holds exactly the query's aliases. */
    ghost predicate Valid()
      reads this
    {
      && (forall i :: 0 <= i < |tables| ==> tables[i] in refcount)
      && (forall a :: a in refcount ==> a in tables)
    }

    /**
     * `__init__`: the query core's state (its tables, reference counts and WHERE node) is
     * taken as given; `_setup_query` then starts with no values, no captured keys and an
     * empty `related_updates`.
     */
    constructor (model: ModelMeta, tables: seq<string>, refcount: map<string, nat>, where: Where)
      requires forall i :: 0 <= i < |tables| ==> tables[i] in refcount
      requires forall a :: a in refcount ==> a in tables
      ensures Valid()
      ensures this.model == model && this.tables == tables && this.refcount == refcount && this.where == where
      ensures values == [] && relatedIds == None && relatedUpdates == map[] && executed == []
    {
      this.model := model;
      this.tables := tables;
      this.refcount := refcount;
      this.where := where;
      values := [];
      relatedIds := None;
      relatedUpdates := map[];
      executed := [];
    }

    /** `_setup_query` after a clone: `related_updates` already exists and is kept. */
    method SetupQuery()
      modifies this
      ensures values == [] && relatedIds == None
      ensures relatedUpdates == old(relatedUpdates)
      ensures tables == old(tables) && refcount == old(refcount) && where == old(where) && executed == old(executed)
    {
      values := [];
      relatedIds := None;
    }

    /** `add_related_update`. */
    method AddRelatedUpdate(model: string, column: string, value: Value)
      modifies this
      ensures relatedUpdates == AddRelated(old(relatedUpdates), model, column, value)
      ensures tables == old(tables) && refcount == old(refcount) && where == old(where)
      ensures values == old(values) && relatedIds == old(relatedIds) && executed == old(executed)
    {
      var pair: Assignment := (column, value);
      if model in relatedUpdates {
        relatedUpdates := relatedUpdates[model := relatedUpdates[model] + [pair]];
      } else {
        assert GetOrEmpty(relatedUpdates, model) + [pair] == [pair];
        relatedUpdates := relatedUpdates[model := [pair]];
      }
    }

    /** `add_update_values`, given the dictionary's items in iteration order. */
    method AddUpdateValues(items: seq<(string, Value)>) returns (err: Option<QueryError>)
      modifies this
      ensures (UpdateState(values, relatedUpdates), err)
           == UpdateValues(UpdateState(old(values), old(relatedUpdates)), items, model.fieldByName)
      ensures tables == old(tables) && refcount == old(refcount) && where == old(where)
      ensures relatedIds == old(relatedIds) && executed == old(executed)
    {
      var k := 0;
      while k < |items|
        invariant 0 <= k <= |items|
        invariant UpdateValues(UpdateState(values, relatedUpdates), items[k..], model.fieldByName)
               == UpdateValues(UpdateState(old(values), old(relatedUpdates)), items, model.fieldByName)
        invariant tables == old(tables) && refcount == old(refcount) && where == old(where)
        invariant relatedIds == old(relatedIds) && executed == old(executed)
      {
        var (name, val) := items[k];
        assert items[k..][0] == items[k] && items[k..][1..] == items[k + 1..];
        var field := model.fieldByName(name);
        if field.None? {
          return Some(FieldDoesNotExist(name));
        }
        var f := field.value;
        if !f.direct || f.m2m {
          return Some(FieldError(f.name));
        }
        if f.isRelation && val.Instance? {
          val := val.pk;
        }
        if f.ancestor.Some? {
          AddRelatedUpdate(f.ancestor.value, f.column, val);
        } else {
          values := values + [(f.column, val)];
        }
        k := k + 1;
      }
      err := None;
    }

    /**
     * `get_related_updates` as written: an ancestor query is filtered by the captured keys
     * only when that key list is non-empty.
     */
    method GetRelatedUpdatesAsWritten() returns (qs: seq<RelatedUpdate>)
      ensures relatedUpdates == map[] ==> qs == []
      ensures |qs| == |relatedUpdates|
      ensures forall i :: 0 <= i < |qs| ==>
        && qs[i].model in relatedUpdates
        && qs[i].values == relatedUpdates[qs[i].model]
        && qs[i].where == RelatedFilterAsWritten(relatedIds)
      ensures forall m :: m in relatedUpdates ==> exists i :: 0 <= i < |qs| && qs[i].model == m
      ensures forall i, j :: 0 <= i < j < |qs| ==> qs[i].model != qs[j].model
    {
      qs := AncestorQueries(relatedUpdates, RelatedFilterAsWritten(relatedIds));
    }

    /**
     * `get_related_updates` corrected: an ancestor query is filtered by the captured keys
     * whenever keys were captured, so it updates the same rows as the main UPDATE.
     */
    method GetRelatedUpdates() returns (qs: seq<RelatedUpdate>)
      ensures relatedUpdates == map[] ==> qs == []
      ensures |qs| == |relatedUpdates|
      ensures forall i :: 0 <= i < |qs| ==>
        && qs[i].model in relatedUpdates
        && qs[i].values == relatedUpdates[qs[i].model]
        && qs[i].where == RelatedFilter(relatedIds)
      ensures forall m :: m in relatedUpdates ==> exists i :: 0 <= i < |qs| && qs[i].model == m
      ensures forall i, j :: 0 <= i < j < |qs| ==> qs[i].model != qs[j].model
    {
      qs := AncestorQueries(relatedUpdates, RelatedFilter(relatedIds));
    }

    /**
     * `pre_sql_setup`: with no related updates and one active table, nothing changes.
     * Otherwise the WHERE node becomes a primary-key filter (on the fetched keys, which are
     * also captured as `related_ids`, when there are related updates; on a sub-select over
     * the old tables and WHERE node otherwise), and every table after the first gets
     * reference count 0, leaving at most one active table.
     */
    method PreSqlSetup(fetchedIds: seq<Value>)
      requires Valid()
      modifies this
      ensures Valid()
      ensures !NeedsRewrite(old(relatedUpdates), old(refcount)) ==>
        where == old(where) && refcount == old(refcount) && relatedIds == old(relatedIds)
      ensures NeedsRewrite(old(relatedUpdates), old(refcount)) ==>
        && where == RewrittenWhere(old(tables), old(where), old(relatedUpdates), fetchedIds)
        && relatedIds == (if old(relatedUpdates) != map[] then Some(fetchedIds) else old(relatedIds))
        && refcount == ZeroAfterFirst(old(refcount), old(tables))
        && |ActiveTables(refcount)| <= 1
      ensures tables == old(tables) && values == old(values)
      ensures relatedUpdates == old(relatedUpdates) && executed == old(executed)
    {
      var count := |ActiveTables(refcount)|;
      if relatedUpdates == map[] && count == 1 {
        return;
      }
      var inner := where;
      where := Where([]);
      if relatedUpdates != map[] {
        where := Where([PkIn(fetchedIds)]);
        relatedIds := Some(fetchedIds);
      } else {
        where := Where([PkInSubquery(tables, inner)]);
      }
      ZeroLaterAliases();
      RewriteLeavesOneTable(old(refcount), tables);
    }

    /** The loop over `self.tables[1:]`: every alias but the first gets reference count zero. */
    method ZeroLaterAliases()
      requires Valid()
      modifies this
      ensures Valid()
      ensures refcount == ZeroAfterFirst(old(refcount), tables)
      ensures tables == old(tables) && values == old(values) && where == old(where)
      ensures relatedIds == old(relatedIds) && relatedUpdates == old(relatedUpdates) && executed == old(executed)
    {
      ZeroAfterFirstShort(refcount, tables[..Min(1, |tables|)]);
      var counts := refcount;
      var i := Min(1, |tables|);
      while i < |tables|
        invariant 0 <= i <= |tables|
        invariant |tables| > 0 ==> i >= 1
        invariant unchanged(this)
        invariant counts == ZeroAfterFirst(refcount, tables[..i])
      {
        assert tables[..i + 1] == tables[..i] + [tables[i]];
        assert tables[..i] != [] && tables[i] in refcount;
        ZeroAfterFirstSnoc(refcount, tables[..i], tables[i]);
        counts := counts[tables[i] := 0];
        i := i + 1;
      }
      assert tables[..i] == tables;
      ZeroAfterFirstKeys(refcount, tables);
      refcount := counts;
    }

    /**
     * `as_sql`: `pre_sql_setup` on the current state, then the UPDATE of the state it leaves.
     */
    method AsSql(render: Where -> Sql, qn: string -> string, fetchedIds: seq<Value>)
      returns (r: Result<Sql, QueryError>)
      requires Valid()
      modifies this
      ensures Valid()
      ensures !NeedsRewrite(old(relatedUpdates), old(refcount)) ==>
        where == old(where) && refcount == old(refcount) && relatedIds == old(relatedIds)
      ensures NeedsRewrite(old(relatedUpdates), old(refcount)) ==>
        && where == RewrittenWhere(old(tables), old(where), old(relatedUpdates), fetchedIds)
        && relatedIds == (if old(relatedUpdates) != map[] then Some(fetchedIds) else old(relatedIds))
        && refcount == ZeroAfterFirst(old(refcount), old(tables))
        && |ActiveTables(refcount)| <= 1
      ensures tables == old(tables) && values == old(values)
      ensures relatedUpdates == old(relatedUpdates) && executed == old(executed)
      ensures IsUpdateSql(r, tables, values, render(where), qn)
    {
      PreSqlSetup(fetchedIds);
      r := RenderUpdate(tables, values, render(where), qn);
    }

    /**
     * `clear_related`: per slice of `pkList`, restrict to the slice's keys, set the related
     * column to NULL, and run the statement.
     */
    method ClearRelated(column: string, pkList: seq<Value>, chunkSize: ChunkSize)
      modifies this
      ensures executed == old(executed) + ClearRuns(tables, model.pkColumn, column, Chunks(pkList, chunkSize, 0))
      ensures |executed| == |old(executed)| ==> where == old(where) && values == old(values)
      ensures |executed| > |old(executed)| ==> Run(tables, where, values) == executed[|executed| - 1]
      ensures tables == old(tables) && refcount == old(refcount)
      ensures relatedIds == old(relatedIds) && relatedUpdates == old(relatedUpdates)
    {
      var runs, w, vals := ClearChunks(tables, model.pkColumn, column, pkList, chunkSize, where, values);
      executed, where, values := executed + runs, w, vals;
    }
  }
}
