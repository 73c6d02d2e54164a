/**
 * `DeleteQuery` of django/db/models/sql/subqueries.py: the single-table DELETE statement and
 * the batched deletes of a key list, for the objects themselves and for their many-to-many
 * rows. Running a statement (`execute_sql`) is recorded as an entry of `executed`.
 */
module DeleteQueries {
  import opened Wrappers
  import opened SqlBase
  import opened SeqLemmas

  /** What `execute_sql` was given to run: the query's tables and WHERE node at that moment. */
  datatype Executed = Executed(tables: seq<string>, where: Where)

  /** One DELETE on `table` per key slice, restricted by `column IN slice` and the `extra` conditions. */
  function ChunkStatements(table: string, column: string, extra: seq<Cond>, chunks: seq<seq<Value>>): (r: seq<Executed>)
    ensures |r| == |chunks|
  {
    if chunks == [] then []
    else [Executed([table], Where([ColumnIn(column, chunks[0])] + extra))]
         + ChunkStatements(table, column, extra, chunks[1..])
  }

  /** The i-th statement restricts the i-th slice. */
  lemma {:induction false} ChunkStatementAt(table: string, column: string, extra: seq<Cond>, chunks: seq<seq<Value>>, i: nat)
    requires i < |chunks|
    ensures ChunkStatements(table, column, extra, chunks)[i] == Executed([table], Where([ColumnIn(column, chunks[i])] + extra))
  {
    if i > 0 {
      ChunkStatementAt(table, column, extra, chunks[1..], i - 1);
    }
  }

  /** Unrolling the loop once: the slice at `offset` comes first, then the slices after it. */
  lemma ChunkStatementsUnfold(table: string, column: string, extra: seq<Cond>, pkList: seq<Value>, n: ChunkSize, offset: nat)
    requires offset < |pkList|
    ensures ChunkStatements(table, column, extra, Chunks(pkList, n, offset))
         == [Executed([table], Where([ColumnIn(column, Slice(pkList, offset, n))] + extra))]
            + ChunkStatements(table, column, extra, Chunks(pkList, n, offset + n))
  {
    var cs := Chunks(pkList, n, offset);
    assert cs[0] == Slice(pkList, offset, n);
    assert cs[1..] == Chunks(pkList, n, offset + n);
  }

  /** The key list restricting a statement this module issues (its first condition). */
  function KeysOf(e: Executed): seq<Value>
  {
    if |e.where.conds| > 0 && e.where.conds[0].ColumnIn? then e.where.conds[0].keys else []
  }

  function AllKeys(es: seq<Executed>): seq<Value>
  {
    if es == [] then [] else KeysOf(es[0]) + AllKeys(es[1..])
  }

  /**
   * The batches of one loop cover the key list exactly: every statement targets one table,
   * restricts at most `n` keys, and their keys concatenated are `pkList` in order; there are
   * ceil(|pkList| / n) of them.
   */
  lemma {:induction false} BatchesCoverKeys(table: string, column: string, extra: seq<Cond>,
                                            pkList: seq<Value>, n: ChunkSize)
    ensures var es := ChunkStatements(table, column, extra, Chunks(pkList, n, 0));
      && AllKeys(es) == pkList
      && |es| == (|pkList| + n - 1) / n
      && forall i :: 0 <= i < |es| ==> |es[i].tables| == 1 && 0 < |KeysOf(es[i])| <= n
  {
    ChunksCover(pkList, n, 0);
    ChunksCeil(pkList, n);
    ChunksBounded(pkList, n, 0);
    AllKeysOfChunks(table, column, extra, Chunks(pkList, n, 0));
    var es := ChunkStatements(table, column, extra, Chunks(pkList, n, 0));
    forall i | 0 <= i < |es|
      ensures |es[i].tables| == 1 && 0 < |KeysOf(es[i])| <= n
    {
      ChunkStatementAt(table, column, extra, Chunks(pkList, n, 0), i);
    }
  }

  lemma {:induction false} AllKeysOfChunks(table: string, column: string, extra: seq<Cond>, chunks: seq<seq<Value>>)
    ensures AllKeys(ChunkStatements(table, column, extra, chunks)) == Flatten(chunks)
  {
    if chunks != [] {
      var es := ChunkStatements(table, column, extra, chunks);
      assert es[1..] == ChunkStatements(table, column, extra, chunks[1..]);
      AllKeysOfChunks(table, column, extra, chunks[1..]);
    }
  }

  /** The statements of `delete_batch_related`'s first loop: generic relations are skipped. */
  function RelatedStatements(rels: seq<RelatedManyToMany>, pkList: seq<Value>, n: ChunkSize): seq<Executed>
  {
    if rels == [] then []
    else
      var r := rels[|rels| - 1];
      RelatedStatements(rels[..|rels| - 1], pkList, n) + RelatedRowStatements(r, pkList, n)
  }

  /** The statements for one related many-to-many object: none for a generic relation. */
  function RelatedRowStatements(r: RelatedManyToMany, pkList: seq<Value>, n: ChunkSize): seq<Executed>
  {
    if r.isGeneric then [] else ChunkStatements(r.table, r.reverseName, [], Chunks(pkList, n, 0))
  }

  lemma RelatedStatementsSnoc(rels: seq<RelatedManyToMany>, j: nat, pkList: seq<Value>, n: ChunkSize)
    requires j < |rels|
    ensures rels[j].isGeneric ==>
      RelatedStatements(rels[..j + 1], pkList, n) == RelatedStatements(rels[..j], pkList, n)
    ensures !rels[j].isGeneric ==>
      RelatedStatements(rels[..j + 1], pkList, n)
      == RelatedStatements(rels[..j], pkList, n) + ChunkStatements(rels[j].table, rels[j].reverseName, [], Chunks(pkList, n, 0))
  {
    assert rels[..j + 1][..j] == rels[..j];
  }

  /** `w1` of the second loop: the content type restriction of a generic relation, else empty. */
  function ContentTypeWhere(f: ManyToManyField): Where
  {
    match f.generic
    case Some(ct) => Where([ColumnExact(ct.column, ct.contentTypeId)])
    case None => Where([])
  }

  /** `if w1: where.add(w1, AND)`: a where node is true when it has children. */
  function ExtraConds(w1: Where): seq<Cond>
  {
    if |w1.conds| > 0 then [Nested(w1)] else []
  }

  /** The statements of `delete_batch_related`'s second loop, over `_meta.many_to_many`. */
  function ManyToManyStatements(fs: seq<ManyToManyField>, pkList: seq<Value>, n: ChunkSize): seq<Executed>
  {
    if fs == [] then []
    else
      var f := fs[|fs| - 1];
      ManyToManyStatements(fs[..|fs| - 1], pkList, n)
      + ChunkStatements(f.table, f.column, ExtraConds(ContentTypeWhere(f)), Chunks(pkList, n, 0))
  }

  lemma ManyToManyStatementsSnoc(fs: seq<ManyToManyField>, j: nat, pkList: seq<Value>, n: ChunkSize)
    requires j < |fs|
    ensures ManyToManyStatements(fs[..j + 1], pkList, n)
         == ManyToManyStatements(fs[..j], pkList, n)
            + ChunkStatements(fs[j].table, fs[j].column, ExtraConds(ContentTypeWhere(fs[j])), Chunks(pkList, n, 0))
  {
    assert fs[..j + 1][..j] == fs[..j];
  }

  /** With no keys, the first loop of `delete_batch_related` issues no statement. */
  lemma {:induction false} NoKeysNoRelated(rels: seq<RelatedManyToMany>, n: ChunkSize)
    ensures RelatedStatements(rels, [], n) == []
  {
    if rels != [] { NoKeysNoRelated(rels[..|rels| - 1], n); }
  }

  /** With no keys, the second loop of `delete_batch_related` issues no statement. */
  lemma {:induction false} NoKeysNoManyToMany(fs: seq<ManyToManyField>, n: ChunkSize)
    ensures ManyToManyStatements(fs, [], n) == []
  {
    if fs != [] { NoKeysNoManyToMany(fs[..|fs| - 1], n); }
  }

  /** On a generic relation every batch carries the content type restriction as a nested node. */
  lemma GenericBatchesCarryContentType(f: ManyToManyField, pkList: seq<Value>, n: ChunkSize)
    requires f.generic.Some?
    ensures var es := ChunkStatements(f.table, f.column, ExtraConds(ContentTypeWhere(f)), Chunks(pkList, n, 0));
      forall i :: 0 <= i < |es| ==>
        es[i].where.conds == [ColumnIn(f.column, Chunks(pkList, n, 0)[i]),
                              Nested(Where([ColumnExact(f.generic.value.column, f.generic.value.contentTypeId)]))]
  {
    var es := ChunkStatements(f.table, f.column, ExtraConds(ContentTypeWhere(f)), Chunks(pkList, n, 0));
    forall i | 0 <= i < |es|
      ensures es[i].where.conds == [ColumnIn(f.column, Chunks(pkList, n, 0)[i]),
                                    Nested(Where([ColumnExact(f.generic.value.column, f.generic.value.contentTypeId)]))]
    {
      ChunkStatementAt(f.table, f.column, ExtraConds(ContentTypeWhere(f)), Chunks(pkList, n, 0), i);
    }
  }

  /**
   * The tables and WHERE node a query holds after running the statements `log`, starting
   * from `start`: those of the last statement run, or `start` when nothing ran.
   */
  function LastState(start: Executed, log: seq<Executed>): Executed
  {
    if log == [] then start else log[|log| - 1]
  }

  lemma LastStateAppend(start: Executed, a: seq<Executed>, b: seq<Executed>)
    ensures LastState(start, a + b) == LastState(LastState(start, a), b)
  {
  }

  class DeleteQuery {
    const model: ModelMeta
    const chunkSize: ChunkSize
    var tables: seq<string>
    var where: Where
    var executed: seq<Executed>

    constructor (model: ModelMeta, chunkSize: ChunkSize)
      ensures this.model == model && this.chunkSize == chunkSize
      ensures tables == [] && where == Where([]) && executed == []
    {
      this.model := model;
      this.chunkSize := chunkSize;
      tables := [];
      where := Where([]);
      executed := [];
    }

    /**
     * `as_sql`: a DELETE is built only for exactly one table; it restricts that table by
     * the rendered WHERE node and passes the WHERE node's parameters on unchanged.
     */
    function AsSql(render: Where -> Sql): (r: Result<Sql, QueryError>)
      reads this
      ensures r.Err? <==> |tables| != 1
      ensures r.Err? ==> r.error == AssertionError("Can only delete from one table at a time.")
      ensures r.Ok? ==> r.value.text == "DELETE FROM " + tables[0] + " WHERE " + render(where).text
      ensures r.Ok? ==> r.value.params == render(where).params
    {
      if |tables| != 1 then Err(AssertionError("Can only delete from one table at a time."))
      else
        var w := render(where);
        JoinTwo(" ", "DELETE FROM " + tables[0], "WHERE " + w.text);
        Ok(Sql(Join(" ", ["DELETE FROM " + tables[0], "WHERE " + w.text]), w.params))
    }

    /** `do_query`: point the query at one table and one WHERE node, then run it. */
    method DoQuery(table: string, w: Where)
      modifies this
      ensures tables == [table] && where == w
      ensures executed == old(executed) + [Executed([table], w)]
    {
      tables := [table];
      where := w;
      executed := executed + [Executed(tables, where)];
    }

    /** The `for offset in range(...)` loop shared by the three batch operations. */
    method ExecuteChunks(table: string, column: string, extra: seq<Cond>, pkList: seq<Value>)
      modifies this
      ensures executed == old(executed) + ChunkStatements(table, column, extra, Chunks(pkList, chunkSize, 0))
      ensures Executed(tables, where) == LastState(Executed(old(tables), old(where)), ChunkStatements(table, column, extra, Chunks(pkList, chunkSize, 0)))
    {
      ghost var start := Executed(tables, where);
      ghost var all := ChunkStatements(table, column, extra, Chunks(pkList, chunkSize, 0));
      ghost var done: seq<Executed> := [];
      ghost var todo := all;
      var offset := 0;
      while offset < |pkList|
        invariant todo == ChunkStatements(table, column, extra, Chunks(pkList, chunkSize, offset))
        invariant done + todo == all
        invariant executed == old(executed) + done
        invariant Executed(tables, where) == LastState(start, done)
        decreases |pkList| - offset
      {
        var w := Where([ColumnIn(column, Slice(pkList, offset, chunkSize))] + extra);
        ghost var rest := ChunkStatements(table, column, extra, Chunks(pkList, chunkSize, offset + chunkSize));
        ChunkStatementsUnfold(table, column, extra, pkList, chunkSize, offset);
        DoQuery(table, w);
        AppendAssoc(done, [Executed([table], w)], rest);
        done := done + [Executed([table], w)];
        todo := rest;
        offset := offset + chunkSize;
      }
      assert Chunks(pkList, chunkSize, offset) == [];
      assert done + [] == done;
    }

    /** `delete_batch`: one DELETE on the model's table per slice of `pkList`. */
    method DeleteBatch(pkList: seq<Value>)
      modifies this
      ensures executed == old(executed) + ChunkStatements(model.dbTable, model.pkColumn, [], Chunks(pkList, chunkSize, 0))
      ensures Executed(tables, where) == LastState(Executed(old(tables), old(where)), ChunkStatements(model.dbTable, model.pkColumn, [], Chunks(pkList, chunkSize, 0)))
    {
      ExecuteChunks(model.dbTable, model.pkColumn, [], pkList);
    }

    /**
     * `delete_batch_related`: first the join-table rows of every non-generic related
     * many-to-many object, then those of every many-to-many field of the model, each in
     * slices of `pkList`.
     */
    method DeleteBatchRelated(pkList: seq<Value>)
      modifies this
      ensures executed == old(executed)
                          + RelatedStatements(model.relatedManyToMany, pkList, chunkSize)
                          + ManyToManyStatements(model.manyToMany, pkList, chunkSize)
      ensures Executed(tables, where) == LastState(Executed(old(tables), old(where)), 
                                   RelatedStatements(model.relatedManyToMany, pkList, chunkSize)
                                   + ManyToManyStatements(model.manyToMany, pkList, chunkSize))
    {
      ghost var start := Executed(tables, where);
      DeleteRelatedObjectRows(pkList);
      DeleteManyToManyRows(pkList);
      LastStateAppend(start, RelatedStatements(model.relatedManyToMany, pkList, chunkSize),
                      ManyToManyStatements(model.manyToMany, pkList, chunkSize));
    }

    /** The first loop of `delete_batch_related`: `get_all_related_many_to_many_objects()`. */
    method DeleteRelatedObjectRows(pkList: seq<Value>)
      modifies this
      ensures executed == old(executed) + RelatedStatements(model.relatedManyToMany, pkList, chunkSize)
      ensures Executed(tables, where) == LastState(Executed(old(tables), old(where)), RelatedStatements(model.relatedManyToMany, pkList, chunkSize))
    {
      ghost var start := Executed(tables, where);
      ghost var done: seq<Executed> := [];
      var rels := model.relatedManyToMany;
      var j := 0;
      while j < |rels|
        invariant 0 <= j <= |rels|
        invariant done == RelatedStatements(rels[..j], pkList, chunkSize)
        invariant executed == old(executed) + done
        invariant Executed(tables, where) == LastState(start, done)
      {
        ghost var more := RelatedRowStatements(rels[j], pkList, chunkSize);
        assert rels[..j + 1][..j] == rels[..j];
        DeleteRelatedRows(rels[j], pkList);
        LastStateAppend(start, done, more);
        AppendAssoc(old(executed), done, more);
        done := done + more;
        j := j + 1;
      }
      assert rels[..j] == rels;
    }

    /** One iteration of that loop: the batched deletions of one relation's join rows, unless it is generic. */
    method DeleteRelatedRows(related: RelatedManyToMany, pkList: seq<Value>)
      modifies this
      ensures executed == old(executed) + RelatedRowStatements(related, pkList, chunkSize)
      ensures Executed(tables, where) == LastState(Executed(old(tables), old(where)), RelatedRowStatements(related, pkList, chunkSize))
    {
      if !related.isGeneric {
        ExecuteChunks(related.table, related.reverseName, [], pkList);
      } else {
        assert executed + [] == executed;
      }
    }

    /** The second loop of `delete_batch_related`: `_meta.many_to_many`. */
    method DeleteManyToManyRows(pkList: seq<Value>)
      modifies this
      ensures executed == old(executed) + ManyToManyStatements(model.manyToMany, pkList, chunkSize)
      ensures Executed(tables, where) == LastState(Executed(old(tables), old(where)), ManyToManyStatements(model.manyToMany, pkList, chunkSize))
    {
      ghost var start := Executed(tables, where);
      var fs := model.manyToMany;
      var j := 0;
      while j < |fs|
        invariant 0 <= j <= |fs|
        invariant executed == old(executed) + ManyToManyStatements(fs[..j], pkList, chunkSize)
        invariant Executed(tables, where) == LastState(start, ManyToManyStatements(fs[..j], pkList, chunkSize))
      {
        ManyToManyStatementsSnoc(fs, j, pkList, chunkSize);
        var f := fs[j];
        var w1 := ContentTypeWhere(f);
        ghost var done := ManyToManyStatements(fs[..j], pkList, chunkSize);
        ghost var more := ChunkStatements(f.table, f.column, ExtraConds(w1), Chunks(pkList, chunkSize, 0));
        ExecuteChunks(f.table, f.column, ExtraConds(w1), pkList);
        LastStateAppend(start, done, more);
        AppendAssoc(old(executed), done, more);
        j := j + 1;
      }
      assert fs[..j] == fs;
    }
  }

  /**
   * Every statement a batch operation runs has exactly one table, so `as_sql` renders each
   * of them, with the slice restriction as its WHERE clause.
   */
  lemma BatchStatementsRender(q: DeleteQuery, render: Where -> Sql, table: string, column: string,
                              extra: seq<Cond>, pkList: seq<Value>, n: ChunkSize, i: nat)
    requires i < |ChunkStatements(table, column, extra, Chunks(pkList, n, 0))|
    requires q.tables == ChunkStatements(table, column, extra, Chunks(pkList, n, 0))[i].tables
    ensures q.AsSql(render).Ok?
    ensures q.AsSql(render).value.text == "DELETE FROM " + table + " WHERE " + render(q.where).text
  {
    ChunkStatementAt(table, column, extra, Chunks(pkList, n, 0), i);
  }
}
