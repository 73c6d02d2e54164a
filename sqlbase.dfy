/**
 * Vocabulary shared by the statement builders of django/db/models/sql/subqueries.py:
 * the values that travel as SQL parameters, the WHERE tree those builders put together,
 * the `(sql_text, params)` pair every `as_sql` returns, Python's `str.join`, and the
 * primary-key slicing `pk_list[offset : offset + GET_ITERATOR_CHUNK_SIZE]`.
 */
module SqlBase {
  import opened Wrappers

  /** A Python value handed to the database layer; `Null` is Python's None. */
  datatype Value =
    | Null
    | Int(i: int)
    | Str(s: string)
    | Instance(modelName: string, pk: Value)   // a model object; `.pk` is its primary key

  /**
   * One child of a WHERE node. The query core that builds most constraints is not part of
   * this model: its constraints are `Opaque`. The constructors below are the ones the
   * statement builders add themselves.
   */
  datatype Cond =
    | Opaque(id: nat)                               // added by filter()/exclude() in the query core
    | ColumnIn(column: string, keys: seq<Value>)    // (None, column, field, 'in', keys)
    | ColumnExact(column: string, value: Value)     // (None, column, field, 'exact', value)
    | PkIn(keys: seq<Value>)                        // add_filter(('pk__in', a list))
    | PkInSubquery(tables: seq<string>, inner: Where)  // add_filter(('pk__in', sub-select))
    | Nested(inner: Where)                          // where.add(other_where, AND)

  /** A WHERE node: its children joined with AND. `Where([])` is a fresh `where_class()`. */
  datatype Where = Where(conds: seq<Cond>)

  /** The pair every `as_sql` returns: SQL text and the parameters for its placeholders. */
  datatype Sql = Sql(text: string, params: seq<Value>)

  /** The errors the statement builders raise. */
  datatype QueryError =
    | AssertionError(message: string)
    | FieldError(fieldName: string)
    | FieldDoesNotExist(fieldName: string)
    | IndexError

  const EmptySql := Sql("", [])

  /**
   * What `model._meta.get_field_by_name(name)` returns: the field (its name, column and
   * whether it is a relation), the ancestor model that owns it (None for a local field),
   * and the `direct` and `m2m` flags.
   */
  datatype FieldInfo = FieldInfo(
    name: string, column: string, isRelation: bool,
    ancestor: Option<string>, direct: bool, m2m: bool)

  /** A content-type restriction of a generic relation: `column = content type id`. */
  datatype ContentTypeFilter = ContentTypeFilter(column: string, contentTypeId: Value)

  /** One entry of `_meta.many_to_many`: its join table, its column, and, for a generic relation, the content type filter. */
  datatype ManyToManyField = ManyToManyField(
    table: string, column: string, generic: Option<ContentTypeFilter>)

  /** One entry of `_meta.get_all_related_many_to_many_objects()`. */
  datatype RelatedManyToMany = RelatedManyToMany(
    table: string, reverseName: string, isGeneric: bool)

  /** The model metadata (`_meta`) the statement builders consult. */
  datatype ModelMeta = ModelMeta(
    dbTable: string,
    pkName: string,
    pkColumn: string,
    manyToMany: seq<ManyToManyField>,
    relatedManyToMany: seq<RelatedManyToMany>,
    fieldByName: string -> Option<FieldInfo>)

  /** Python's `sep.join(parts)`. */
  function Join(sep: string, parts: seq<string>): string
  {
    if |parts| == 0 then ""
    else if |parts| == 1 then parts[0]
    else parts[0] + sep + Join(sep, parts[1..])
  }

  lemma JoinTwo(sep: string, a: string, b: string)
    ensures Join(sep, [a, b]) == a + sep + b
  {
    assert [a, b][1..] == [b];
  }

  /** Joining a list with one more part at the end appends the separator and that part. */
  lemma {:induction false} JoinSnoc(sep: string, parts: seq<string>, x: string)
    requires |parts| > 0
    ensures Join(sep, parts + [x]) == Join(sep, parts) + sep + x
  {
    if |parts| == 1 {
      assert parts + [x] == [parts[0], x];
      JoinTwo(sep, parts[0], x);
    } else {
      assert (parts + [x])[1..] == parts[1..] + [x];
      JoinSnoc(sep, parts[1..], x);
    }
  }

  /** The ANDed conditions a where node holds are all satisfied by a row. */
  predicate Selects(w: Where, pk: Value, other: Cond -> bool)
  {
    forall i :: 0 <= i < |w.conds| ==> CondHolds(w.conds[i], pk, other)
  }

  /**
   * Row semantics for the one kind of condition whose meaning the builders fix: `pk__in`
   * holds of a row exactly when its key is listed. Every other condition's meaning comes
   * from `other`, since the query core that gives it meaning is not modelled.
   */
  predicate CondHolds(c: Cond, pk: Value, other: Cond -> bool)
  {
    if c.PkIn? then pk in c.keys else other(c)
  }

  // ---------------------------------------------------------------------------------
  // Primary-key batching: `for offset in range(0, len(pk_list), GET_ITERATOR_CHUNK_SIZE)`
  // with the slice `pk_list[offset : offset + GET_ITERATOR_CHUNK_SIZE]`.
  // ---------------------------------------------------------------------------------

  /** GET_ITERATOR_CHUNK_SIZE: a positive constant of the query core. */
  type ChunkSize = n: nat | n > 0 witness 100

  function Min(a: int, b: int): int { if a <= b then a else b }

  /** Python's clamped slice `s[offset : offset + n]` for an offset inside the list. */
  function Slice<T>(s: seq<T>, offset: nat, n: ChunkSize): (r: seq<T>)
    requires offset < |s|
    ensures 0 < |r| <= n
    ensures r == s[offset..Min(offset + n, |s|)]
  {
    s[offset..Min(offset + n, |s|)]
  }

  /** The slices `range(offset, len(s), n)` visits, in order. */
  function Chunks<T>(s: seq<T>, n: ChunkSize, offset: nat): seq<seq<T>>
    decreases |s| - offset
  {
    if offset >= |s| then [] else [Slice(s, offset, n)] + Chunks(s, n, offset + n)
  }

  function Flatten<T>(ss: seq<seq<T>>): seq<T>
  {
    if ss == [] then [] else ss[0] + Flatten(ss[1..])
  }

  /** The slices, concatenated, give back the key list from `offset` on, in order. */
  lemma {:induction false} ChunksCover<T>(s: seq<T>, n: ChunkSize, offset: nat)
    requires offset <= |s|
    ensures Flatten(Chunks(s, n, offset)) == s[offset..]
    decreases |s| - offset
  {
    if offset < |s| {
      var next := Min(offset + n, |s|);
      if offset + n < |s| {
        ChunksCover(s, n, offset + n);
      } else {
        assert Chunks(s, n, offset + n) == [];
      }
      assert Chunks(s, n, offset)[1..] == Chunks(s, n, offset + n);
      assert s[offset..] == s[offset..next] + s[next..];
    }
  }

  /** Every slice is non-empty and holds at most n keys. */
  lemma {:induction false} ChunksBounded<T>(s: seq<T>, n: ChunkSize, offset: nat)
    ensures forall i :: 0 <= i < |Chunks(s, n, offset)| ==> 0 < |Chunks(s, n, offset)[i]| <= n
    decreases |s| - offset
  {
    if offset < |s| {
      ChunksBounded(s, n, offset + n);
      assert Chunks(s, n, offset)[1..] == Chunks(s, n, offset + n);
    }
  }

  /**
   * The number of slices is the least k with k * n >= |s| - offset, that is
   * ceil((|s| - offset) / n); in particular no slice at all for an empty list.
   */
  lemma {:induction false} ChunksCount<T>(s: seq<T>, n: ChunkSize, offset: nat)
    requires offset <= |s|
    ensures |Chunks(s, n, offset)| * n >= |s| - offset
    ensures |Chunks(s, n, offset)| > 0 ==> (|Chunks(s, n, offset)| - 1) * n < |s| - offset
    ensures offset == |s| <==> |Chunks(s, n, offset)| == 0
    decreases |s| - offset
  {
    if offset < |s| {
      if offset + n <= |s| {
        ChunksCount(s, n, offset + n);
      } else {
        assert Chunks(s, n, offset + n) == [];
      }
    }
  }

  /** Hence the statement count is exactly ceil(len / n), written as floor division. */
  lemma ChunksCeil<T>(s: seq<T>, n: ChunkSize)
    ensures |Chunks(s, n, 0)| == (|s| + n - 1) / n
  {
    ChunksCount(s, n, 0);
    var k := |Chunks(s, n, 0)|;
    var x := |s| + n - 1;
    assert k * n <= x < k * n + n by {
      if k > 0 {
        assert (k - 1) * n == k * n - n;
      }
    }
    DivUnique(x, n, k);
  }

  lemma DivUnique(x: int, n: int, k: int)
    requires n > 0 && k * n <= x < k * n + n
    ensures x / n == k
  {
    var q := x / n;
    assert x == q * n + x % n;
    if q < k {
      MulMono(q, k - 1, n);
    } else if q > k {
      MulMono(k + 1, q, n);
    }
  }

  lemma MulMono(a: int, b: int, n: int)
    requires a <= b && n > 0
    ensures a * n <= b * n
  {
    assert b * n - a * n == (b - a) * n;
  }
}
