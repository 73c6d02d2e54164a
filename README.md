# Django statement builders and formsets, modelled in Dafny

This project models two parts of an early Django code base.

**The specialised SQL queries** of `django/db/models/sql/subqueries.py`:
- `DeleteQuery` renders `DELETE FROM t WHERE …` and deletes a list of primary keys in batches of
  `GET_ITERATOR_CHUNK_SIZE`. It first removes the many-to-many join rows and the generic
  relation rows that point at those keys.
- `UpdateQuery` collects `(column, value)` assignments. It sends assignments to fields of an
  ancestor model to one coalesced query per ancestor. Before rendering it rewrites a
  multi-table WHERE into `pk IN (…)`. It renders `UPDATE t SET c = %s, d = NULL WHERE …` and
  clears a foreign key in batches.
- `InsertQuery` collects columns and values, either bound as parameters or raw. It renders
  `INSERT INTO t (…) VALUES ( … )`.
- `DateQuery.add_date_select` turns a query into a DISTINCT date extraction.
- `CountQuery` wraps the inner query as the derived table `A1` and drops the ordering.

**The formset engine** of `django/newforms/formsets.py`:
- how a `BaseFormSet` derives `total_forms`, `required_forms` and `change_form_count` from
  the submitted management form, from the initial rows or from nothing;
- the index ranges and prefixes (`form-0`, `form-1`, …) of its change forms and add forms;
- the ORDER and DELETE fields that `add_fields` attaches;
- `full_clean`: it walks the change forms forwards and the add forms backwards, skips and
  resets trailing blank add forms, sorts by ORDER and publishes only when everything is valid;
- `is_valid` and `all_valid`.

Modules:

| file | module | contents |
|---|---|---|
| wrappers.dfy | `Wrappers` | `Option`, `Result` |
| sqlbase.dfy | `SqlBase` | values, WHERE trees, `(sql, params)`, `str.join`, primary-key chunking |
| seqlemmas.dfy | `SeqLemmas` | associativity of concatenation and membership in a one-longer prefix, used as explicit proof steps |
| deletequery.dfy | `DeleteQueries` | class `DeleteQuery` and the statement lists it executes |
| updatequery.dfy | `UpdateQueries` | class `UpdateQuery`, assignment rendering, the WHERE rewrite, coalescing of related updates |
| insertquery.dfy | `InsertQueries` | class `InsertQuery`, column resolution, VALUES rendering |
| datecount.dfy | `DateCountQueries` | class `DateQuery`; `CountQuery.get_from_clause` and `get_ordering` |
| decimal.dfy | `Decimal` | `str(int)` and its inverse, used for form prefixes |
| formclean.dfy | `FormClean` | the two cleaning loops of `full_clean` and the function they compute |
| formsets.dfy | `Formsets` | class `FormSet`: counts, form lists, `full_clean`, `is_valid`; `all_valid` |

Conventions:
- State that the source mutates is a class. Each method's `ensures` relates the new state to
  the old one through specification functions, and lemmas prove the properties of those
  functions.
- Every statement a query "executes" is appended to an `executed` log, because
  talking to the database is outside the model.
- The parts of the query core that are not modelled are parameters:
  - `render: Where -> Sql` stands for `where.as_sql()`;
  - `qn` stands for `quote_name_unless_alias`;
  - `show` stands for the text of a raw value;
  - `fieldByName` stands for `_meta.get_field_by_name`;
  - `fetchedIds` stands for the rows of the sub-select that `pre_sql_setup` executes;
  - `chunkSize` stands for `GET_ITERATOR_CHUNK_SIZE`.
- A form is abstract. `FormClass.behaviour` maps the constructor arguments of a form
  (prefix, data, initial row, fields) to what the form reports: empty or not, valid or not,
  its `cleaned_data` and its `errors`.
- A Python dict that is iterated (`values.items()`, `insert_values`) is passed as a sequence
  of pairs in the dict's iteration order.

## Model

| member | source | states |
|---|---|---|
| SqlBase.Slice | django/db/models/sql/subqueries.py:84-85 | `pk_list[offset : offset + CHUNK]` is a non-empty slice of at most CHUNK keys starting at `offset` and clipped at the end of the list |
| SqlBase.ChunksCover | django/db/models/sql/subqueries.py:81-86 | the batches `range(0, len(pk_list), CHUNK)` produces, concatenated, are exactly the key list: no key is lost, duplicated or reordered |
| SqlBase.ChunksBounded | django/db/models/sql/subqueries.py:81-86 | every batch holds between 1 and CHUNK keys |
| SqlBase.ChunksCount | django/db/models/sql/subqueries.py:81 | the batch count is the least k with k·CHUNK ≥ the number of keys; there are no batches exactly when there are no keys |
| SqlBase.ChunksCeil | django/db/models/sql/subqueries.py:81 | a list of n keys gives ⌈n / CHUNK⌉ batches |
| DeleteQueries.DeleteQuery.AsSql | django/db/models/sql/subqueries.py:20-30 | raises the assertion "Can only delete from one table at a time." exactly when there is not exactly one table; otherwise the text is `DELETE FROM <table> WHERE <where>` with the WHERE parameters |
| DeleteQueries.DeleteQuery.DoQuery | django/db/models/sql/subqueries.py:32-35 | sets the one table and the WHERE node, then executes exactly that statement |
| DeleteQueries.DeleteQuery.ExecuteChunks | django/db/models/sql/subqueries.py:81-86 | executes one `column IN (batch)` statement per batch, in order, each also carrying any extra conditions; afterwards the query's state is the last statement executed |
| DeleteQueries.DeleteQuery.DeleteBatch | django/db/models/sql/subqueries.py:73-86 | executes, on the model's table, `pk IN (batch)` for every batch of the key list and nothing else |
| DeleteQueries.DeleteQuery.DeleteRelatedObjectRows | django/db/models/sql/subqueries.py:47-55 | for each reverse many-to-many relation that is not generic, in order, deletes the join rows of every batch of keys |
| DeleteQueries.DeleteQuery.DeleteRelatedRows | django/db/models/sql/subqueries.py:48-55 | for one reverse relation: nothing when its field is a generic relation, otherwise one join-table DELETE per batch of keys; the query's state is that of the last statement |
| DeleteQueries.DeleteQuery.DeleteManyToManyRows | django/db/models/sql/subqueries.py:57-71 | for each forward many-to-many field, in order, deletes the join rows of every batch; a generic relation adds its content-type condition |
| DeleteQueries.DeleteQuery.DeleteBatchRelated | django/db/models/sql/subqueries.py:37-71 | executes first the reverse-relation deletions, then the forward many-to-many deletions |
| DeleteQueries.ChunkStatements | django/db/models/sql/subqueries.py:81-86 | one statement per batch |
| DeleteQueries.ChunkStatementAt | django/db/models/sql/subqueries.py:84-86 | statement i deletes from the given table where the column is in batch i, plus the extra conditions |
| DeleteQueries.BatchesCoverKeys | django/db/models/sql/subqueries.py:81-86 | the keys of the batched statements, concatenated, are exactly the key list; each statement names at most CHUNK keys |
| DeleteQueries.AllKeysOfChunks | django/db/models/sql/subqueries.py:84-85 | the keys the statements name are the concatenated batches |
| DeleteQueries.RelatedStatementsSnoc | django/db/models/sql/subqueries.py:47-55 | a generic reverse relation adds no statement; any other adds the batched deletions on its table and reverse column |
| DeleteQueries.ManyToManyStatementsSnoc | django/db/models/sql/subqueries.py:57-71 | each forward field adds the batched deletions on its join table, with the content-type condition exactly when the field is generic |
| DeleteQueries.NoKeysNoRelated | django/db/models/sql/subqueries.py:47-55 | an empty key list executes no reverse-relation deletion |
| DeleteQueries.NoKeysNoManyToMany | django/db/models/sql/subqueries.py:57-71 | an empty key list executes no many-to-many deletion |
| DeleteQueries.GenericBatchesCarryContentType | django/db/models/sql/subqueries.py:58-70 | every batch deleted from a generic relation's table is also restricted to the content type of the model |
| DeleteQueries.BatchStatementsRender | django/db/models/sql/subqueries.py:25-30 | every statement the batch loops set up has one table, so `as_sql` renders it without the assertion |
| UpdateQueries.Assignments | django/db/models/sql/subqueries.py:129-135 | one SET entry per value, in order |
| UpdateQueries.AssignmentAt | django/db/models/sql/subqueries.py:129-134 | entry i is `qn(name) = %s` or `qn(name) = NULL`; it is NULL exactly when the value is None |
| UpdateQueries.PlaceholdersMatchParams | django/db/models/sql/subqueries.py:129-134 | the number of `%s` placeholders equals the number of update parameters, and no parameter is None |
| UpdateQueries.ParamOfEntry | django/db/models/sql/subqueries.py:129-132 | the parameter that belongs to the i-th non-NULL assignment is that assignment's value, so placeholders and parameters line up |
| UpdateQueries.RenderUpdate | django/db/models/sql/subqueries.py:122-139 | no values gives `('', ())`; no table raises IndexError; otherwise `UPDATE qn(t) SET a, b …`, with ` WHERE …` only when the WHERE text is non-empty, and the update parameters before the WHERE parameters |
| UpdateQueries.SetEntries | django/db/models/sql/subqueries.py:129-135 | the SET entries are `col = %s` for a value and `col = NULL` for None, one per entry of `values` in order, and the parameters are exactly the non-None values in order |
| UpdateQueries.RewriteLeavesOneTable | django/db/models/sql/subqueries.py:176-177 | setting the reference count of every alias but the first to zero leaves at most the first table active |
| UpdateQueries.AddRelated | django/db/models/sql/subqueries.py:209-218 | appends `(column, value)` to the ancestor's list, creating the list if it is missing; all other ancestors are unchanged |
| UpdateQueries.Coalesces | django/db/models/sql/subqueries.py:209-218 | after any sequence of related updates there is exactly one entry per ancestor mentioned, holding its assignments in call order |
| UpdateQueries.UpdateValuesRaises | django/db/models/sql/subqueries.py:197-200 | when every field is a direct non-m2m field, `add_update_values` raises nothing |
| UpdateQueries.UpdateStep | django/db/models/sql/subqueries.py:197-207 | one item of `add_update_values`: a name `get_field_by_name` does not know raises FieldDoesNotExist with that name; an indirect or many-to-many field raises FieldError naming the field; a direct field of an ancestor appends `(column, value)` to that ancestor's related updates, any other direct field appends it to `values`, a related instance replaced by its pk |
| UpdateQueries.UpdateValuesFirstError | django/db/models/sql/subqueries.py:197-200 | the first item whose name is unknown raises FieldDoesNotExist with that name, and the first indirect or many-to-many field raises FieldError naming the field; the assignments made before it stay in place |
| UpdateQueries.UpdateValuesSplits | django/db/models/sql/subqueries.py:197-207 | without an error, local fields extend `values` in order, with a related instance replaced by its pk, and ancestor fields are coalesced into `related_updates` |
| UpdateQueries.RelatedFilterAsWritten | django/db/models/sql/subqueries.py:232-233 | as written: no captured keys, or an empty key list, gives an ancestor query that selects every row; a non-empty key list selects exactly the rows whose key is listed |
| UpdateQueries.RelatedFilter | django/db/models/sql/subqueries.py:232-233 | corrected: with captured keys the ancestor query selects exactly the rows whose key is listed, also when the list is empty; with none it selects every row |
| UpdateQueries.EmptyIdsUpdateEveryAncestorRow | django/db/models/sql/subqueries.py:168-233 | as written: with related updates and no fetched key, the main UPDATE that `pre_sql_setup` rewrites selects no row but the ancestor query selects every row (see Findings) |
| UpdateQueries.AncestorRowsMatchMainUpdate | django/db/models/sql/subqueries.py:168-233 | corrected: the ancestor query selects exactly the rows the rewritten main UPDATE selects, including when no key was fetched |
| UpdateQueries.ClearRuns | django/db/models/sql/subqueries.py:186-193 | one UPDATE per batch of keys |
| UpdateQueries.ClearRunAt | django/db/models/sql/subqueries.py:186-193 | run i sets the related column to None where the primary key is in batch i |
| UpdateQueries.ClearRunsSetNull | django/db/models/sql/subqueries.py:186-193 | each of those runs renders as `UPDATE t SET qn(column) = NULL WHERE …` with no update parameter |
| UpdateQueries.UpdateQuery.constructor | django/db/models/sql/subqueries.py:92-105 | a new query has no values, no captured keys and no related updates |
| UpdateQueries.UpdateQuery.SetupQuery | django/db/models/sql/subqueries.py:96-105 | empties `values` and the captured keys; the rest of the state is unchanged |
| UpdateQueries.UpdateQuery.AddRelatedUpdate | django/db/models/sql/subqueries.py:209-218 | `related_updates` becomes `AddRelated` of its old value; nothing else changes |
| UpdateQueries.UpdateQuery.AddUpdateValues | django/db/models/sql/subqueries.py:195-207 | the new values, related updates and error are the fold of the per-field step over the items |
| UpdateQueries.AncestorQueries | django/db/models/sql/subqueries.py:229-235 | one query per ancestor, each ancestor once, carrying that ancestor's coalesced assignments and the given filter; none when there are no related updates |
| UpdateQueries.UpdateQuery.GetRelatedUpdatesAsWritten | django/db/models/sql/subqueries.py:220-235 | as written: the `AncestorQueries` of the related updates, filtered by `RelatedFilterAsWritten` of the captured keys |
| UpdateQueries.UpdateQuery.GetRelatedUpdates | django/db/models/sql/subqueries.py:220-235 | corrected: the same queries, filtered by `RelatedFilter` of the captured keys |
| UpdateQueries.UpdateQuery.PreSqlSetup | django/db/models/sql/subqueries.py:141-177 | with no related updates and one active table, nothing changes; otherwise the WHERE becomes `pk IN` the fetched keys, which are captured, when there are related updates, and `pk IN` the sub-select when there are none; only the first table stays active |
| UpdateQueries.UpdateQuery.ZeroLaterAliases | django/db/models/sql/subqueries.py:176-177 | every alias after the first gets reference count zero, the others keep theirs, and nothing else of the query changes |
| UpdateQueries.UpdateQuery.AsSql | django/db/models/sql/subqueries.py:116-139 | runs `pre_sql_setup`, then returns the rendering `RenderUpdate` specifies for the resulting state |
| UpdateQueries.UpdateQuery.ClearRelated | django/db/models/sql/subqueries.py:179-193 | executes exactly the `ClearRuns` of the key batches; afterwards the WHERE and values are those of the last run |
| UpdateQueries.ClearChunks | django/db/models/sql/subqueries.py:186-193 | the runs are exactly the `ClearRuns` of the key batches; with no batch the WHERE and values are untouched, otherwise they are those of the last run |
| InsertQueries.FieldNameOf | django/db/models/sql/subqueries.py:289-291 | the key `pk` stands for the primary key's field name; every other key is itself |
| InsertQueries.Wrap | django/db/models/sql/subqueries.py:293-296 | one insert value per item, holding the item's value, raw exactly when `raw_values` is set |
| InsertQueries.ColumnsPerKey | django/db/models/sql/subqueries.py:285-292 | with every key resolvable, one column is appended per key, in order, equal to that field's column; otherwise the first unresolvable key is reported and fewer columns are appended |
| InsertQueries.Quoted | django/db/models/sql/subqueries.py:254 | the column list is every column quoted, in order |
| InsertQueries.SlotAt | django/db/models/sql/subqueries.py:258-265 | slot k is `, ` (except for the first) followed by `%s` for a bound value or the raw text |
| InsertQueries.InsertShape | django/db/models/sql/subqueries.py:253-267 | the statement is `INSERT INTO qn(t)`, the quoted column list, `VALUES (`, one slot per value, `)` |
| InsertQueries.ParamOfSlot | django/db/models/sql/subqueries.py:262-264 | the parameter belonging to the k-th value is that value, when it is bound |
| InsertQueries.ParamsCount | django/db/models/sql/subqueries.py:256-264 | there are as many parameters as bound values |
| InsertQueries.RawAddsNoParams | django/db/models/sql/subqueries.py:293-294 | values inserted raw add no parameter |
| InsertQueries.BoundAddsAllParams | django/db/models/sql/subqueries.py:295-296 | values inserted bound add one parameter each, in order |
| InsertQueries.InsertQuery.constructor | django/db/models/sql/subqueries.py:237-247 | a new insert has no columns and no values |
| InsertQueries.InsertQuery.InsertValues | django/db/models/sql/subqueries.py:275-296 | appends the resolved columns; a key that does not resolve raises FieldDoesNotExist after the columns before it were appended; on success the wrapped values are appended |
| InsertQueries.InsertQuery.AsSql | django/db/models/sql/subqueries.py:249-267 | no table raises IndexError; otherwise the text is the parts `InsertShape` describes joined with spaces, and the parameters are the bound values in order |
| DateCountQueries.DateOrdering | django/db/models/sql/subqueries.py:334 | ordering by the one selected column: `[1]` exactly for `ASC`, `[-1]` for anything else |
| DateCountQueries.DateQuery.AddDateSelect | django/db/models/sql/subqueries.py:325-334 | the only select entry is the truncated date of the column, the query becomes DISTINCT, and the ordering is `DateOrdering(order)` |
| DateCountQueries.GetFromClause | django/db/models/sql/subqueries.py:342-344 | one FROM entry `(<inner>) AS A1` with the inner parameters unchanged |
| DateCountQueries.DerivedRoundTrip | django/db/models/sql/subqueries.py:344 | the inner query's SQL can be recovered exactly from the FROM entry |
| DateCountQueries.GetOrdering | django/db/models/sql/subqueries.py:346-347 | the count query has no ordering |
| Decimal.NatToString | django/newforms/formsets.py:146 | the decimal text of a number is non-empty digits without a leading zero |
| Decimal.ParseIntToString | django/newforms/formsets.py:146 | `int(str(i)) == i` for every integer |
| Decimal.IntToStringInjective | django/newforms/formsets.py:146 | distinct integers print differently |
| Formsets.InitCounts | django/newforms/formsets.py:30-48 | bound data with a valid COUNT gives total = COUNT and required = change = COUNT − num_extra; an invalid management form is the only error; otherwise non-empty initial gives change = required = len(initial) and total = that + num_extra; otherwise 0, 0, num_extra |
| Formsets.ManagementCountRoundTrip | django/newforms/formsets.py:39-48 | resubmitting the COUNT an unbound formset renders gives it back its counts |
| Formsets.FormsetPrefix | django/newforms/formsets.py:25 | the prefix is the given one, or `form` when it is missing or empty |
| Formsets.AddPrefixReadsBack | django/newforms/formsets.py:145-146 | `add_prefix(i)` is the formset prefix, a dash, and decimal text that `int()` reads back as i |
| Formsets.AddPrefixInjective | django/newforms/formsets.py:145-146 | `prefix-i` differs for different indices |
| Formsets.WithFormsetFields | django/newforms/formsets.py:138-143 | ORDER becomes an `Order` integer field with initial index + 1 when orderable; DELETE an optional `Delete` boolean when deletable; every other field is kept |
| Formsets.FormSet.constructor | django/newforms/formsets.py:23-48 | records the arguments, the prefix, the counts `CountsFromSources` describes and the management form (bound to the data, or rendering the total); nothing is cleaned yet |
| Formsets.FormSet.Create | django/newforms/formsets.py:30-38 | raises ValidationError "ManagementForm data is missing or has been tampered with" exactly when the data are present but the management form is invalid |
| Formsets.FormSet.NewForm | django/newforms/formsets.py:56-60 | form i gets prefix `prefix-i`, the auto_id, the data only when they are non-empty, and the formset fields |
| Formsets.FormSet.ChangeFormList | django/newforms/formsets.py:66-81 | forms 0 … change_form_count − 1, form i with initial row i when there is initial data; IndexError exactly when there are fewer initial rows than change forms |
| Formsets.FormSet.AddFormList | django/newforms/formsets.py:50-63 | forms change_form_count … total_forms − 1, with no initial row |
| Formsets.FormSet.FormPrefixes | django/newforms/formsets.py:50-86 | `forms` holds max(change_form_count, 0) + max(total_forms − change_form_count, 0) forms; form i is prefixed with index i, shifted down by change_form_count when that is negative |
| Formsets.FormSet.FormIndexRanges | django/newforms/formsets.py:50-86 | `forms` fails exactly when the change forms do; otherwise it has the length and prefixes above, negative indices such as `form--1` included when a bound COUNT is below num_extra, no two forms share a prefix, and with 0 ≤ change_form_count ≤ total_forms form i of total_forms is `prefix-i` |
| Formsets.FormSet.UnboundChangeFormsExist | django/newforms/formsets.py:39-48 | an unbound formset built from its own counts can always build its change forms: one per initial row |
| Formsets.FormSet.ChangeForms | django/newforms/formsets.py:66-81 | the loop builds exactly `ChangeFormList` |
| Formsets.FormSet.AddForms | django/newforms/formsets.py:50-63 | the loop builds exactly `AddFormList` |
| Formsets.FormSet.Forms | django/newforms/formsets.py:84-86 | the change forms followed by the add forms |
| Formsets.FormSet.Outcomes | django/newforms/formsets.py:99-100 | what each form reports, in form order |
| Formsets.FormSet.SelectionShape | django/newforms/formsets.py:95-136 | the selection fails with IndexError exactly when the change forms cannot be built; otherwise it has one errors entry per validated form and is valid iff every change form and every add form up to the last non-blank one is valid |
| Formsets.FormSet.ValidityMeaning | django/newforms/formsets.py:88-150 | corrected `is_valid`: false for an unbound formset; IndexError when the change forms cannot be built; otherwise true iff every validated form is valid |
| Formsets.FormSet.CleanIdempotent | django/newforms/formsets.py:88-136 | a second `full_clean` changes nothing more, as written and corrected |
| Formsets.FormSet.AsWrittenAgreesWhenBound | django/newforms/formsets.py:88-150 | a bound formset is cleaned alike by both versions and answers its validity; an unbound one, as written, answers whatever `_is_valid` already held, or raises AttributeError |
| Formsets.FormSet.ValidityAsWrittenStable | django/newforms/formsets.py:148-150 | cleaning as written does not change what `is_valid` as written answers next |
| Formsets.FormSet.CleanedStateRecordsValidity | django/newforms/formsets.py:132-136 | after the corrected `full_clean`, `_is_valid` holds the validity; a bound formset holds its errors, and, when valid, the selected `cleaned_data` and `deleted_data`; an unbound one has no errors |
| Formsets.FormSet.CleanBound | django/newforms/formsets.py:95-136 | raises what building the change forms raises and then changes nothing; otherwise sets `errors`, `_is_valid` and the reset forms from `CleanSpec`, and `cleaned_data` and `deleted_data` only when valid; the other attributes keep their values |
| Formsets.FormSet.FullCleanAsWritten | django/newforms/formsets.py:88-136 | as written: an unbound formset sets only the name-mangled error list, leaving `errors` and `_is_valid` as they were; a bound one ends with the attributes `CleanBound` gives, and the error of building its change forms |
| Formsets.FormSet.FullClean | django/newforms/formsets.py:88-136 | corrected: an unbound formset ends with `errors` = `[]` and `_is_valid` false and nothing else changed; a bound one as `FullCleanAsWritten` |
| Formsets.FormSet.IsValidAsWritten | django/newforms/formsets.py:148-150 | as written: answers the error of `full_clean`, or `_is_valid` after it, AttributeError when it was never set; the formset ends with the attributes `full_clean` as written leaves |
| Formsets.FormSet.IsValid | django/newforms/formsets.py:148-150 | corrected: answers the formset's `Validity` and ends with the attributes the corrected `full_clean` leaves |
| Formsets.UnboundIsValidRaises | django/newforms/formsets.py:148-150 | a fresh unbound formset's `is_valid`, as written, raises AttributeError on `_is_valid` |
| Formsets.UnboundIsNotValid | django/newforms/formsets.py:148-150 | corrected: a fresh unbound formset is not valid |
| Formsets.Verdicts | django/newforms/formsets.py:159-160 | corrected: the corrected `is_valid` verdict of each formset, in order |
| Formsets.VerdictsAsWritten | django/newforms/formsets.py:159-160 | as written: the verdict `is_valid` as written gives each formset from the attributes it held before |
| Formsets.Consulted | django/newforms/formsets.py:159-161 | how many formsets `all_valid` asks, at most all of them |
| Formsets.ConsultedPrefix | django/newforms/formsets.py:159-161 | every formset asked before the last one asked was valid; the last one asked decides, unless every formset was asked |
| Formsets.VerdictStep | django/newforms/formsets.py:159-161 | asking formset i either ends `all_valid` with its verdict or passes on to the next formset |
| Formsets.AllValidTrue | django/newforms/formsets.py:157-162 | `all_valid` is true exactly when every formset is valid |
| Formsets.AllValidFalse | django/newforms/formsets.py:159-161 | the first invalid formset makes `all_valid` false |
| Formsets.AllValidFalseWitness | django/newforms/formsets.py:159-161 | when `all_valid` is false there is an invalid formset and all before it are valid |
| Formsets.AskValid | django/newforms/formsets.py:159-160 | corrected: asking formset i answers its `Validity` and cleans it, and it alone, if it was not already asked |
| Formsets.AskValidAsWritten | django/newforms/formsets.py:159-160 | as written: the same with `is_valid` as written |
| Formsets.AllValid | django/newforms/formsets.py:157-162 | corrected: answers the first verdict that is not `True`, or `True`; every formset asked ends with the attributes the corrected `full_clean` leaves, every other one is unchanged |
| Formsets.AllValidAsWritten | django/newforms/formsets.py:157-162 | as written: the same with `is_valid` as written, starting from the attributes each formset held |
| FormClean.ErrorsOf | django/newforms/formsets.py:107 | each form's errors, in order |
| FormClean.Required | django/newforms/formsets.py:111-120 | the add forms from index n on are all blank and form n − 1 is not: only trailing blank forms are skipped |
| FormClean.Countdown | django/newforms/formsets.py:113-117 | trailing blank forms are reset from the last one backwards |
| FormClean.ReverseReverse | django/newforms/formsets.py:126 | `add_errors.reverse()` undoes the reverse walk |
| FormClean.CleanChangeForms | django/newforms/formsets.py:99-107 | the loop collects every change form's errors; the valid ones are sorted into kept or deleted; validity is the conjunction |
| FormClean.ScanAddForms | django/newforms/formsets.py:111-125 | the reverse loop resets the trailing blank forms, and collects the errors, valid cleaned data and validity of the others, in reverse order |
| FormClean.CleanForms | django/newforms/formsets.py:95-130 | the two loops together compute `CleanSpec` |
| FormClean.CleanSpecShape | django/newforms/formsets.py:95-136 | the selection has one errors entry per validated form and is valid iff every change form and every validated add form is; the add forms after the last non-blank one are reset from the last back; only rows marked DELETE of a deletable formset are deleted, none when it is not deletable |
| FormClean.ErrorsInFormOrder | django/newforms/formsets.py:99-127 | `errors` lists the change forms, then the non-skipped add forms, in form order |
| FormClean.KeptAndDeletedPartition | django/newforms/formsets.py:99-104 | kept and deleted change forms together are exactly the valid change forms |
| FormClean.DeletedOnlyWhenMarked | django/newforms/formsets.py:101-102 | a row lands in `deleted_data` only when the formset is deletable and the form ticked DELETE |
| FormClean.NotDeletableKeepsAll | django/newforms/formsets.py:101-104 | without deletion every valid change form is kept |
| FormClean.ValidCleanedSnoc | django/newforms/formsets.py:121-122 | one more form adds its cleaned data exactly when it is valid |
| FormClean.RequiredIgnoresBlankTail | django/newforms/formsets.py:113-118 | appending blank add forms does not change which forms are processed |
| FormClean.BlankExtraFormsChangeNothing | django/newforms/formsets.py:111-127 | extra blank add forms change no error, cleaned row or verdict; they are only reset |
| FormClean.SortByOrder | django/newforms/formsets.py:130 | sorting keeps the number of rows |
| FormClean.SortSortsAndPermutes | django/newforms/formsets.py:129-130 | the sorted rows are in ORDER order and are a permutation of the rows |
| FormClean.SortIsStable | django/newforms/formsets.py:130 | rows with equal ORDER keep their relative order |
| FormClean.OrderedCleanedData | django/newforms/formsets.py:129-130 | with ordering on, `cleaned_data` is the kept change rows and the add rows, sorted by ORDER, a permutation of them, stable for ties |

## Left out

- Executing SQL (`execute_sql`, cursors, `last_insert_id`, `results_iter`) is I/O. The model appends each statement it would execute to the query's `executed` log instead.
- `UpdateQuery.execute_sql`, which runs the main update and then each related update, is not modelled; `GetRelatedUpdatesAsWritten` and its corrected sibling `GetRelatedUpdates` return the related queries as values.
- The base `Query` class is not part of this model. That covers `where.as_sql`, `quote_name_unless_alias`, `get_field_by_name`, `join`, `clone`, `add_local_columns`, `clear_ordering`, `select_related` and the base `pre_sql_setup`. They are parameters, or their effect is given as input (the alias `join` returns, the query state the constructor receives).
- UpdateQueries.UpdateQuery.PreSqlSetup: the rows of the sub-select it executes are the `fetchedIds` parameter, and the sub-select itself is a `PkInSubquery` condition over the old tables and WHERE.
- The ContentType lookup of generic relations (`ContentType.objects.get_for_model`) is a database query; its id is part of the model metadata.
- `DateQuery.results_iter`, the `Date` select's SQL (`date_trunc_sql`) and other backend operations are not modelled.
- The Form and ManagementForm classes are not part of this model. A form's behaviour is the function `FormClass.behaviour`. The management form's verdict and cleaned COUNT are the `managementCount` input.
- `formset_for_form` builds a class at run time; its attributes (`form_class`, `num_extra`, `orderable`, `deletable`) are constructor parameters of `FormSet`. `num_extra` is taken as a natural number.
- Formsets.FormSet.ChangeForms: does not model the memoising through `hasattr` including the test of `_add_forms` on line 69; every access rebuilds the list. As a result, the resets of blank add forms are recorded in `resetForms` but are not seen by later accesses.
- Formsets.WithFormsetFields returns the form's new field dict instead of assigning into `form.fields` in place.
- FormClean.SortByOrder is a stable insertion sort by ORDER. It stands for `list.sort` with a comparison function, which is also stable; only the comparison result's sign matters.
- UpdateQueries.UpdateStep: the FieldError message formats the field with `%r`; the model carries only the field's name, and FieldDoesNotExist carries the name looked up.
- UpdateQueries.UpdateQuery.PreSqlSetup: with no table at all, the source would raise IndexError at `query.tables[0]` (line 162); the model does not, and renames no alias. This cannot arise in the source, because the base `pre_sql_setup` always joins the model's table.
- The order of the ancestor queries `get_related_updates` returns is the dictionary's iteration order, which is unspecified; AncestorQueries states every ancestor once, in some order.
- `GET_ITERATOR_CHUNK_SIZE` is defined in a constants module that is not part of this model; it is the positive parameter `chunkSize`.

## Findings

| source | as written | input that shows it | evidently intended | confidence | as-written member | corrected member |
|---|---|---|---|---|---|---|
| django/db/models/sql/subqueries.py:232-233 | `if self.related_ids:` adds the key filter to an ancestor UPDATE only when the fetched key list is non-empty | an update touching an ancestor field whose filter matches no row: `pre_sql_setup` captures `related_ids == []`, so the main UPDATE is `pk IN ()` but the ancestor UPDATE has no WHERE and updates every row | filter whenever keys were captured (`related_ids is not None`), so the ancestor UPDATE is also restricted to those keys | medium, not executed | UpdateQueries.EmptyIdsUpdateEveryAncestorRow, UpdateQueries.RelatedFilterAsWritten, UpdateQueries.UpdateQuery.GetRelatedUpdatesAsWritten | UpdateQueries.AncestorRowsMatchMainUpdate, UpdateQueries.RelatedFilter, UpdateQueries.UpdateQuery.GetRelatedUpdates |
| django/newforms/formsets.py:92-94 | on an unbound formset `full_clean` sets the name-mangled `self.__errors` and returns without setting `_is_valid` | `is_valid()` on a formset built with `data=None`: line 150 reads `self._is_valid`, which was never set, and raises AttributeError | an unbound formset is simply not valid: set the errors and `_is_valid = False` | high, not executed | Formsets.UnboundIsValidRaises, Formsets.FormSet.FullCleanAsWritten, Formsets.FormSet.IsValidAsWritten, Formsets.AllValidAsWritten | Formsets.UnboundIsNotValid, Formsets.FormSet.FullClean, Formsets.FormSet.IsValid, Formsets.AllValid |
