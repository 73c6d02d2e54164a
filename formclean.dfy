/**
 * The selection algorithm of `BaseFormSet.full_clean` in django/newforms/formsets.py, over
 * sub-forms seen only through what their own cleaning reports: change forms are split into
 * kept and deleted rows, add forms are scanned from the last one back so that trailing blank
 * rows are dropped, and the kept rows are sorted by their ORDER entry when the formset is
 * orderable.
 */
module FormClean {
  import opened SeqLemmas

  /** A form's `errors`: field name to messages. */
  type ErrorDict = map<string, seq<string>>

  /** A valid form's `cleaned_data`: its ORDER and DELETE entries and its other fields. */
  datatype Cleaned = Cleaned(order: int, delete: bool, fields: map<string, string>)

  /**
   * What the formset learns from one sub-form: `is_empty([ORDER])`, `is_valid()`,
   * `cleaned_data` (read only when valid) and `errors`.
   */
  datatype Outcome = Outcome(isEmpty: bool, isValid: bool, cleaned: Cleaned, errors: ErrorDict)

  // ---------------------------------------------------------------------------------
  // Sequences of outcomes
  // ---------------------------------------------------------------------------------

  function ErrorsOf(s: seq<Outcome>): (r: seq<ErrorDict>)
    ensures |r| == |s| && forall k :: 0 <= k < |s| ==> r[k] == s[k].errors
  {
    seq(|s|, k requires 0 <= k < |s| => s[k].errors)
  }

  predicate AllOutcomesValid(s: seq<Outcome>)
  {
    forall k :: 0 <= k < |s| ==> s[k].isValid
  }

  /** A change form whose row is deleted: valid, in a deletable formset, DELETE set. */
  predicate IsDeleted(o: Outcome, deletable: bool)
  {
    o.isValid && deletable && o.cleaned.delete
  }

  /** The rows of the valid change forms that are not deleted, in order. */
  function Kept(s: seq<Outcome>, deletable: bool): seq<Cleaned>
  {
    if s == [] then []
    else
      var o := s[|s| - 1];
      Kept(s[..|s| - 1], deletable) + (if o.isValid && !IsDeleted(o, deletable) then [o.cleaned] else [])
  }

  /** The rows of the deleted change forms, in order. */
  function Deleted(s: seq<Outcome>, deletable: bool): seq<Cleaned>
  {
    if s == [] then []
    else
      var o := s[|s| - 1];
      Deleted(s[..|s| - 1], deletable) + (if IsDeleted(o, deletable) then [o.cleaned] else [])
  }

  /** The rows of the valid forms, in order. */
  function ValidCleaned(s: seq<Outcome>): seq<Cleaned>
  {
    if s == [] then []
    else (if s[0].isValid then [s[0].cleaned] else []) + ValidCleaned(s[1..])
  }

  function Reverse<T>(s: seq<T>): (r: seq<T>)
    ensures |r| == |s|
  {
    if s == [] then [] else Reverse(s[1..]) + [s[0]]
  }

  lemma ReverseCons<T>(x: T, s: seq<T>)
    ensures Reverse([x] + s) == Reverse(s) + [x]
  {
    assert ([x] + s)[1..] == s;
  }

  lemma {:induction false} ReverseSnoc<T>(s: seq<T>, x: T)
    ensures Reverse(s + [x]) == [x] + Reverse(s)
  {
    if s == [] {
      assert [] + [x] == [x];
      ReverseCons(x, []);
    } else {
      assert (s + [x])[1..] == s[1..] + [x];
      ReverseSnoc(s[1..], x);
    }
  }

  /** `reverse()` undoes itself. */
  lemma {:induction false} ReverseReverse<T>(s: seq<T>)
    ensures Reverse(Reverse(s)) == s
  {
    if s != [] {
      ReverseSnoc(Reverse(s[1..]), s[0]);
      ReverseReverse(s[1..]);
    }
  }

  /** Reversal keeps the elements: element k of the reverse is element |s|-1-k. */
  lemma {:induction false} ReverseAt<T>(s: seq<T>, k: nat)
    requires k < |s|
    ensures Reverse(s)[k] == s[|s| - 1 - k]
  {
    if k < |s| - 1 {
      ReverseAt(s[1..], k);
    }
  }

  /**
   * How many add forms are validated: all of them up to and including the last non-blank one.
   * Every form after it is blank, and, when there is one, the form at n - 1 is not.
   */
  function Required(s: seq<Outcome>): (n: nat)
    ensures n <= |s|
    ensures forall k :: n <= k < |s| ==> s[k].isEmpty
    ensures n > 0 ==> !s[n - 1].isEmpty
  {
    if s == [] then 0
    else if !s[|s| - 1].isEmpty then |s|
    else Required(s[..|s| - 1])
  }

  /** `[hi - 1, hi - 2, ..., lo]`: the positions of the blank add forms that are reset, in scan order. */
  function Countdown(hi: nat, lo: nat): (r: seq<nat>)
    requires lo <= hi
    ensures |r| == hi - lo && forall k :: 0 <= k < |r| ==> r[k] == hi - 1 - k
  {
    seq(hi - lo, k requires 0 <= k < hi - lo => hi - 1 - k)
  }

  // ---------------------------------------------------------------------------------
  // Ordering
  // ---------------------------------------------------------------------------------

  predicate SortedByOrder(s: seq<Cleaned>)
  {
    forall i, j :: 0 <= i < j < |s| ==> s[i].order <= s[j].order
  }

  /** Inserts x before the first row whose ORDER is not smaller, so ties keep x first. */
  function InsertByOrder(x: Cleaned, s: seq<Cleaned>): (r: seq<Cleaned>)
    ensures |r| == |s| + 1
  {
    if s == [] || x.order <= s[0].order then [x] + s
    else [s[0]] + InsertByOrder(x, s[1..])
  }

  /** `sort` with the comparison on ORDER: a stable sort, ascending by ORDER. */
  function SortByOrder(s: seq<Cleaned>): (r: seq<Cleaned>)
    ensures |r| == |s|
  {
    if s == [] then [] else InsertByOrder(s[0], SortByOrder(s[1..]))
  }

  lemma {:induction false} InsertPermutes(x: Cleaned, s: seq<Cleaned>)
    ensures multiset(InsertByOrder(x, s)) == multiset(s) + multiset{x}
  {
    if s != [] && x.order > s[0].order {
      InsertPermutes(x, s[1..]);
      assert s == [s[0]] + s[1..];
    }
  }

  lemma {:induction false} InsertKeepsSorted(x: Cleaned, s: seq<Cleaned>)
    requires SortedByOrder(s)
    ensures SortedByOrder(InsertByOrder(x, s))
  {
    if s != [] && x.order > s[0].order {
      var tail := s[1..];
      var t := InsertByOrder(x, tail);
      assert SortedByOrder(tail) by {
        forall i, j | 0 <= i < j < |tail| ensures tail[i].order <= tail[j].order {
          assert tail[i] == s[i + 1] && tail[j] == s[j + 1];
        }
      }
      InsertKeepsSorted(x, tail);
      InsertPermutes(x, tail);
      forall k | 0 <= k < |t| ensures s[0].order <= t[k].order {
        assert t[k] in multiset(t);
        if t[k] != x {
          assert t[k] in multiset(tail);
          var m :| 0 <= m < |tail| && tail[m] == t[k];
          assert s[m + 1] == t[k];
        }
      }
    }
  }

  /** The sorted rows are ascending by ORDER and are the same rows. */
  lemma SortSortsAndPermutes(s: seq<Cleaned>)
    ensures SortedByOrder(SortByOrder(s))
    ensures multiset(SortByOrder(s)) == multiset(s)
  {
    SortSorts(s);
    SortPermutes(s);
  }

  lemma {:induction false} SortSorts(s: seq<Cleaned>)
    ensures SortedByOrder(SortByOrder(s))
  {
    if s != [] {
      var rest := SortByOrder(s[1..]);
      assert SortByOrder(s) == InsertByOrder(s[0], rest);
      SortSorts(s[1..]);
      InsertKeepsSorted(s[0], rest);
    }
  }

  lemma {:induction false} SortPermutes(s: seq<Cleaned>)
    ensures multiset(SortByOrder(s)) == multiset(s)
  {
    if s != [] {
      var rest := SortByOrder(s[1..]);
      assert SortByOrder(s) == InsertByOrder(s[0], rest);
      SortPermutes(s[1..]);
      InsertPermutes(s[0], rest);
      assert s == [s[0]] + s[1..];
      assert multiset(s) == multiset(s[1..]) + multiset{s[0]};
    }
  }

  /** The rows with ORDER equal to v, in order. */
  function WithOrder(s: seq<Cleaned>, v: int): seq<Cleaned>
  {
    if s == [] then []
    else (if s[0].order == v then [s[0]] else []) + WithOrder(s[1..], v)
  }

  lemma {:induction false} WithOrderAppend(a: seq<Cleaned>, b: seq<Cleaned>, v: int)
    ensures WithOrder(a + b, v) == WithOrder(a, v) + WithOrder(b, v)
  {
    if a == [] {
      assert a + b == b;
    } else {
      var head := if a[0].order == v then [a[0]] else [];
      assert (a + b)[0] == a[0] && (a + b)[1..] == a[1..] + b;
      assert WithOrder(a + b, v) == head + WithOrder(a[1..] + b, v);
      assert WithOrder(a, v) == head + WithOrder(a[1..], v);
      WithOrderAppend(a[1..], b, v);
      AppendAssoc(head, WithOrder(a[1..], v), WithOrder(b, v));
    }
  }

  lemma {:induction false} InsertStable(x: Cleaned, s: seq<Cleaned>, v: int)
    ensures WithOrder(InsertByOrder(x, s), v) == WithOrder([x], v) + WithOrder(s, v)
  {
    if s == [] || x.order <= s[0].order {
      WithOrderAppend([x], s, v);
    } else {
      InsertStable(x, s[1..], v);
      WithOrderAppend([s[0]], InsertByOrder(x, s[1..]), v);
      WithOrderAppend([s[0]], s[1..], v);
      assert s == [s[0]] + s[1..];
      assert [x][1..] == [] && [s[0]][1..] == [];
    }
  }

  /** The sort is stable: rows with equal ORDER keep their relative order. */
  lemma {:induction false} SortIsStable(s: seq<Cleaned>, v: int)
    ensures WithOrder(SortByOrder(s), v) == WithOrder(s, v)
  {
    if s != [] {
      var x := s[0];
      var here := if x.order == v then [x] else [];
      SortIsStable(s[1..], v);
      InsertStable(x, SortByOrder(s[1..]), v);
      assert WithOrder([x], v) == here by {
        assert [x][1..] == [];
        assert here + [] == here;
      }
      assert SortByOrder(s) == InsertByOrder(x, SortByOrder(s[1..]));
      assert WithOrder(s, v) == here + WithOrder(s[1..], v);
    }
  }

  // ---------------------------------------------------------------------------------
  // The selection
  // ---------------------------------------------------------------------------------

  /** What `full_clean` computes for a bound formset, before it publishes it. */
  datatype CleanResult = CleanResult(
    errors: seq<ErrorDict>, cleaned: seq<Cleaned>, deleted: seq<Cleaned>, isValid: bool, reset: seq<nat>)

  /**
   * The result of the selection: an errors entry for every change form and for every add form up
   * to the last non-blank one, in form order; the kept change rows followed by the rows of the
   * valid validated add forms as the reverse scan appended them, sorted by ORDER when
   * orderable; the deleted change rows; valid iff every validated form is; the trailing blank
   * add forms reset from the last one back.
   */
  function CleanSpec(change: seq<Outcome>, add: seq<Outcome>, deletable: bool, orderable: bool): CleanResult
  {
    var n := Required(add);
    var rows := Kept(change, deletable) + Reverse(ValidCleaned(add[..n]));
    CleanResult(
      ErrorsOf(change) + ErrorsOf(add[..n]),
      if orderable then SortByOrder(rows) else rows,
      Deleted(change, deletable),
      AllOutcomesValid(change) && AllOutcomesValid(add[..n]),
      Countdown(|add|, n))
  }

  /**
   * The shape of the selection: one errors entry per validated form; valid iff every change
   * form and every validated add form is; the add forms after the last non-blank one reset from
   * the last one back; only rows marked DELETE of a deletable formset are deleted.
   */
  lemma CleanSpecShape(change: seq<Outcome>, add: seq<Outcome>, deletable: bool, orderable: bool)
    ensures var r := CleanSpec(change, add, deletable, orderable);
            && |r.errors| == |change| + Required(add)
            && (r.isValid <==>
                  (forall k :: 0 <= k < |change| ==> change[k].isValid) &&
                  (forall k :: 0 <= k < Required(add) ==> add[k].isValid))
            && |r.reset| == |add| - Required(add)
            && (forall k :: 0 <= k < |r.reset| ==> r.reset[k] == |add| - 1 - k)
            && (forall x :: x in r.deleted ==> deletable && x.delete)
            && (!deletable ==> r.deleted == [])
  {
    DeletedOnlyWhenMarked(change, deletable);
    NotDeletableKeepsAll(change);
    PrefixValid(add, Required(add));
  }

  /** The first n outcomes are all valid exactly when each of them is. */
  lemma PrefixValid(s: seq<Outcome>, n: nat)
    requires n <= |s|
    ensures AllOutcomesValid(s[..n]) <==> forall k :: 0 <= k < n ==> s[k].isValid
  {
    assert forall k :: 0 <= k < n ==> s[..n][k] == s[k];
  }

  function Max(a: int, b: int): int { if a <= b then b else a }

  /** Scanning one more add form from the back prepends its entries. */
  lemma ScanStep(add: seq<Outcome>, j: nat, n: nat)
    requires 0 < j <= n <= |add|
    ensures ErrorsOf(add[j - 1..n]) == [add[j - 1].errors] + ErrorsOf(add[j..n])
    ensures ValidCleaned(add[j - 1..n]) == (if add[j - 1].isValid then [add[j - 1].cleaned] else []) + ValidCleaned(add[j..n])
    ensures AllOutcomesValid(add[j - 1..n]) == (add[j - 1].isValid && AllOutcomesValid(add[j..n]))
  {
    var now := add[j - 1..n];
    assert now == [add[j - 1]] + add[j..n];
    assert now[1..] == add[j..n];
  }

  /** The loop of `full_clean` over the change forms. */
  method CleanChangeForms(change: seq<Outcome>, deletable: bool)
    returns (errors: seq<ErrorDict>, cleaned: seq<Cleaned>, deleted: seq<Cleaned>, isValid: bool)
    ensures errors == ErrorsOf(change)
    ensures cleaned == Kept(change, deletable) && deleted == Deleted(change, deletable)
    ensures isValid == AllOutcomesValid(change)
  {
    isValid := true;
    errors := [];
    cleaned := [];
    deleted := [];
    var i := 0;
    while i < |change|
      invariant 0 <= i <= |change|
      invariant errors == ErrorsOf(change[..i])
      invariant cleaned == Kept(change[..i], deletable)
      invariant deleted == Deleted(change[..i], deletable)
      invariant isValid == AllOutcomesValid(change[..i])
    {
      assert change[..i + 1][..i] == change[..i];
      var form := change[i];
      if form.isValid {
        if deletable && form.cleaned.delete {
          deleted := deleted + [form.cleaned];
        } else {
          cleaned := cleaned + [form.cleaned];
        }
      } else {
        isValid := false;
      }
      errors := errors + [form.errors];
      i := i + 1;
    }
    assert change[..i] == change;
  }

  /**
   * The reverse loop of `full_clean` over the add forms: blank forms are reset and skipped
   * until the first non-blank one from the back; from there on every form is validated.
   * Errors and rows come out in scan order, that is, reversed.
   */
  method ScanAddForms(add: seq<Outcome>)
    returns (addErrors: seq<ErrorDict>, addCleaned: seq<Cleaned>, addValid: bool, reset: seq<nat>)
    ensures addErrors == Reverse(ErrorsOf(add[..Required(add)]))
    ensures addCleaned == Reverse(ValidCleaned(add[..Required(add)]))
    ensures addValid == AllOutcomesValid(add[..Required(add)])
    ensures reset == Countdown(|add|, Required(add))
  {
    ghost var n := Required(add);
    var required := false;
    addValid := true;
    addErrors := [];
    addCleaned := [];
    reset := [];
    var j := |add|;
    while j > 0
      invariant 0 <= j <= |add|
      invariant n <= j ==> !required && addErrors == [] && addCleaned == [] && addValid
                           && reset == Countdown(|add|, j)
      invariant j < n ==> required && reset == Countdown(|add|, n) && ScannedFrom(add, j, n, addErrors, addCleaned, addValid)
    {
      var form := add[j - 1];
      if form.isEmpty && !required {
        SkipStep(add, j, n);
        reset := reset + [j - 1];
      } else {
        assert n <= j - 1 ==> form.isEmpty;
        required := true;
        ghost var e0, c0, v0 := addErrors, addCleaned, addValid;
        if form.isValid {
          addCleaned := addCleaned + [form.cleaned];
        } else {
          addValid := false;
        }
        addErrors := addErrors + [form.errors];
        TakeStep(add, j, n, e0, c0, v0);
      }
      j := j - 1;
    }
    if n == 0 {
      assert add[..n] == [];
    }
  }

  /** The entries the reverse scan has collected once it has passed back to form `j`. */
  ghost predicate ScannedFrom(add: seq<Outcome>, j: nat, n: nat,
                               errors: seq<ErrorDict>, cleaned: seq<Cleaned>, valid: bool)
    requires j <= n <= |add|
  {
    && errors == Reverse(ErrorsOf(add[j..n]))
    && cleaned == Reverse(ValidCleaned(add[j..n]))
    && valid == AllOutcomesValid(add[j..n])
  }

  /** Skipping one blank form from the back adds its position to the reset list. */
  lemma SkipStep(add: seq<Outcome>, j: nat, n: nat)
    requires n == Required(add) && n <= j <= |add| && 0 < j && add[j - 1].isEmpty
    ensures n <= j - 1
    ensures Countdown(|add|, j - 1) == Countdown(|add|, j) + [j - 1]
  {
    assert n > 0 ==> !add[n - 1].isEmpty;
    CountdownSnoc(|add|, j);
  }

  /** Counting down one position further appends that position. */
  lemma CountdownSnoc(hi: nat, lo: nat)
    requires 0 < lo <= hi
    ensures Countdown(hi, lo - 1) == Countdown(hi, lo) + [lo - 1]
  {
    var longer := Countdown(hi, lo - 1);
    var shorter := Countdown(hi, lo) + [lo - 1];
    assert |longer| == |shorter|;
    forall k | 0 <= k < |longer|
      ensures longer[k] == shorter[k]
    {
      if k < hi - lo {
        assert shorter[k] == Countdown(hi, lo)[k];
      }
    }
  }

  /** Validating one more form from the back appends its entries in scan order. */
  lemma TakeStep(add: seq<Outcome>, j: nat, n: nat,
                 errors: seq<ErrorDict>, cleaned: seq<Cleaned>, valid: bool)
    requires 0 < j <= n <= |add|
    requires j < n ==> ScannedFrom(add, j, n, errors, cleaned, valid)
    requires j == n ==> errors == [] && cleaned == [] && valid
    ensures ScannedFrom(add, j - 1, n,
                        errors + [add[j - 1].errors],
                        if add[j - 1].isValid then cleaned + [add[j - 1].cleaned] else cleaned,
                        valid && add[j - 1].isValid)
  {
    ScanStep(add, j, n);
    ReverseCons(add[j - 1].errors, ErrorsOf(add[j..n]));
    ReverseCons(add[j - 1].cleaned, ValidCleaned(add[j..n]));
    if j == n {
      assert add[j..n] == [];
    }
    if !add[j - 1].isValid {
      assert [] + ValidCleaned(add[j..n]) == ValidCleaned(add[j..n]);
    }
  }

  /** `full_clean` on a bound formset, up to publishing its results. */
  method CleanForms(change: seq<Outcome>, add: seq<Outcome>, deletable: bool, orderable: bool)
    returns (res: CleanResult)
    ensures res == CleanSpec(change, add, deletable, orderable)
  {
    var errors, cleaned, deleted, isValid := CleanChangeForms(change, deletable);
    var addErrors, addCleaned, addValid, reset := ScanAddForms(add);
    cleaned := cleaned + addCleaned;
    isValid := isValid && addValid;
    ReverseReverse(ErrorsOf(add[..Required(add)]));
    errors := errors + Reverse(addErrors);
    if orderable {
      cleaned := SortByOrder(cleaned);
    }
    res := CleanResult(errors, cleaned, deleted, isValid, reset);
  }

  // ---------------------------------------------------------------------------------
  // Properties of the selection
  // ---------------------------------------------------------------------------------

  /**
   * Errors: one entry per change form, then one per add form up to the last non-blank one,
   * all in form order; the add forms after it are all blank and are the ones reset.
   */
  lemma ErrorsInFormOrder(change: seq<Outcome>, add: seq<Outcome>, deletable: bool, orderable: bool)
    ensures var res := CleanSpec(change, add, deletable, orderable);
            var n := Required(add);
            |res.errors| == |change| + n &&
            (forall k :: 0 <= k < |change| ==> res.errors[k] == change[k].errors) &&
            (forall k :: 0 <= k < n ==> res.errors[|change| + k] == add[k].errors) &&
            (forall k :: n <= k < |add| ==> add[k].isEmpty) &&
            (n > 0 ==> !add[n - 1].isEmpty) &&
            (forall p :: p in res.reset <==> n <= p < |add|)
  {
    var res := CleanSpec(change, add, deletable, orderable);
    var n := Required(add);
    assert res.errors == ErrorsOf(change) + ErrorsOf(add[..n]);
    assert res.reset == Countdown(|add|, n);
    ErrorsOfAppend(change, add[..n]);
    CountdownMembers(|add|, n);
  }

  /** The errors of two runs of forms, one after the other. */
  lemma ErrorsOfAppend(a: seq<Outcome>, b: seq<Outcome>)
    ensures |ErrorsOf(a) + ErrorsOf(b)| == |a| + |b|
    ensures forall k :: 0 <= k < |a| ==> (ErrorsOf(a) + ErrorsOf(b))[k] == a[k].errors
    ensures forall k :: 0 <= k < |b| ==> (ErrorsOf(a) + ErrorsOf(b))[|a| + k] == b[k].errors
  {
    var e := ErrorsOf(a) + ErrorsOf(b);
    forall k | 0 <= k < |b| ensures e[|a| + k] == b[k].errors {
      assert e[|a| + k] == ErrorsOf(b)[k];
    }
  }

  /** The countdown from `hi` to `lo` holds exactly the positions from `lo` up to `hi`. */
  lemma CountdownMembers(hi: nat, lo: nat)
    requires lo <= hi
    ensures forall p :: p in Countdown(hi, lo) <==> lo <= p < hi
  {
    var c := Countdown(hi, lo);
    forall p ensures p in c <==> lo <= p < hi {
      if lo <= p < hi {
        assert c[hi - 1 - p] == p;
      }
    }
  }

  /**
   * Deletion splits the valid change forms: kept and deleted rows together are exactly the rows
   * of the valid change forms.
   */
  lemma {:induction false} KeptAndDeletedPartition(change: seq<Outcome>, deletable: bool)
    ensures multiset(Kept(change, deletable)) + multiset(Deleted(change, deletable))
            == multiset(ValidCleaned(change))
  {
    if change != [] {
      var init := change[..|change| - 1];
      var o := change[|change| - 1];
      var k := if o.isValid && !IsDeleted(o, deletable) then [o.cleaned] else [];
      var d := if IsDeleted(o, deletable) then [o.cleaned] else [];
      var v := if o.isValid then [o.cleaned] else [];
      KeptAndDeletedPartition(init, deletable);
      SplitLast(change, deletable);
      OneFormSplits(o, deletable);
      MultisetsOfAppends(Kept(init, deletable), k, Deleted(init, deletable), d, ValidCleaned(init), v);
    }
  }

  /** Kept, deleted and valid rows, one form at a time from the back. */
  lemma SplitLast(change: seq<Outcome>, deletable: bool)
    requires change != []
    ensures var init, o := change[..|change| - 1], change[|change| - 1];
      && Kept(change, deletable) == Kept(init, deletable) + (if o.isValid && !IsDeleted(o, deletable) then [o.cleaned] else [])
      && Deleted(change, deletable) == Deleted(init, deletable) + (if IsDeleted(o, deletable) then [o.cleaned] else [])
      && ValidCleaned(change) == ValidCleaned(init) + (if o.isValid then [o.cleaned] else [])
  {
    var init, o := change[..|change| - 1], change[|change| - 1];
    ValidCleanedSnoc(init, o);
    assert change == init + [o];
  }

  /** A valid change form's row is either kept or deleted, and an invalid one's is neither. */
  lemma OneFormSplits(o: Outcome, deletable: bool)
    ensures multiset(if o.isValid && !IsDeleted(o, deletable) then [o.cleaned] else [])
            + multiset(if IsDeleted(o, deletable) then [o.cleaned] else [])
            == multiset(if o.isValid then [o.cleaned] else [])
  {
  }

  /** Two splits of multisets combine into a split of the concatenations. */
  lemma MultisetsOfAppends<T>(a: seq<T>, k: seq<T>, b: seq<T>, d: seq<T>, c: seq<T>, v: seq<T>)
    requires multiset(a) + multiset(b) == multiset(c)
    requires multiset(k) + multiset(d) == multiset(v)
    ensures multiset(a + k) + multiset(b + d) == multiset(c + v)
  {
    calc {
      multiset(a + k) + multiset(b + d);
      multiset(a) + multiset(k) + multiset(b) + multiset(d);
      (multiset(a) + multiset(b)) + (multiset(k) + multiset(d));
      multiset(c) + multiset(v);
      multiset(c + v);
    }
  }

  /** A row is deleted only in a deletable formset and only when its DELETE entry is set. */
  lemma {:induction false} DeletedOnlyWhenMarked(change: seq<Outcome>, deletable: bool)
    ensures forall x :: x in Deleted(change, deletable) ==> deletable && x.delete
  {
    if change != [] {
      var init := change[..|change| - 1];
      var o := change[|change| - 1];
      DeletedOnlyWhenMarked(init, deletable);
      assert Deleted(change, deletable) == Deleted(init, deletable) + (if IsDeleted(o, deletable) then [o.cleaned] else []);
    }
  }

  /** A formset that is not deletable deletes nothing and keeps every valid change row. */
  lemma {:induction false} NotDeletableKeepsAll(change: seq<Outcome>)
    ensures Deleted(change, false) == [] && Kept(change, false) == ValidCleaned(change)
  {
    if change != [] {
      var init := change[..|change| - 1];
      var o := change[|change| - 1];
      NotDeletableKeepsAll(init);
      ValidCleanedSnoc(init, o);
      assert change == init + [o];
    }
  }

  lemma {:induction false} ValidCleanedSnoc(s: seq<Outcome>, o: Outcome)
    ensures ValidCleaned(s + [o]) == ValidCleaned(s) + (if o.isValid then [o.cleaned] else [])
  {
    if s == [] {
      assert [] + [o] == [o];
      assert [o][1..] == [];
    } else {
      var head := if s[0].isValid then [s[0].cleaned] else [];
      var last := if o.isValid then [o.cleaned] else [];
      assert (s + [o])[0] == s[0];
      assert (s + [o])[1..] == s[1..] + [o];
      ValidCleanedSnoc(s[1..], o);
      AppendAssoc(head, ValidCleaned(s[1..]), last);
    }
  }

  /** Blank add forms appended after the others do not change which forms are validated. */
  lemma {:induction false} RequiredIgnoresBlankTail(add: seq<Outcome>, blanks: seq<Outcome>)
    requires forall k :: 0 <= k < |blanks| ==> blanks[k].isEmpty
    ensures Required(add + blanks) == Required(add)
  {
    if blanks != [] {
      var init := blanks[..|blanks| - 1];
      assert (add + blanks)[..|add + blanks| - 1] == add + init;
      RequiredIgnoresBlankTail(add, init);
    } else {
      assert add + blanks == add;
    }
  }

  /**
   * Extra blank add forms at the end of a formset change nothing but the list of forms reset:
   * the same errors, the same kept and deleted rows, the same validity.
   */
  lemma BlankExtraFormsChangeNothing(change: seq<Outcome>, add: seq<Outcome>, blanks: seq<Outcome>,
                                     deletable: bool, orderable: bool)
    requires forall k :: 0 <= k < |blanks| ==> blanks[k].isEmpty
    ensures var a := CleanSpec(change, add + blanks, deletable, orderable);
            var b := CleanSpec(change, add, deletable, orderable);
            a.errors == b.errors && a.cleaned == b.cleaned && a.deleted == b.deleted && a.isValid == b.isValid
  {
    RequiredIgnoresBlankTail(add, blanks);
    var n := Required(add);
    assert (add + blanks)[..n] == add[..n];
  }

  /**
   * Ordering: in an orderable formset the published rows are ascending by ORDER, are the
   * same rows as before sorting, and rows with equal ORDER keep their relative order.
   */
  lemma OrderedCleanedData(change: seq<Outcome>, add: seq<Outcome>, deletable: bool, v: int)
    ensures var rows := Kept(change, deletable) + Reverse(ValidCleaned(add[..Required(add)]));
            var res := CleanSpec(change, add, deletable, true);
            SortedByOrder(res.cleaned) && multiset(res.cleaned) == multiset(rows) &&
            WithOrder(res.cleaned, v) == WithOrder(rows, v)
  {
    var rows := Kept(change, deletable) + Reverse(ValidCleaned(add[..Required(add)]));
    SortSortsAndPermutes(rows);
    SortIsStable(rows, v);
  }
}
