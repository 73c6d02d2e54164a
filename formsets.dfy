/**
 * `BaseFormSet` of django/newforms/formsets.py: the form counts derived from bound data,
 * initial data or nothing; the change and add forms and their prefixes; `full_clean`,
 * `is_valid` and `all_valid`. A sub-form is a record of what it was built from, and the form
 * class is the function from that record to what the form's own cleaning reports.
 */
module Formsets {
  import opened Wrappers
  import opened Decimal
  import opened FormClean
  import opened SeqLemmas

  /** The special field names. */
  const FormCountFieldName := "COUNT"
  const OrderingFieldName := "ORDER"
  const DeletionFieldName := "DELETE"

  /** The message of the ValidationError raised for a bad management form. */
  const ManagementFormError := "ManagementForm data is missing or has been tampered with"

  /** Submitted form data or one row of initial data. */
  type Data = map<string, string>

  /** A field of a sub-form: the two kinds the formset adds, and those the form class declares. */
  datatype Field = IntegerField(labelText: string, initial: Option<int>, required: bool)
                 | BooleanField(labelText: string, required: bool)
                 | DeclaredField(kind: string)

  datatype FormError = ValidationError(message: string) | IndexError | AttributeError(name: string)

  /** Python truth of optional data: given and not empty. */
  predicate DataTruthy(d: Option<Data>)
  {
    d.Some? && |d.value| > 0
  }

  predicate InitialTruthy(initial: Option<seq<Data>>)
  {
    initial.Some? && |initial.value| > 0
  }

  datatype Counts = Counts(totalForms: int, requiredForms: int, changeFormCount: int)

  /**
   * The counts `__init__` assigns. `managementCount` is what validating the management form
   * against the data gives: its COUNT, or None when the form is invalid. A bad management form
   * is the only error; there are always `num_extra` more forms than change forms, and as many
   * required forms as change forms; bound data takes its total from the management form;
   * otherwise the change forms are one per initial row, or none.
   */
  function InitCounts(data: Option<Data>, managementCount: Option<int>, initial: Option<seq<Data>>,
                      numExtra: nat): (r: Result<Counts, FormError>)
    ensures r.Err? <==> DataTruthy(data) && managementCount.None?
    ensures r.Err? ==> r.error == ValidationError(ManagementFormError)
    ensures r.Ok? ==> r.value.totalForms == r.value.changeFormCount + numExtra &&
                      r.value.requiredForms == r.value.changeFormCount
    ensures r.Ok? && DataTruthy(data) ==> r.value.totalForms == managementCount.value
    ensures !DataTruthy(data) ==>
              r.Ok? && r.value.changeFormCount == (if InitialTruthy(initial) then |initial.value| else 0)
  {
    if DataTruthy(data) then
      match managementCount
      case Some(count) => Ok(Counts(count, count - numExtra, count - numExtra))
      case None => Err(ValidationError(ManagementFormError))
    else if InitialTruthy(initial) then
      Ok(Counts(|initial.value| + numExtra, |initial.value|, |initial.value|))
    else
      Ok(Counts(numExtra, 0, 0))
  }

  /**
   * An unbound formset renders its management form with COUNT set to its total; submitting
   * that COUNT back with any non-empty data yields the same counts.
   */
  lemma ManagementCountRoundTrip(initial: Option<seq<Data>>, numExtra: nat, submitted: Data)
    requires |submitted| > 0
    ensures var shown := InitCounts(None, None, initial, numExtra).value;
            InitCounts(Some(submitted), Some(shown.totalForms), initial, numExtra) == Ok(shown)
  {
  }

  /** `prefix or 'form'`. */
  function FormsetPrefix(prefix: Option<string>): (r: string)
    ensures prefix.Some? && prefix.value != "" ==> r == prefix.value
    ensures prefix.None? || prefix.value == "" ==> r == "form"
  {
    if prefix.Some? && prefix.value != "" then prefix.value else "form"
  }

  /** `add_prefix`: `'%s-%s' % (prefix, index)`. */
  function AddPrefix(prefix: string, index: int): string
  {
    prefix + "-" + IntToString(index)
  }

  /** A form prefix is the formset prefix, a dash, and decimal text that reads back as the index. */
  lemma AddPrefixReadsBack(prefix: string, index: int)
    ensures var r := AddPrefix(prefix, index);
            |r| > |prefix| + 1 && r[..|prefix| + 1] == prefix + "-" &&
            var d := r[|prefix| + 1..];
            |d| > 0 && (d[0] == '-' ==> |d| > 1 && AllDigits(d[1..])) && (d[0] != '-' ==> AllDigits(d)) &&
            ParseInt(d) == index
  {
    ParseIntToString(index);
    var r := AddPrefix(prefix, index);
    assert r[|prefix| + 1..] == IntToString(index);
    assert r[..|prefix| + 1] == prefix + "-";
  }

  /** Different indices give different prefixes, so no two forms of a formset share one. */
  lemma AddPrefixInjective(prefix: string, i: int, j: int)
    ensures AddPrefix(prefix, i) == AddPrefix(prefix, j) ==> i == j
  {
    if AddPrefix(prefix, i) == AddPrefix(prefix, j) {
      var a := AddPrefix(prefix, i);
      var b := AddPrefix(prefix, j);
      assert a[|prefix| + 1..] == IntToString(i);
      assert b[|prefix| + 1..] == IntToString(j);
      IntToStringInjective(i, j);
    }
  }

  /** The field dictionary of form `index` after `add_fields`. */
  function WithFormsetFields(fields: map<string, Field>, index: int, orderable: bool, deletable: bool)
    : (r: map<string, Field>)
    ensures orderable ==> OrderingFieldName in r && r[OrderingFieldName] == IntegerField("Order", Some(index + 1), true)
    ensures deletable ==> DeletionFieldName in r && r[DeletionFieldName] == BooleanField("Delete", false)
    ensures r.Keys == fields.Keys + (if orderable then {OrderingFieldName} else {})
                                  + (if deletable then {DeletionFieldName} else {})
    ensures forall k :: k in fields && !(orderable && k == OrderingFieldName) && !(deletable && k == DeletionFieldName)
              ==> r[k] == fields[k]
  {
    var withOrder := if orderable then fields[OrderingFieldName := IntegerField("Order", Some(index + 1), true)] else fields;
    if deletable then withOrder[DeletionFieldName := BooleanField("Delete", false)] else withOrder
  }

  /** A sub-form: the keyword arguments it was built with and its fields after `add_fields`. */
  datatype FormSpec = FormSpec(prefix: string, autoId: string, data: Option<Data>, initial: Option<Data>,
                               fields: map<string, Field>)

  /** The form class: its declared fields, and what its cleaning reports for a form built from a record. */
  datatype FormClass = FormClass(baseFields: map<string, Field>, behaviour: FormSpec -> Outcome)

  /** The management form: bound to the data, or unbound with COUNT as its initial value. */
  datatype ManagementForm = BoundManagement(data: Data, prefix: string)
                          | InitialManagement(count: int, prefix: string)

  /**
   * The attributes `full_clean` may set: `errors`, `_BaseFormSet__errors`, `cleaned_data`,
   * `deleted_data`, `_is_valid` (None while unset) and the positions of the reset add forms.
   */
  datatype CleanState = CleanState(errors: Option<seq<ErrorDict>>, mangledErrors: Option<seq<ErrorDict>>,
                                   cleanedData: Option<seq<Cleaned>>, deletedData: Option<seq<Cleaned>>,
                                   isValidFlag: Option<bool>, resetForms: seq<nat>)

  class FormSet {
    const formClass: FormClass
    const numExtra: nat
    const orderable: bool
    const deletable: bool
    const isBound: bool
    const prefix: string
    const autoId: string
    const data: Option<Data>
    const initial: Option<seq<Data>>
    const totalForms: int
    const requiredForms: int
    const changeFormCount: int
    const managementForm: ManagementForm
    /** `self.errors`. */
    var errors: Option<seq<ErrorDict>>
    /** `self.__errors`, which Python stores as `_BaseFormSet__errors`. */
    var mangledErrors: Option<seq<ErrorDict>>
    var cleanedData: Option<seq<Cleaned>>
    var deletedData: Option<seq<Cleaned>>
    /** `self._is_valid`; None while the attribute does not exist. */
    var isValidFlag: Option<bool>
    /** Positions, among the add forms, of the forms the last `full_clean` reset. */
    var resetForms: seq<nat>

    /** `__init__`, for inputs on which it does not raise. */
    constructor(formClass: FormClass, numExtra: nat, orderable: bool, deletable: bool,
                data: Option<Data>, autoId: string, prefix: Option<string>, initial: Option<seq<Data>>,
                managementCount: Option<int>)
      requires InitCounts(data, managementCount, initial, numExtra).Ok?
      ensures this.formClass == formClass && this.numExtra == numExtra
      ensures this.orderable == orderable && this.deletable == deletable
      ensures isBound == data.Some? && this.data == data && this.initial == initial
      ensures this.autoId == autoId && this.prefix == FormsetPrefix(prefix)
      ensures InitCounts(data, managementCount, initial, numExtra)
              == Ok(Counts(totalForms, requiredForms, changeFormCount))
      ensures managementForm == if DataTruthy(data) then BoundManagement(data.value, this.prefix)
                                else InitialManagement(totalForms, this.prefix)
      ensures errors.None? && mangledErrors.None? && cleanedData.None? && deletedData.None?
      ensures isValidFlag.None? && resetForms == []
    {
      this.formClass := formClass;
      this.numExtra := numExtra;
      this.orderable := orderable;
      this.deletable := deletable;
      isBound := data.Some?;
      var p := if prefix.Some? && prefix.value != "" then prefix.value else "form";
      this.prefix := p;
      this.autoId := autoId;
      this.data := data;
      this.initial := initial;
      if data.Some? && |data.value| > 0 {
        var count := managementCount.value;
        totalForms := count;
        requiredForms := count - numExtra;
        changeFormCount := count - numExtra;
        managementForm := BoundManagement(data.value, p);
      } else if initial.Some? && |initial.value| > 0 {
        changeFormCount := |initial.value|;
        requiredForms := |initial.value|;
        totalForms := |initial.value| + numExtra;
        managementForm := InitialManagement(|initial.value| + numExtra, p);
      } else {
        changeFormCount := 0;
        requiredForms := 0;
        totalForms := numExtra;
        managementForm := InitialManagement(numExtra, p);
      }
      errors := None;
      mangledErrors := None;
      cleanedData := None;
      deletedData := None;
      isValidFlag := None;
      resetForms := [];
    }

    /** `__init__`: raises ValidationError when the data come with a bad management form. */
    static method Create(formClass: FormClass, numExtra: nat, orderable: bool, deletable: bool,
                         data: Option<Data>, autoId: string, prefix: Option<string>,
                         initial: Option<seq<Data>>, managementCount: Option<int>)
      returns (r: Result<FormSet, FormError>)
      ensures r.Err? <==> InitCounts(data, managementCount, initial, numExtra).Err?
      ensures r.Err? ==> r.error == ValidationError(ManagementFormError)
      ensures r.Ok? ==> fresh(r.value) && r.value.isBound == data.Some? &&
                        InitCounts(data, managementCount, initial, numExtra)
                        == Ok(Counts(r.value.totalForms, r.value.requiredForms, r.value.changeFormCount)) &&
                        r.value.isValidFlag.None?
    {
      if InitCounts(data, managementCount, initial, numExtra).Err? {
        return Err(ValidationError(ManagementFormError));
      }
      var fs := new FormSet(formClass, numExtra, orderable, deletable, data, autoId, prefix, initial,
                            managementCount);
      return Ok(fs);
    }

    /** The counts are those `__init__` derives from the data, the initial rows and `num_extra`. */
    ghost predicate CountsConsistent()
    {
      exists managementCount: Option<int> ::
        InitCounts(data, managementCount, initial, numExtra) == Ok(Counts(totalForms, requiredForms, changeFormCount))
    }

    /** The keyword arguments of form `index`, and `add_fields` applied to its fields. */
    function NewForm(index: int, row: Option<Data>): (f: FormSpec)
      ensures f.prefix == AddPrefix(prefix, index) && f.autoId == autoId && f.initial == row
      ensures f.data == if DataTruthy(data) then data else None
      ensures f.fields == WithFormsetFields(formClass.baseFields, index, orderable, deletable)
    {
      FormSpec(AddPrefix(prefix, index), autoId, if DataTruthy(data) then data else None, row,
               WithFormsetFields(formClass.baseFields, index, orderable, deletable))
    }

    /**
     * The change forms, indices 0 to `change_form_count` - 1, each with its initial row when
     * there is initial data; indexing the initial rows raises when there are fewer of them.
     */
    function ChangeFormList(): (r: Result<seq<FormSpec>, FormError>)
      ensures r.Err? <==> InitialTruthy(initial) && changeFormCount > |initial.value|
      ensures r.Err? ==> r.error == IndexError
      ensures r.Ok? ==> |r.value| == Max(changeFormCount, 0) &&
                        forall i :: 0 <= i < |r.value| ==>
                          r.value[i] == NewForm(i, if InitialTruthy(initial) then Some(initial.value[i]) else None)
    {
      if InitialTruthy(initial) && changeFormCount > |initial.value| then Err(IndexError)
      else Ok(seq(Max(changeFormCount, 0), i requires 0 <= i < Max(changeFormCount, 0) =>
                  NewForm(i, if InitialTruthy(initial) then Some(initial.value[i]) else None)))
    }

    /** The add forms, indices `change_form_count` to `total_forms` - 1, without initial rows. */
    function AddFormList(): (r: seq<FormSpec>)
      ensures |r| == Max(totalForms - changeFormCount, 0)
      ensures forall k :: 0 <= k < |r| ==> r[k] == NewForm(changeFormCount + k, None)
    {
      seq(Max(totalForms - changeFormCount, 0), k requires 0 <= k < Max(totalForms - changeFormCount, 0) =>
          NewForm(changeFormCount + k, None))
    }

    /** `forms`: the change forms followed by the add forms. */
    function FormList(): Result<seq<FormSpec>, FormError>
    {
      match ChangeFormList()
      case Err(e) => Err(e)
      case Ok(change) => Ok(change + AddFormList())
    }

    /**
     * The index form i of `forms` is built with: i itself, except that a negative
     * `change_form_count` (a bound formset whose COUNT is below `num_extra`) leaves no change
     * forms and starts the add forms at that negative index.
     */
    function FormIndex(i: int): int
    {
      if changeFormCount < 0 then changeFormCount + i else i
    }

    /** Form i of `forms` carries the prefix of index `FormIndex(i)`. */
    lemma FormPrefixes()
      requires ChangeFormList().Ok?
      ensures |FormList().value| == Max(changeFormCount, 0) + Max(totalForms - changeFormCount, 0)
      ensures forall i :: 0 <= i < |FormList().value| ==> FormList().value[i].prefix == AddPrefix(prefix, FormIndex(i))
    {
      var forms := FormList().value;
      var c := Max(changeFormCount, 0);
      forall i | 0 <= i < |forms| ensures forms[i].prefix == AddPrefix(prefix, FormIndex(i)) {
        if i >= c {
          assert forms[i] == AddFormList()[i - c];
        }
      }
    }

    /**
     * `forms` fails exactly when `change_forms` does; otherwise it holds
     * `max(change_form_count, 0) + max(total_forms - change_form_count, 0)` forms, form i with
     * prefix `prefix-FormIndex(i)`, no two sharing a prefix; when
     * `0 <= change_form_count <= total_forms` these are `total_forms` forms, form i prefixed `prefix-i`.
     */
    lemma FormIndexRanges()
      ensures FormList().Ok? <==> ChangeFormList().Ok?
      ensures FormList().Ok? ==> |FormList().value| == Max(changeFormCount, 0) + Max(totalForms - changeFormCount, 0)
      ensures FormList().Ok? ==>
                forall i :: 0 <= i < |FormList().value| ==> FormList().value[i].prefix == AddPrefix(prefix, FormIndex(i))
      ensures FormList().Ok? ==>
                forall i, j :: 0 <= i < j < |FormList().value| ==> FormList().value[i].prefix != FormList().value[j].prefix
      ensures FormList().Ok? && 0 <= changeFormCount <= totalForms ==>
                |FormList().value| == totalForms &&
                forall i :: 0 <= i < totalForms ==> FormList().value[i].prefix == AddPrefix(prefix, i)
    {
      if ChangeFormList().Ok? {
        FormPrefixes();
        var forms := FormList().value;
        forall i, j | 0 <= i < j < |forms| ensures forms[i].prefix != forms[j].prefix {
          AddPrefixInjective(prefix, FormIndex(i), FormIndex(j));
        }
      }
    }

    /** A formset built without data has exactly its initial rows as change forms: indexing never fails. */
    lemma UnboundChangeFormsExist()
      requires CountsConsistent() && !DataTruthy(data)
      ensures ChangeFormList().Ok?
      ensures |ChangeFormList().value| == (if InitialTruthy(initial) then |initial.value| else 0)
    {
    }

    /** `change_forms`. */
    method ChangeForms() returns (r: Result<seq<FormSpec>, FormError>)
      ensures r == ChangeFormList()
    {
      var forms: seq<FormSpec> := [];
      var i := 0;
      while i < changeFormCount
        invariant 0 <= i <= Max(changeFormCount, 0)
        invariant InitialTruthy(initial) ==> i <= |initial.value|
        invariant |forms| == i
        invariant forall k :: 0 <= k < i ==>
                    forms[k] == NewForm(k, if InitialTruthy(initial) then Some(initial.value[k]) else None)
      {
        var row: Option<Data> := None;
        if initial.Some? && |initial.value| > 0 {
          if i >= |initial.value| {
            return Err(IndexError);
          }
          row := Some(initial.value[i]);
        }
        forms := forms + [NewForm(i, row)];
        i := i + 1;
      }
      assert ChangeFormList().Ok?;
      assert forms == ChangeFormList().value;
      return Ok(forms);
    }

    /** `add_forms`. */
    method AddForms() returns (forms: seq<FormSpec>)
      ensures forms == AddFormList()
    {
      forms := [];
      var i := changeFormCount;
      while i < totalForms
        invariant changeFormCount <= i
        invariant i < totalForms ==> |forms| == i - changeFormCount
        invariant i >= totalForms ==> |forms| == Max(totalForms - changeFormCount, 0)
        invariant forall k :: 0 <= k < |forms| ==> forms[k] == NewForm(changeFormCount + k, None)
      {
        forms := forms + [NewForm(i, None)];
        i := i + 1;
      }
    }

    /** `forms`. */
    method Forms() returns (r: Result<seq<FormSpec>, FormError>)
      ensures r == FormList()
    {
      var change := ChangeForms();
      if change.Err? {
        return Err(change.error);
      }
      var add := AddForms();
      return Ok(change.value + add);
    }

    /** What the form class reports for each form. */
    function Outcomes(forms: seq<FormSpec>): (r: seq<Outcome>)
      ensures |r| == |forms| && forall k :: 0 <= k < |forms| ==> r[k] == formClass.behaviour(forms[k])
    {
      seq(|forms|, k requires 0 <= k < |forms| => formClass.behaviour(forms[k]))
    }

    /** The selection `full_clean` makes for a bound formset, or the error building the change forms raises. */
    function Selection(): Result<CleanResult, FormError>
    {
      match ChangeFormList()
      case Err(e) => Err(e)
      case Ok(change) => Ok(CleanSpec(Outcomes(change), Outcomes(AddFormList()), deletable, orderable))
    }

    /** What `is_valid` should answer: an unbound formset is not valid. */
    function Validity(): Result<bool, FormError>
    {
      if !isBound then Ok(false)
      else match Selection()
        case Err(e) => Err(e)
        case Ok(res) => Ok(res.isValid)
    }

    /**
     * The selection fails, with IndexError, exactly when building the change forms does;
     * otherwise it has one errors entry per validated form and is valid iff every change form
     * and every add form up to the last non-blank one is.
     */
    lemma SelectionShape()
      ensures Selection().Err? <==> ChangeFormList().Err?
      ensures Selection().Err? ==> Selection().error == IndexError
      ensures Selection().Ok? ==> |Selection().value.errors| == |ChangeFormList().value| + Required(Outcomes(AddFormList()))
      ensures Selection().Ok? ==>
                (Selection().value.isValid <==>
                   (forall k :: 0 <= k < |ChangeFormList().value| ==> formClass.behaviour(ChangeFormList().value[k]).isValid) &&
                   (forall k :: 0 <= k < Required(Outcomes(AddFormList())) ==> formClass.behaviour(AddFormList()[k]).isValid))
    {
      if ChangeFormList().Ok? {
        CleanSpecShape(Outcomes(ChangeFormList().value), Outcomes(AddFormList()), deletable, orderable);
      }
    }

    /**
     * `is_valid`, corrected: an unbound formset is not valid; a bound one raises IndexError when
     * its change forms cannot be built, and otherwise is valid iff every validated form is.
     */
    lemma ValidityMeaning()
      ensures !isBound ==> Validity() == Ok(false)
      ensures isBound && ChangeFormList().Err? ==> Validity() == Err(IndexError)
      ensures isBound && ChangeFormList().Ok? ==>
                (Validity() == Ok(true) <==>
                   (forall k :: 0 <= k < |ChangeFormList().value| ==> formClass.behaviour(ChangeFormList().value[k]).isValid) &&
                   (forall k :: 0 <= k < Required(Outcomes(AddFormList())) ==> formClass.behaviour(AddFormList()[k]).isValid))
    {
      SelectionShape();
    }

    /** The attributes `full_clean` may set. */
    function State(): CleanState
      reads this
    {
      CleanState(errors, mangledErrors, cleanedData, deletedData, isValidFlag, resetForms)
    }

    /**
     * The attributes after `full_clean` on a bound formset, from those before: unchanged when
     * building the change forms raises; otherwise the errors, the validity and the reset forms
     * are recorded, and `cleaned_data` and `deleted_data` only when every validated form is valid.
     */
    function CleanedBound(s: CleanState): CleanState
    {
      match Selection()
      case Err(_) => s
      case Ok(res) =>
        s.(errors := Some(res.errors), isValidFlag := Some(res.isValid), resetForms := res.reset,
           cleanedData := if res.isValid then Some(res.cleaned) else s.cleanedData,
           deletedData := if res.isValid then Some(res.deleted) else s.deletedData)
    }

    /**
     * The attributes after `full_clean` as written: an unbound formset only stores the empty
     * error list under the mangled name `_BaseFormSet__errors`.
     */
    function CleanedAsWritten(s: CleanState): CleanState
    {
      if !isBound then s.(mangledErrors := Some([])) else CleanedBound(s)
    }

    /** The attributes after the corrected `full_clean`: an unbound formset has no errors and is not valid. */
    function CleanedState(s: CleanState): CleanState
    {
      if !isBound then s.(errors := Some([]), isValidFlag := Some(false)) else CleanedBound(s)
    }

    /** The exception `full_clean` raises: only building the change forms of a bound formset can raise. */
    function CleanError(): Option<FormError>
    {
      if isBound && Selection().Err? then Some(Selection().error) else None
    }

    /**
     * What `is_valid` as written answers from the attributes before it runs: the exception of
     * `full_clean`, or `_is_valid` as `full_clean` leaves it, AttributeError when it is unset.
     */
    function ValidityAsWritten(s: CleanState): Result<bool, FormError>
    {
      if CleanError().Some? then Err(CleanError().value)
      else match CleanedAsWritten(s).isValidFlag
        case None => Err(AttributeError("_is_valid"))
        case Some(b) => Ok(b)
    }

    /** Cleaning again changes nothing more, in both versions. */
    lemma CleanIdempotent(s: CleanState)
      ensures CleanedState(CleanedState(s)) == CleanedState(s)
      ensures CleanedAsWritten(CleanedAsWritten(s)) == CleanedAsWritten(s)
    {
    }

    /**
     * A bound formset is cleaned alike by both versions, and its answer is `Validity()`;
     * an unbound one answers, as written, whatever `_is_valid` already held.
     */
    lemma AsWrittenAgreesWhenBound(s: CleanState)
      ensures isBound ==> CleanedAsWritten(s) == CleanedState(s) && ValidityAsWritten(s) == Validity()
      ensures !isBound ==> ValidityAsWritten(s) == if s.isValidFlag.Some? then Ok(s.isValidFlag.value)
                                                   else Err(AttributeError("_is_valid"))
    {
    }

    /** Cleaning as written does not change what `is_valid` as written answers next. */
    lemma ValidityAsWrittenStable(s: CleanState)
      ensures ValidityAsWritten(CleanedAsWritten(s)) == ValidityAsWritten(s)
    {
    }

    /**
     * After cleaning, `_is_valid` holds `Validity()`; a valid bound formset exposes the rows
     * of its selection as `cleaned_data` and `deleted_data`, and every formset its errors.
     */
    lemma CleanedStateRecordsValidity(s: CleanState)
      ensures Validity().Ok? ==> CleanedState(s).isValidFlag == Some(Validity().value)
      ensures isBound && Selection().Ok? ==> CleanedState(s).errors == Some(Selection().value.errors)
      ensures isBound && Validity() == Ok(true) ==>
                CleanedState(s).cleanedData == Some(Selection().value.cleaned) &&
                CleanedState(s).deletedData == Some(Selection().value.deleted)
      ensures !isBound ==> CleanedState(s).errors == Some([])
    {
    }

    /** `full_clean` on a bound formset. */
    method CleanBound() returns (err: Option<FormError>)
      requires isBound
      modifies this
      ensures err == CleanError()
      ensures State() == CleanedBound(old(State()))
    {
      var change := ChangeForms();
      if change.Err? {
        return Some(change.error);
      }
      var add := AddForms();
      var res := CleanForms(Outcomes(change.value), Outcomes(add), deletable, orderable);
      resetForms := res.reset;
      if res.isValid {
        cleanedData := Some(res.cleaned);
        deletedData := Some(res.deleted);
      }
      errors := Some(res.errors);
      isValidFlag := Some(res.isValid);
      return None;
    }

    /**
     * `full_clean` as written: on an unbound formset it stores the empty error list under the
     * mangled name and sets neither `errors` nor `_is_valid`.
     */
    method FullCleanAsWritten() returns (err: Option<FormError>)
      modifies this
      ensures err == CleanError()
      ensures State() == CleanedAsWritten(old(State()))
    {
      if !isBound {
        mangledErrors := Some([]);
        return None;
      }
      err := CleanBound();
    }

    /** `full_clean` as intended: an unbound formset has no errors and is not valid. */
    method FullClean() returns (err: Option<FormError>)
      modifies this
      ensures err == CleanError()
      ensures State() == CleanedState(old(State()))
    {
      if !isBound {
        errors := Some([]);
        isValidFlag := Some(false);
        return None;
      }
      err := CleanBound();
    }

    /**
     * `is_valid` as written: on an unbound formset `_is_valid` was never set, so reading it
     * raises AttributeError unless something else set it before.
     */
    method IsValidAsWritten() returns (r: Result<bool, FormError>)
      modifies this
      ensures r == ValidityAsWritten(old(State()))
      ensures State() == CleanedAsWritten(old(State()))
    {
      var err := FullCleanAsWritten();
      if err.Some? {
        return Err(err.value);
      }
      match isValidFlag {
        case None => return Err(AttributeError("_is_valid"));
        case Some(b) => return Ok(b);
      }
    }

    /** `is_valid` as intended: the validity `full_clean` computes, false for an unbound formset. */
    method IsValid() returns (r: Result<bool, FormError>)
      modifies this
      ensures r == Validity()
      ensures State() == CleanedState(old(State()))
    {
      var err := FullClean();
      if err.Some? {
        return Err(err.value);
      }
      return Ok(isValidFlag.value);
    }
  }

  /** A formset built without data, asked whether it is valid, raises AttributeError. */
  method UnboundIsValidRaises(formClass: FormClass, numExtra: nat, initial: Option<seq<Data>>)
    returns (r: Result<bool, FormError>)
    ensures r == Err(AttributeError("_is_valid"))
  {
    var fs := new FormSet(formClass, numExtra, false, false, None, "id_%s", None, initial, None);
    r := fs.IsValidAsWritten();
  }

  /** With the intended `full_clean`, the same formset answers that it is not valid. */
  method UnboundIsNotValid(formClass: FormClass, numExtra: nat, initial: Option<seq<Data>>)
    returns (r: Result<bool, FormError>)
    ensures r == Ok(false)
  {
    var fs := new FormSet(formClass, numExtra, false, false, None, "id_%s", None, initial, None);
    r := fs.IsValid();
  }

  /** The attributes `full_clean` may set, of each formset. */
  function States(formsets: seq<FormSet>): (r: seq<CleanState>)
    reads set f | f in formsets
    ensures |r| == |formsets| && forall k :: 0 <= k < |r| ==> r[k] == formsets[k].State()
  {
    if formsets == [] then [] else [formsets[0].State()] + States(formsets[1..])
  }

  /** What the corrected `is_valid` answers for each formset. */
  function Verdicts(formsets: seq<FormSet>): (r: seq<Result<bool, FormError>>)
    ensures |r| == |formsets| && forall k :: 0 <= k < |r| ==> r[k] == formsets[k].Validity()
  {
    seq(|formsets|, k requires 0 <= k < |formsets| => formsets[k].Validity())
  }

  /** What `is_valid` as written answers for each formset, from the attributes each holds. */
  function VerdictsAsWritten(formsets: seq<FormSet>, states: seq<CleanState>): (r: seq<Result<bool, FormError>>)
    requires |states| == |formsets|
    ensures |r| == |formsets| && forall k :: 0 <= k < |r| ==> r[k] == formsets[k].ValidityAsWritten(states[k])
  {
    seq(|formsets|, k requires 0 <= k < |formsets| => formsets[k].ValidityAsWritten(states[k]))
  }

  /** The answer of `all_valid`: the first formset that is not valid decides, an error propagates. */
  function FirstVerdict(vs: seq<Result<bool, FormError>>): Result<bool, FormError>
  {
    if vs == [] then Ok(true)
    else match vs[0]
      case Err(e) => Err(e)
      case Ok(v) => if !v then Ok(false) else FirstVerdict(vs[1..])
  }

  /** How many formsets `all_valid` asks: up to and including the first that is not valid or raises. */
  function Consulted(vs: seq<Result<bool, FormError>>): (n: nat)
    ensures n <= |vs|
  {
    if vs == [] then 0 else if vs[0] == Ok(true) then 1 + Consulted(vs[1..]) else 1
  }

  /**
   * `all_valid` asks every formset before the first one that is not valid or raises, and that
   * one, and answers what the last one asked answered; the later formsets are not asked.
   */
  lemma {:induction false} ConsultedPrefix(vs: seq<Result<bool, FormError>>)
    ensures Consulted(vs) <= |vs| && (vs != [] ==> Consulted(vs) > 0)
    ensures forall j :: 0 <= j < Consulted(vs) - 1 ==> vs[j] == Ok(true)
    ensures Consulted(vs) < |vs| ==> vs[Consulted(vs) - 1] != Ok(true)
    ensures vs != [] ==> FirstVerdict(vs) == vs[Consulted(vs) - 1]
  {
    if vs != [] && vs[0] == Ok(true) {
      var tail := vs[1..];
      ConsultedPrefix(tail);
      assert forall j :: 1 <= j < |vs| ==> vs[j] == tail[j - 1];
      if tail == [] {
        assert Consulted(vs) == 1;
      } else {
        assert vs[Consulted(vs) - 1] == tail[Consulted(tail) - 1];
      }
    }
  }

  /** `all_valid` answers true iff every formset is valid. */
  lemma {:induction false} AllValidTrue(vs: seq<Result<bool, FormError>>)
    ensures FirstVerdict(vs) == Ok(true) <==> forall i :: 0 <= i < |vs| ==> vs[i] == Ok(true)
  {
    if vs != [] {
      var tail := vs[1..];
      AllValidTrue(tail);
      assert forall i :: 1 <= i < |vs| ==> vs[i] == tail[i - 1];
    }
  }

  /**
   * `all_valid` answers false when some formset is not valid and all before it are: the
   * formsets after the first invalid one are not consulted.
   */
  lemma {:induction false} AllValidFalse(vs: seq<Result<bool, FormError>>, i: nat)
    requires i < |vs| && vs[i] == Ok(false)
    requires forall j :: 0 <= j < i ==> vs[j] == Ok(true)
    ensures FirstVerdict(vs) == Ok(false)
  {
    if i > 0 {
      var tail := vs[1..];
      assert forall j :: 0 <= j < i - 1 ==> tail[j] == vs[j + 1];
      AllValidFalse(tail, i - 1);
    }
  }

  /** When `all_valid` answers false, there is a first formset that is not valid. */
  lemma {:induction false} AllValidFalseWitness(vs: seq<Result<bool, FormError>>) returns (i: nat)
    requires FirstVerdict(vs) == Ok(false)
    ensures i < |vs| && vs[i] == Ok(false)
    ensures forall j :: 0 <= j < i ==> vs[j] == Ok(true)
  {
    if vs[0] == Ok(false) {
      i := 0;
    } else {
      var tail := vs[1..];
      var k := AllValidFalseWitness(tail);
      i := k + 1;
      assert forall j :: 1 <= j < i ==> vs[j] == tail[j - 1];
    }
  }

  /** Asking the verdict at i either decides `all_valid` there or passes on to the next one. */
  lemma VerdictStep(vs: seq<Result<bool, FormError>>, i: nat)
    requires i < |vs|
    ensures FirstVerdict(vs[i..]) == if vs[i] == Ok(true) then FirstVerdict(vs[i + 1..]) else vs[i]
    ensures Consulted(vs[i..]) == if vs[i] == Ok(true) then 1 + Consulted(vs[i + 1..]) else 1
  {
    assert vs[i..][0] == vs[i];
    assert vs[i..][1..] == vs[i + 1..];
  }

  /**
   * The attributes formset k holds once `all_valid` has asked the first n formsets: those
   * cleaning leaves (as written, or corrected) if it is one of them, those it held before otherwise.
   */
  function AfterAsking(formsets: seq<FormSet>, before: seq<CleanState>, n: nat, k: nat, asWritten: bool): CleanState
    requires |before| == |formsets| && n <= |formsets| && k < |formsets|
  {
    if formsets[k] !in formsets[..n] then before[k]
    else if asWritten then formsets[k].CleanedAsWritten(before[k])
    else formsets[k].CleanedState(before[k])
  }

  /**
   * One step of `all_valid` with the corrected `is_valid`: asking formset i answers its verdict and
   * moves the attributes of every formset from "the first i asked" to "the first i + 1 asked".
   */
  method AskValid(formsets: seq<FormSet>, ghost before: seq<CleanState>, i: nat) returns (v: Result<bool, FormError>)
    requires |before| == |formsets| && i < |formsets|
    requires forall k :: 0 <= k < |formsets| ==> formsets[k].State() == AfterAsking(formsets, before, i, k, false)
    modifies formsets[i]
    ensures v == formsets[i].Validity()
    ensures forall k :: 0 <= k < |formsets| ==> formsets[k].State() == AfterAsking(formsets, before, i + 1, k, false)
  {
    formsets[i].CleanIdempotent(before[i]);
    label Asking:
    v := formsets[i].IsValid();
    forall k | 0 <= k < |formsets|
      ensures formsets[k].State() == AfterAsking(formsets, before, i + 1, k, false)
    {
      InPrefixSnoc(formsets, i, formsets[k]);
      if formsets[k] != formsets[i] {
        assert formsets[k].State() == old@Asking(formsets[k].State());
      }
    }
  }

  /** One step of `all_valid` as written, with `is_valid` as written. */
  method AskValidAsWritten(formsets: seq<FormSet>, ghost before: seq<CleanState>, i: nat) returns (v: Result<bool, FormError>)
    requires |before| == |formsets| && i < |formsets|
    requires forall k :: 0 <= k < |formsets| ==> formsets[k].State() == AfterAsking(formsets, before, i, k, true)
    modifies formsets[i]
    ensures v == formsets[i].ValidityAsWritten(before[i])
    ensures forall k :: 0 <= k < |formsets| ==> formsets[k].State() == AfterAsking(formsets, before, i + 1, k, true)
  {
    formsets[i].CleanIdempotent(before[i]);
    formsets[i].ValidityAsWrittenStable(before[i]);
    label Asking:
    v := formsets[i].IsValidAsWritten();
    forall k | 0 <= k < |formsets|
      ensures formsets[k].State() == AfterAsking(formsets, before, i + 1, k, true)
    {
      InPrefixSnoc(formsets, i, formsets[k]);
      if formsets[k] != formsets[i] {
        assert formsets[k].State() == old@Asking(formsets[k].State());
      }
    }
  }

  /** `all_valid` with the corrected `is_valid`: each formset in turn, stopping at the first that is not valid. */
  method AllValid(formsets: seq<FormSet>) returns (r: Result<bool, FormError>)
    modifies set f | f in formsets
    ensures r == FirstVerdict(Verdicts(formsets))
    ensures forall k :: 0 <= k < |formsets| ==>
              formsets[k].State() == AfterAsking(formsets, old(States(formsets)), Consulted(Verdicts(formsets)), k, false)
  {
    ghost var vs := Verdicts(formsets);
    ghost var before := States(formsets);
    var i := 0;
    while i < |formsets|
      invariant 0 <= i <= |formsets|
      invariant FirstVerdict(vs[i..]) == FirstVerdict(vs)
      invariant Consulted(vs) == i + Consulted(vs[i..])
      invariant forall k :: 0 <= k < |formsets| ==> formsets[k].State() == AfterAsking(formsets, before, i, k, false)
    {
      VerdictStep(vs, i);
      var v := AskValid(formsets, before, i);
      if v != Ok(true) {
        assert Consulted(vs) == i + 1;
        return v;
      }
      i := i + 1;
    }
    return Ok(true);
  }

  /** `all_valid` as written: `is_valid` as written on each formset in turn. */
  method AllValidAsWritten(formsets: seq<FormSet>) returns (r: Result<bool, FormError>)
    modifies set f | f in formsets
    ensures r == FirstVerdict(VerdictsAsWritten(formsets, old(States(formsets))))
    ensures forall k :: 0 <= k < |formsets| ==>
              formsets[k].State()
              == AfterAsking(formsets, old(States(formsets)), Consulted(VerdictsAsWritten(formsets, old(States(formsets)))), k, true)
  {
    ghost var before := States(formsets);
    ghost var vs := VerdictsAsWritten(formsets, before);
    var i := 0;
    while i < |formsets|
      invariant 0 <= i <= |formsets|
      invariant FirstVerdict(vs[i..]) == FirstVerdict(vs)
      invariant Consulted(vs) == i + Consulted(vs[i..])
      invariant forall k :: 0 <= k < |formsets| ==> formsets[k].State() == AfterAsking(formsets, before, i, k, true)
    {
      VerdictStep(vs, i);
      var v := AskValidAsWritten(formsets, before, i);
      if v != Ok(true) {
        assert Consulted(vs) == i + 1;
        return v;
      }
      i := i + 1;
    }
    return Ok(true);
  }
}
