/**
 * The transaction entry form: the categories it offers for the chosen type,
 * the default-category reset, amount sanitising, field validation with one
 * message per field, and the add-or-update dispatch on submit.
 */
module EntryForm {
  import opened Wrappers
  import opened Seqs
  import opened Text
  import opened Ledger
  import opened LedgerStore

  /** The amount field: the initial number until the user types, then the sanitised text. */
  datatype AmountValue = NumberValue(n: real) | TextValue(text: string)

  datatype FormValues = FormValues(amount: AmountValue, description: string, category: string, date: Date, kind: TxType)

  /** One message per checked field; the empty string means no error. */
  datatype FormErrors = FormErrors(amount: string, description: string, category: string)

  const NoErrors := FormErrors("", "", "")
  const AmountRequired := "Amount is required"
  const DescriptionRequired := "Description is required"
  const CategoryRequired := "Category is required"

  /** The `initialValues` a caller may pass (editing an existing transaction). */
  datatype InitialValues = InitialValues(amount: real, description: string, category: string, date: Date, kind: TxType)

  /** One `onChange` event: the input's name and its new value. */
  datatype FieldChange =
    | ChangeAmount(text: string)
    | ChangeDescription(text: string)
    | ChangeCategory(id: string)
    | ChangeDate(date: Date)

  datatype SubmitOutcome = Rejected | Added | Updated(id: string)

  /** A category can be chosen for a transaction type when it is `both` or of that type. */
  predicate Offerable(c: Category, kind: TxType)
  {
    match c.kind
    case Both => true
    case IncomeOnly => kind == Income
    case ExpenseOnly => kind == Expense
  }

  /** `filteredCategories`: the store's categories offered for the form's type. */
  function OfferedCategories(categories: seq<Category>, kind: TxType): (r: seq<Category>)
    ensures forall c :: c in r <==> c in categories && Offerable(c, kind)
  {
    Filter(categories, (c: Category) => Offerable(c, kind))
  }

  /** The offered categories keep the store's order. */
  lemma OfferedKeepsOrder(a: seq<Category>, b: seq<Category>, kind: TxType)
    ensures OfferedCategories(a + b, kind) == OfferedCategories(a, kind) + OfferedCategories(b, kind)
  {
    FilterConcat(a, b, (c: Category) => Offerable(c, kind));
  }

  /**
   * The default-category effect: a selection that is not offered becomes the
   * first offered id, or the empty id when nothing is offered.
   */
  function DefaultCategory(offered: seq<Category>, selected: string): (r: string)
    ensures FindCategory(offered, selected).Some? ==> r == selected
    ensures FindCategory(offered, selected).None? ==> r == (if offered == [] then "" else offered[0].id)
    ensures r == "" || FindCategory(offered, r).Some?
  {
    if FindCategory(offered, selected).Some? then selected
    else if offered != [] then
      assert FindCategory(offered, offered[0].id).Some?;
      offered[0].id
    else ""
  }

  /** Running the effect again after it has run changes nothing. */
  lemma DefaultCategoryStable(offered: seq<Category>, selected: string)
    ensures DefaultCategory(offered, DefaultCategory(offered, selected)) == DefaultCategory(offered, selected)
  {
  }

  /** `!values.amount`: the number 0 and the empty text are falsy, every other value is truthy. */
  predicate AmountGiven(a: AmountValue)
  {
    match a
    case NumberValue(n) => n != 0.0
    case TextValue(text) => text != ""
  }

  /** The three checks of `validate`. */
  predicate ValuesValid(v: FormValues)
  {
    AmountGiven(v.amount) && Trim(v.description) != "" && v.category != ""
  }

  /** A description passes exactly when it holds a character that is not whitespace. */
  lemma DescriptionGivenIff(d: string)
    ensures Trim(d) != "" <==> exists i :: 0 <= i < |d| && !IsWhitespace(d[i])
  {
    BlankIff(d);
  }

  /** `parseFloat(values.amount.toString())`. */
  function SubmittedAmount(a: AmountValue): real
  {
    match a
    case NumberValue(n) => n
    case TextValue(text) => ParseAmount(text)
  }

  /** The transaction fields the form hands to the store. */
  function Submitted(v: FormValues): TransactionInput
  {
    TransactionInput(SubmittedAmount(v.amount), v.description, v.category, v.date, v.kind)
  }

  /** An update that carries every field of the submitted transaction. */
  function FullPatch(input: TransactionInput): TransactionPatch
  {
    TransactionPatch(Some(input.amount), Some(input.description), Some(input.category), Some(input.date), Some(input.kind))
  }

  /** The form's starting values: the caller's, or an empty expense dated today. */
  function StartValues(initial: Option<InitialValues>, today: Date): FormValues
  {
    match initial
    case Some(i) => FormValues(NumberValue(i.amount), i.description, i.category, i.date, i.kind)
    case None => FormValues(NumberValue(0.0), "", "", today, Expense)
  }

  class TransactionForm {
    var values: FormValues
    var errors: FormErrors
    const editMode: bool
    const transactionId: Option<string>

    constructor (initial: Option<InitialValues>, editMode: bool, transactionId: Option<string>, today: Date)
      ensures values == StartValues(initial, today) && errors == NoErrors
      ensures this.editMode == editMode && this.transactionId == transactionId
    {
      values := StartValues(initial, today);
      errors := NoErrors;
      this.editMode := editMode;
      this.transactionId := transactionId;
    }

    /** The income/expense radio buttons. */
    method SelectType(kind: TxType)
      modifies this`values
      ensures values == old(values).(kind := kind)
    {
      values := values.(kind := kind);
    }

    /** The default-category effect, run against the store's current categories. */
    method ResetCategory(categories: seq<Category>)
      modifies this`values
      ensures values == old(values).(category := DefaultCategory(OfferedCategories(categories, old(values).kind), old(values).category))
      ensures values.category == "" || FindCategory(OfferedCategories(categories, values.kind), values.category).Some?
    {
      var offered := OfferedCategories(categories, values.kind);
      var fallback := if offered != [] then offered[0].id else "";
      if FindCategory(offered, values.category).None? {
        values := values.(category := fallback);
      }
    }

    /** `handleChange`: stores the new value (the amount sanitised) and clears that field's error only. */
    method HandleChange(change: FieldChange)
      modifies this`values, this`errors
      ensures match change
        case ChangeAmount(text) => values == old(values).(amount := TextValue(SanitizeAmount(text)))
        case ChangeDescription(text) => values == old(values).(description := text)
        case ChangeCategory(id) => values == old(values).(category := id)
        case ChangeDate(date) => values == old(values).(date := date)
      ensures match change
        case ChangeAmount(_) => errors == old(errors).(amount := "")
        case ChangeDescription(_) => errors == old(errors).(description := "")
        case ChangeCategory(_) => errors == old(errors).(category := "")
        case ChangeDate(_) => errors == old(errors)
    {
      match change {
        case ChangeAmount(text) =>
          values := values.(amount := TextValue(SanitizeAmount(text)));
          if errors.amount != "" { errors := errors.(amount := ""); }
        case ChangeDescription(text) =>
          values := values.(description := text);
          if errors.description != "" { errors := errors.(description := ""); }
        case ChangeCategory(id) =>
          values := values.(category := id);
          if errors.category != "" { errors := errors.(category := ""); }
        case ChangeDate(date) =>
          values := values.(date := date);
      }
    }

    /** `validate`: one message per failing field; true iff no field failed. */
    method Validate() returns (ok: bool)
      modifies this`errors
      ensures errors.amount == (if AmountGiven(values.amount) then "" else AmountRequired)
      ensures errors.description == (if Trim(values.description) != "" then "" else DescriptionRequired)
      ensures errors.category == (if values.category != "" then "" else CategoryRequired)
      ensures ok <==> ValuesValid(values)
      ensures ok <==> errors == NoErrors
    {
      var newErrors := NoErrors;
      if !AmountGiven(values.amount) {
        newErrors := newErrors.(amount := AmountRequired);
      }
      if Trim(values.description) == "" {
        newErrors := newErrors.(description := DescriptionRequired);
      }
      if values.category == "" {
        newErrors := newErrors.(category := CategoryRequired);
      }
      errors := newErrors;
      ok := !(newErrors.amount != "" || newErrors.description != "" || newErrors.category != "");
    }

    /**
     * `handleSubmit`: nothing reaches the store unless validation passes; then
     * edit mode with a non-empty id updates that id and anything else adds.
     * `newId` and `createdAt` stand for the store's clock readings.
     */
    method HandleSubmit(store: TransactionStore, newId: string, createdAt: string) returns (outcome: SubmitOutcome)
      modifies this`errors, store`transactions
      ensures errors.amount == (if AmountGiven(values.amount) then "" else AmountRequired)
      ensures errors.description == (if Trim(values.description) != "" then "" else DescriptionRequired)
      ensures errors.category == (if values.category != "" then "" else CategoryRequired)
      ensures outcome.Rejected? <==> !ValuesValid(values)
      ensures outcome.Rejected? ==> store.transactions == old(store.transactions)
      ensures !outcome.Rejected? ==>
        (outcome.Updated? <==> editMode && transactionId.Some? && transactionId.value != "")
      ensures outcome.Updated? ==>
        Some(outcome.id) == transactionId &&
        store.transactions == PatchById(old(store.transactions), outcome.id, FullPatch(Submitted(values)))
      ensures outcome.Added? ==>
        store.transactions == [Stamp(Submitted(values), newId, createdAt)] + old(store.transactions)
    {
      var ok := Validate();
      if !ok {
        return Rejected;
      }
      var transaction := Submitted(values);
      if editMode && transactionId.Some? && transactionId.value != "" {
        store.UpdateTransaction(transactionId.value, FullPatch(transaction));
        outcome := Updated(transactionId.value);
      } else {
        store.AddTransaction(transaction, newId, createdAt);
        outcome := Added;
      }
    }
  }
}
