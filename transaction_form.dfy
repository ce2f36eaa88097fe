/** The transaction form: its text fields, the error messages shown under
    them, validation on submit, the payload it submits and the clearing of
    a field's error as the user types. */
module TransactionFormComponent {
  import opened Common
  import opened Text
  import opened Calendar
  import opened Types
  import TransactionsRoute

  const AmountMessage: string := "Please enter a valid amount greater than 0"
  const DescriptionMessage: string := "Please enter a description"
  const CategoryMessage: string := "Please select a category"
  const DateMessage: string := "Please select a date"

  /** The categories the form offers. */
  const FormCategories: seq<string> := [
    "Food & Dining",
    "Transportation",
    "Shopping",
    "Entertainment",
    "Bills & Utilities",
    "Healthcare",
    "Education",
    "Travel",
    "Personal Care",
    "Other"
  ]

  /** The form offers the shared category list, entry for entry. */
  lemma FormCategoriesArePredefined()
    ensures FormCategories == PredefinedCategories
    ensures DefaultCategory in FormCategories
  {
    PredefinedCategoriesWellFormed();
  }

  /** The four fields of the form. */
  datatype Field = AmountField | DescriptionField | CategoryField | DateField

  /** `!amount || isNaN(Number(amount)) || Number(amount) <= 0`. */
  predicate BadAmount(amount: string) {
    amount == "" || ParseNumber(amount) == None || ParseNumber(amount).value <= 0.0
  }

  /** The error map built from the four checks' outcomes: an entry with
      its field's message for each check that failed, and nothing else. */
  function ErrorsFor(badAmount: bool, blankDescription: bool, noCategory: bool, noDate: bool): (errs: map<Field, string>)
    ensures AmountField in errs <==> badAmount
    ensures DescriptionField in errs <==> blankDescription
    ensures CategoryField in errs <==> noCategory
    ensures DateField in errs <==> noDate
    ensures AmountField in errs ==> errs[AmountField] == AmountMessage
    ensures DescriptionField in errs ==> errs[DescriptionField] == DescriptionMessage
    ensures CategoryField in errs ==> errs[CategoryField] == CategoryMessage
    ensures DateField in errs ==> errs[DateField] == DateMessage
    ensures errs == map[] <==> !badAmount && !blankDescription && !noCategory && !noDate
  {
    var withAmount: map<Field, string> := if badAmount then map[AmountField := AmountMessage] else map[];
    var withDescription := if blankDescription then withAmount[DescriptionField := DescriptionMessage] else withAmount;
    var withCategory := if noCategory then withDescription[CategoryField := CategoryMessage] else withDescription;
    var errs := if noDate then withCategory[DateField := DateMessage] else withCategory;
    assert errs == map[] ==> AmountField !in errs;
    errs
  }

  /** The errors the form's contents call for: one entry per failing field,
      with that field's message, and none for a field that passes. */
  function FormErrors(amount: string, description: string, category: string, date: string): (errs: map<Field, string>)
    ensures AmountField in errs <==> BadAmount(amount)
    ensures DescriptionField in errs <==> AllWhitespace(description)
    ensures CategoryField in errs <==> category == ""
    ensures DateField in errs <==> date == ""
    ensures errs == map[] <==> !BadAmount(amount) && !AllWhitespace(description) && category != "" && date != ""
  {
    ErrorsFor(BadAmount(amount), AllWhitespace(description), category == "", date == "")
  }

  /** What `onSubmit` receives: the amount as a number, the description
      trimmed, the category and the date text. */
  datatype Payload = Payload(amount: real, description: string, category: string, date: string)

  class TransactionForm {
    var amount: string
    var description: string
    var category: string
    var date: string
    var errors: map<Field, string>

    /** A blank form dated `today`. */
    constructor (today: string)
      ensures amount == "" && description == "" && category == "" && date == today
      ensures errors == map[]
    {
      amount, description, category, date := "", "", "", today;
      errors := map[];
    }

    /** The form opened on a stored transaction: `amountText` is the
      amount's decimal rendering and `dateText` the `YYYY-MM-DD` prefix of
      its date's ISO form; a missing category shows as unselected. */
    constructor Editing(t: Transaction, amountText: string, dateText: string)
      requires ParseNumber(amountText) == Some(t.amount)
      ensures amount == amountText && description == t.description && date == dateText
      ensures category == (if t.category.Some? then t.category.value else "")
      ensures errors == map[]
    {
      amount, description, date := amountText, t.description, dateText;
      category := if t.category.Some? then t.category.value else "";
      errors := map[];
    }

    /** `validateForm`: builds a fresh error map field by field, replaces
      the shown errors with it, and reports whether it is empty. */
    method Validate() returns (valid: bool)
      modifies this
      ensures errors == FormErrors(amount, description, category, date)
      ensures valid <==> errors == map[]
      ensures amount == old(amount) && description == old(description)
      ensures category == old(category) && date == old(date)
    {
      var badAmount := amount == "" || ParseNumber(amount) == None || ParseNumber(amount).value <= 0.0;
      TrimEmptyIffAllWhitespace(description);
      var blankDescription := Trim(description) == "";
      var newErrors: map<Field, string> := map[];
      if badAmount {
        newErrors := newErrors[AmountField := AmountMessage];
      }
      if blankDescription {
        newErrors := newErrors[DescriptionField := DescriptionMessage];
      }
      if category == "" {
        newErrors := newErrors[CategoryField := CategoryMessage];
      }
      if date == "" {
        newErrors := newErrors[DateField := DateMessage];
      }
      assert newErrors == ErrorsFor(badAmount, blankDescription, category == "", date == "");
      errors := newErrors;
      valid := |errors| == 0;
      assert valid <==> errors == map[] by {
        if !valid {
          var f :| f in errors;
        }
      }
    }

    /** `handleSubmit`: an invalid form submits nothing; a valid one
      submits its parsed amount, trimmed description, category and date. */
    method Submit() returns (submitted: Option<Payload>)
      modifies this
      ensures errors == FormErrors(amount, description, category, date)
      ensures amount == old(amount) && description == old(description)
      ensures category == old(category) && date == old(date)
      ensures submitted.None? <==> errors != map[]
      ensures submitted.Some? ==>
                && ParseNumber(amount).Some?
                && submitted.value == Payload(ParseNumber(amount).value, Trim(description), category, date)
                && submitted.value.amount > 0.0
    {
      var valid := Validate();
      if !valid {
        return None;
      }
      assert AmountField !in errors;
      submitted := Some(Payload(ParseNumber(amount).value, Trim(description), category, date));
    }

    /** `handleInputChange`: sets the field and, if that field shows a
      non-empty error, blanks that error; nothing else changes. */
    method InputChange(field: Field, value: string)
      modifies this
      ensures amount == (if field == AmountField then value else old(amount))
      ensures description == (if field == DescriptionField then value else old(description))
      ensures category == (if field == CategoryField then value else old(category))
      ensures date == (if field == DateField then value else old(date))
      ensures errors == if field in old(errors) && old(errors)[field] != "" then old(errors)[field := ""] else old(errors)
    {
      match field {
        case AmountField => amount := value;
        case DescriptionField => description := value;
        case CategoryField => category := value;
        case DateField => date := value;
      }
      if field in errors && errors[field] != "" {
        errors := errors[field := ""];
      }
    }
  }

  /** A form opened on a stored, well-formed transaction passes the amount
      check as it stands. */
  lemma EditedAmountPasses(t: Transaction, amountText: string)
    requires ParseNumber(amountText) == Some(t.amount)
    requires TransactionsRoute.WellFormed(t)
    ensures !BadAmount(amountText)
  {
  }

  /** What a valid form submits passes the server's validation, whatever
      instant the date text parses to, and is stored as submitted. */
  lemma ValidFormAccepted(amount: string, description: string, category: string, date: string, parsed: Date)
    requires FormErrors(amount, description, category, date) == map[]
    ensures ParseNumber(amount).Some?
    ensures var body := TransactionsRoute.TransactionBody(
        JsonNumber(ParseNumber(amount).value), Some(parsed), Some(Trim(description)), Some(category));
      && TransactionsRoute.BodyError(body) == None
      && TransactionsRoute.CategoryOrDefault(body.category) == category
  {
    var errs := FormErrors(amount, description, category, date);
    assert AmountField !in errs && DescriptionField !in errs;
    var n := ParseNumber(amount);
    assert n.Some? && n.value > 0.0;
    TrimEmptyIffAllWhitespace(description);
    assert Given(Some(Trim(description)));
    assert Given(Some(category));
  }
}
