/** The budget form: category, monthly limit and month, the error shown
    under each, validation on submit, the payload it submits and the
    clearing of a field's error as the user types. */
module BudgetFormComponent {
  import opened Common
  import opened Text
  import opened Types
  import BudgetRoute

  const CategoryMessage: string := "Category is required"
  const LimitRequiredMessage: string := "Monthly limit is required"
  const LimitPositiveMessage: string := "Monthly limit must be a positive number"
  const MonthMessage: string := "Month is required"

  /** The three fields of the form. */
  datatype Field = CategoryField | LimitField | MonthField

  /** The limit's check: a blank limit is missing; otherwise one that is not
      a number, or not above 0, is refused as not positive. */
  function LimitError(limit: string): (e: Option<string>)
    ensures e == None <==> !AllWhitespace(limit) && ParseNumber(limit).Some? && ParseNumber(limit).value > 0.0
    ensures e == Some(LimitRequiredMessage) <==> AllWhitespace(limit)
    ensures e != None ==> e.value in {LimitRequiredMessage, LimitPositiveMessage}
  {
    TrimEmptyIffAllWhitespace(limit);
    if Trim(limit) == "" then Some(LimitRequiredMessage)
    else if ParseNumber(limit) == None || ParseNumber(limit).value <= 0.0 then Some(LimitPositiveMessage)
    else None
  }

  /** The error map built from the three checks' outcomes: an entry with
      the check's message for each check that failed, and nothing else. */
  function ErrorsFor(noCategory: bool, limitError: Option<string>, noMonth: bool): (errs: map<Field, string>)
    ensures CategoryField in errs <==> noCategory
    ensures LimitField in errs <==> limitError.Some?
    ensures MonthField in errs <==> noMonth
    ensures CategoryField in errs ==> errs[CategoryField] == CategoryMessage
    ensures LimitField in errs ==> errs[LimitField] == limitError.value
    ensures MonthField in errs ==> errs[MonthField] == MonthMessage
    ensures errs == map[] <==> !noCategory && limitError == None && !noMonth
  {
    var withCategory: map<Field, string> := if noCategory then map[CategoryField := CategoryMessage] else map[];
    var withLimit := if limitError.Some? then withCategory[LimitField := limitError.value] else withCategory;
    var errs := if noMonth then withLimit[MonthField := MonthMessage] else withLimit;
    assert errs == map[] ==> CategoryField !in errs;
    errs
  }

  /** The errors the form's contents call for. */
  function FormErrors(category: string, limit: string, month: string): (errs: map<Field, string>)
    ensures CategoryField in errs <==> category == ""
    ensures LimitField in errs <==> LimitError(limit).Some?
    ensures MonthField in errs <==> month == ""
    ensures errs == map[] <==> category != "" && LimitError(limit) == None && month != ""
  {
    ErrorsFor(category == "", LimitError(limit), month == "")
  }

  /** What `onSubmit` receives. */
  datatype Payload = Payload(category: string, monthlyLimit: real, month: string)

  class BudgetForm {
    var category: string
    var limit: string
    var month: string
    var errors: map<Field, string>

    /** A blank form for the month `currentMonth`. */
    constructor (currentMonth: string)
      ensures category == "" && limit == "" && month == currentMonth
      ensures errors == map[]
    {
      category, limit, month := "", "", currentMonth;
      errors := map[];
    }

    /** The form opened on a stored budget: `limitText` is the limit's
      decimal rendering; a budget without a month shows `currentMonth`. */
    constructor Editing(b: Budget, limitText: string, currentMonth: string)
      requires ParseNumber(limitText) == Some(b.monthlyLimit)
      ensures category == b.category && limit == limitText
      ensures month == (if b.month != "" then b.month else currentMonth)
      ensures errors == map[]
    {
      category, limit := b.category, limitText;
      month := if b.month != "" then b.month else currentMonth;
      errors := map[];
    }

    /** `validateForm`: builds a fresh error map check by check, replaces
      the shown errors with it, and reports whether it is empty. */
    method Validate() returns (valid: bool)
      modifies this
      ensures errors == FormErrors(category, limit, month)
      ensures valid <==> errors == map[]
      ensures category == old(category) && limit == old(limit) && month == old(month)
    {
      var newErrors: map<Field, string> := map[];
      if category == "" {
        newErrors := newErrors[CategoryField := CategoryMessage];
      }
      TrimEmptyIffAllWhitespace(limit);
      var limitError: Option<string> := None;
      if Trim(limit) == "" {
        limitError := Some(LimitRequiredMessage);
        newErrors := newErrors[LimitField := LimitRequiredMessage];
      } else if ParseNumber(limit) == None || ParseNumber(limit).value <= 0.0 {
        limitError := Some(LimitPositiveMessage);
        newErrors := newErrors[LimitField := LimitPositiveMessage];
      }
      if month == "" {
        newErrors := newErrors[MonthField := MonthMessage];
      }
      assert limitError == LimitError(limit);
      assert newErrors == ErrorsFor(category == "", limitError, month == "");
      errors := newErrors;
      valid := |errors| == 0;
      assert valid <==> errors == map[] by {
        if !valid {
          var f :| f in errors;
        }
      }
    }

    /** `handleSubmit`: an invalid form submits nothing; a valid one
      submits its category, its limit as a number and its month. */
    method Submit() returns (submitted: Option<Payload>)
      modifies this
      ensures errors == FormErrors(category, limit, month)
      ensures category == old(category) && limit == old(limit) && month == old(month)
      ensures submitted.None? <==> errors != map[]
      ensures submitted.Some? ==>
                && ParseNumber(limit).Some?
                && submitted.value == Payload(category, ParseNumber(limit).value, month)
                && submitted.value.monthlyLimit > 0.0
    {
      var valid := Validate();
      if !valid {
        return None;
      }
      submitted := Some(Payload(category, ParseNumber(limit).value, month));
    }

    /** `handleInputChange`: sets the field and, if that field shows a
      non-empty error, blanks that error; nothing else changes. */
    method InputChange(field: Field, value: string)
      modifies this
      ensures category == (if field == CategoryField then value else old(category))
      ensures limit == (if field == LimitField then value else old(limit))
      ensures month == (if field == MonthField then value else old(month))
      ensures errors == if field in old(errors) && old(errors)[field] != "" then old(errors)[field := ""] else old(errors)
    {
      match field {
        case CategoryField => category := value;
        case LimitField => limit := value;
        case MonthField => month := value;
      }
      if field in errors && errors[field] != "" {
        errors := errors[field := ""];
      }
    }
  }

  /** The form checks only that a month is given; the server also checks
      its pattern. So what a valid form submits is accepted exactly when
      its month has the `YYYY-MM` form, and is otherwise refused for it. */
  lemma ValidFormAcceptedIffMonthPattern(category: string, limit: string, month: string)
    requires FormErrors(category, limit, month) == map[]
    ensures ParseNumber(limit).Some?
    ensures var body := BudgetRoute.BudgetBody(Some(category), JsonNumber(ParseNumber(limit).value), Some(month));
      && (BudgetRoute.BodyError(body) == None <==> IsMonthString(month))
      && (!IsMonthString(month) ==> BudgetRoute.BodyError(body) == Some(BudgetRoute.MonthFormatMessage))
  {
    assert LimitError(limit) == None;
  }

  /** A form opened on a stored budget with a positive limit and a month
      passes validation as it stands when its category is not empty. */
  lemma EditedFormValid(b: Budget, limitText: string, currentMonth: string)
    requires ParseNumber(limitText) == Some(b.monthlyLimit)
    requires b.monthlyLimit > 0.0 && b.category != "" && b.month != ""
    ensures FormErrors(b.category, limitText, b.month) == map[]
  {
    assert !AllWhitespace(limitText);
  }
}
