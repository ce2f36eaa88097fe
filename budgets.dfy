/** The budgets collection and the handlers of `/api/analytics/budget/[id]`:
    `PUT` replaces a budget's category, limit and month, refusing a second
    budget for the same category and month; `DELETE` removes one. */
module BudgetRoute {
  import opened Common
  import opened Text
  import opened Calendar
  import opened Types
  import opened Documents

  const RequiredMessage: string := "Category, monthly limit, and month are required"
  const PositiveLimitMessage: string := "Monthly limit must be a positive number"
  const MonthFormatMessage: string := "Month must be in YYYY-MM format"
  const InvalidIdMessage: string := "Invalid budget ID"
  const ConflictMessage: string := "Budget already exists for this category and month"
  const NotFoundMessage: string := "Budget not found"
  const DeletedMessage: string := "Budget deleted successfully"

  datatype BudgetBody = BudgetBody(category: Option<string>, monthlyLimit: JsonValue, month: Option<string>)

  /** Presence, then the type and sign of the limit, then the month
      pattern. */
  function BodyError(body: BudgetBody): (e: Option<string>)
    ensures e == None <==>
      && Given(body.category) && Given(body.month)
      && body.monthlyLimit.JsonNumber? && body.monthlyLimit.n > 0.0
      && IsMonthString(body.month.value)
    ensures !Given(body.category) || !Truthy(body.monthlyLimit) || !Given(body.month) ==> e == Some(RequiredMessage)
    ensures e != None ==> e.value in {RequiredMessage, PositiveLimitMessage, MonthFormatMessage}
  {
    if !Given(body.category) || !Truthy(body.monthlyLimit) || !Given(body.month) then Some(RequiredMessage)
    else if !body.monthlyLimit.JsonNumber? || body.monthlyLimit.n <= 0.0 then Some(PositiveLimitMessage)
    else if !IsMonthString(body.month.value) then Some(MonthFormatMessage)
    else None
  }

  /** `findOne({ category, month, _id: { $ne: id } })`: another budget with
      exactly this category, as sent (untrimmed), and month. */
  predicate Conflicts(docs: map<string, Budget>, key: string, category: string, month: string) {
    exists k :: k in docs && k != key && docs[k].category == category && docs[k].month == month
  }

  /** The `$set` of `PUT`: the trimmed category, the limit, the month and a
      new `updatedAt`; the id and `createdAt` stay. */
  function UpdatedBudget(b: Budget, body: BudgetBody, now: Date): (u: Budget)
    requires BodyError(body) == None
    ensures u.id == b.id && u.createdAt == b.createdAt && u.updatedAt == now
    ensures u.category == Trim(body.category.value)
    ensures u.monthlyLimit == body.monthlyLimit.n && u.month == body.month.value
  {
    b.(category := Trim(body.category.value), monthlyLimit := body.monthlyLimit.n,
       month := body.month.value, updatedAt := now)
  }

  /** No two budgets share a category and a month. */
  predicate UniqueCategoryMonth(docs: map<string, Budget>) {
    forall k1, k2 :: k1 in docs && k2 in docs && k1 != k2 ==>
      docs[k1].category != docs[k2].category || docs[k1].month != docs[k2].month
  }

  /** When the category sent is already trimmed, an update that passed the
      conflict check keeps categories and months unique. */
  lemma UpdateKeepsUnique(docs: map<string, Budget>, key: string, body: BudgetBody, now: Date)
    requires UniqueCategoryMonth(docs) && key in docs
    requires BodyError(body) == None
    requires !Conflicts(docs, key, body.category.value, body.month.value)
    requires Trim(body.category.value) == body.category.value
    ensures UniqueCategoryMonth(docs[key := UpdatedBudget(docs[key], body, now)])
  {
    var docs' := docs[key := UpdatedBudget(docs[key], body, now)];
    forall k1, k2 | k1 in docs' && k2 in docs' && k1 != k2
      ensures docs'[k1].category != docs'[k2].category || docs'[k1].month != docs'[k2].month
    {
      if k1 == key {
        assert !(docs[k2].category == body.category.value && docs[k2].month == body.month.value);
      } else if k2 == key {
        assert !(docs[k1].category == body.category.value && docs[k1].month == body.month.value);
      }
    }
  }

  /** A "Food" and a "Travel" budget for January 2025. */
  function FoodAndTravel(now: Date): map<string, Budget> {
    map["a" := Budget("a", "Food", 100.0, "2025-01", now, now),
        "b" := Budget("b", "Travel", 50.0, "2025-01", now, now)]
  }

  lemma FoodAndTravelUnique(now: Date)
    ensures UniqueCategoryMonth(FoodAndTravel(now))
    ensures !Conflicts(FoodAndTravel(now), "b", " Food", "2025-01")
  {
    var docs := FoodAndTravel(now);
    assert docs.Keys == {"a", "b"};
    assert "Food" != "Travel" by { assert |"Food"| != |"Travel"|; }
    assert " Food" != "Food" by { assert |" Food"| != |"Food"|; }
    forall k1, k2 | k1 in docs && k2 in docs && k1 != k2 ensures docs[k1].category != docs[k2].category {
      assert {k1, k2} == {"a", "b"};
    }
  }

  /** The conflict check compares the category as sent, but the trimmed
      category is stored: renaming the "Travel" budget to " Food" passes the
      check against the existing "Food" budget of the same month and leaves
      two "Food" budgets. */
  lemma UntrimmedConflictCheck(now: Date)
    ensures var docs := FoodAndTravel(now);
      var body := BudgetBody(Some(" Food"), JsonNumber(80.0), Some("2025-01"));
      && UniqueCategoryMonth(docs)
      && BodyError(body) == None
      && !Conflicts(docs, "b", " Food", "2025-01")
      && !UniqueCategoryMonth(docs["b" := UpdatedBudget(docs["b"], body, now)])
  {
    FoodAndTravelUnique(now);
    var docs := FoodAndTravel(now);
    var body := BudgetBody(Some(" Food"), JsonNumber(80.0), Some("2025-01"));
    assert IsMonthString("2025-01");
    TrimLeadingSpace();
    var u := UpdatedBudget(docs["b"], body, now);
    assert u.category == "Food" && u.month == "2025-01";
    var docs' := docs["b" := u];
    assert docs'["a"].category == docs'["b"].category && docs'["a"].month == docs'["b"].month;
  }

  lemma TrimLeadingSpace()
    ensures Trim(" Food") == "Food"
  {
    assert IsWhitespace(' ') && !IsWhitespace('F') && !IsWhitespace('d');
    assert " Food"[1..] == "Food";
    assert Trim(" Food") == Trim("Food");
    assert TrimEnd("Food") == "Food";
  }

  /** The collection: budgets by canonical id, and the ids in insertion
      order. */
  class BudgetStore {
    var docs: map<string, Budget>
    var order: seq<string>

    ghost predicate Valid()
      reads this
    {
      && NoDuplicates(order)
      && (forall k :: k in docs <==> k in order)
      && (forall k :: k in docs ==> IsCanonical(k) && docs[k].id == k)
    }

    /** The budgets in natural order: what `find({ month })` filters. */
    function Contents(): (bs: seq<Budget>)
      reads this
      requires Valid()
      ensures |bs| == |order|
      ensures forall i :: 0 <= i < |bs| ==> bs[i] == docs[order[i]]
    {
      seq(|order|, i requires 0 <= i < |order| && order[i] in docs reads this => docs[order[i]])
    }

    /** A collection holding `records`, in that order. */
    constructor (records: seq<Budget>)
      requires forall i :: 0 <= i < |records| ==> IsCanonical(records[i].id)
      requires forall i, j :: 0 <= i < j < |records| ==> records[i].id != records[j].id
      ensures Valid()
      ensures Contents() == records
    {
      order := seq(|records|, i requires 0 <= i < |records| => records[i].id);
      docs := map b | b in records :: b.id := b;
      new;
      forall i | 0 <= i < |records| ensures docs[order[i]] == records[i] {
        assert records[i] in records;
      }
    }

    /** `PUT /[id]`: id check, validation, conflict check, lookup, write,
      in that order, so a conflict is reported even for an id that does
      not exist. */
    method Update(id: string, body: BudgetBody, now: Date) returns (reply: Reply<Budget>)
      requires Valid()
      modifies this
      ensures Valid() && order == old(order)
      ensures !IsValidId(id) ==> reply == Error(BadRequest(InvalidIdMessage)) && docs == old(docs)
      ensures IsValidId(id) && BodyError(body) != None ==>
                reply == Error(BadRequest(BodyError(body).value)) && docs == old(docs)
      ensures IsValidId(id) && BodyError(body) == None
              && Conflicts(old(docs), CanonicalId(id), body.category.value, body.month.value) ==>
                reply == Error(Conflict(ConflictMessage)) && docs == old(docs)
      ensures IsValidId(id) && BodyError(body) == None
              && !Conflicts(old(docs), CanonicalId(id), body.category.value, body.month.value)
              && CanonicalId(id) !in old(docs) ==>
                reply == Error(NotFound(NotFoundMessage)) && docs == old(docs)
      ensures IsValidId(id) && BodyError(body) == None
              && !Conflicts(old(docs), CanonicalId(id), body.category.value, body.month.value)
              && CanonicalId(id) in old(docs) ==>
                var u := UpdatedBudget(old(docs)[CanonicalId(id)], body, now);
                reply == Ok(u) && docs == old(docs)[CanonicalId(id) := u]
      ensures old(UniqueCategoryMonth(docs)) && (BodyError(body) == None ==> Trim(body.category.value) == body.category.value) ==>
                UniqueCategoryMonth(docs)
    {
      if !IsValidId(id) {
        return Error(BadRequest(InvalidIdMessage));
      }
      var e := BodyError(body);
      if e.Some? {
        return Error(BadRequest(e.value));
      }
      var key := CanonicalId(id);
      if Conflicts(docs, key, body.category.value, body.month.value) {
        return Error(Conflict(ConflictMessage));
      }
      if key !in docs {
        return Error(NotFound(NotFoundMessage));
      }
      var u := UpdatedBudget(docs[key], body, now);
      if UniqueCategoryMonth(docs) && Trim(body.category.value) == body.category.value {
        UpdateKeepsUnique(docs, key, body, now);
      }
      docs := docs[key := u];
      reply := Ok(u);
    }

    /** `DELETE /[id]`: removes the budget with that id and no other. */
    method Delete(id: string) returns (reply: Reply<string>)
      requires Valid()
      modifies this
      ensures Valid()
      ensures !IsValidId(id) ==> reply == Error(BadRequest(InvalidIdMessage)) && docs == old(docs) && order == old(order)
      ensures IsValidId(id) && CanonicalId(id) !in old(docs) ==>
                reply == Error(NotFound(NotFoundMessage)) && docs == old(docs) && order == old(order)
      ensures IsValidId(id) && CanonicalId(id) in old(docs) ==>
                && reply == Ok(DeletedMessage)
                && docs == old(docs) - {CanonicalId(id)}
                && order == Without(old(order), CanonicalId(id))
      ensures old(UniqueCategoryMonth(docs)) ==> UniqueCategoryMonth(docs)
    {
      if !IsValidId(id) {
        return Error(BadRequest(InvalidIdMessage));
      }
      var key := CanonicalId(id);
      if key !in docs {
        return Error(NotFound(NotFoundMessage));
      }
      docs := docs - {key};
      order := Without(order, key);
      reply := Ok(DeletedMessage);
    }
  }
}
