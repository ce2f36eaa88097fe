/** The transactions collection and its handlers: `GET` and `POST` on
    `/api/analytics/transactions`, `PUT` and `DELETE` on
    `/api/analytics/transactions/[id]`. */
module TransactionsRoute {
  import opened Common
  import opened Text
  import opened Calendar
  import opened Types
  import opened Aggregation
  import opened Documents

  const RequiredMessage: string := "Amount, date, and description are required"
  const PositiveAmountMessage: string := "Amount must be a positive number"
  const InvalidIdMessage: string := "Invalid transaction ID"
  const NotFoundMessage: string := "Transaction not found"
  const DeletedMessage: string := "Transaction deleted successfully"

  /** The fields read from a request body. `date` is the instant
      `new Date(date)` yields when the body carries a truthy date, and
      `None` when it carries none. */
  datatype TransactionBody = TransactionBody(
    amount: JsonValue,
    date: Option<Date>,
    description: Option<string>,
    category: Option<string>)

  /** The validation shared by create and update: first the presence
      check, on the raw values (so an amount of 0 is "required"), then the
      type and sign of the amount. */
  function BodyError(body: TransactionBody): (e: Option<string>)
    ensures e == None <==>
      body.amount.JsonNumber? && body.amount.n > 0.0 && body.date.Some? && Given(body.description)
    ensures e != None ==> e.value in {RequiredMessage, PositiveAmountMessage}
    ensures !Truthy(body.amount) || body.date == None || !Given(body.description) ==> e == Some(RequiredMessage)
  {
    if !Truthy(body.amount) || body.date == None || !Given(body.description) then Some(RequiredMessage)
    else if !body.amount.JsonNumber? || body.amount.n <= 0.0 then Some(PositiveAmountMessage)
    else None
  }

  /** `category || 'Other'`. */
  function CategoryOrDefault(category: Option<string>): (c: string)
    ensures Given(category) ==> c == category.value
    ensures !Given(category) ==> c == DefaultCategory
    ensures c != ""
  {
    if Given(category) then category.value else DefaultCategory
  }

  /** The record `POST` inserts: the amount and date as given, the
      description trimmed, the category defaulted, both timestamps `now`. */
  function NewTransaction(body: TransactionBody, id: string, now: Date): (t: Transaction)
    requires BodyError(body) == None
    ensures t.id == id && t.amount == body.amount.n && t.date == body.date.value
    ensures t.description == Trim(body.description.value)
    ensures t.category == Some(CategoryOrDefault(body.category))
    ensures t.createdAt == now && t.updatedAt == now
  {
    Transaction(id, body.amount.n, body.date.value, Trim(body.description.value),
                Some(CategoryOrDefault(body.category)), now, now)
  }

  /** The `$set` of `PUT`: the same four fields as a create and a new
      `updatedAt`; the id and `createdAt` stay. */
  function UpdatedTransaction(t: Transaction, body: TransactionBody, now: Date): (u: Transaction)
    requires BodyError(body) == None
    ensures u.id == t.id && u.createdAt == t.createdAt
    ensures u == NewTransaction(body, t.id, now).(createdAt := t.createdAt)
  {
    t.(amount := body.amount.n, date := body.date.value, description := Trim(body.description.value),
       category := Some(CategoryOrDefault(body.category)), updatedAt := now)
  }

  /** A record as every write leaves it: a positive amount and a category. */
  predicate WellFormed(t: Transaction) {
    t.amount > 0.0 && t.category.Some?
  }

  /** An amount of 0 fails the presence check, not the sign check. */
  lemma ZeroAmountIsMissing(date: Date)
    ensures BodyError(TransactionBody(JsonNumber(0.0), Some(date), Some("Lunch"), None)) == Some(RequiredMessage)
    ensures BodyError(TransactionBody(JsonNumber(-5.0), Some(date), Some("Lunch"), None)) == Some(PositiveAmountMessage)
    ensures BodyError(TransactionBody(JsonString("5"), Some(date), Some("Lunch"), None)) == Some(PositiveAmountMessage)
  {
  }

  /** The presence check sees the untrimmed description, so a blank one
      passes and is stored empty. */
  lemma BlankDescriptionStoredEmpty(date: Date, id: string, now: Date)
    ensures var body := TransactionBody(JsonNumber(12.5), Some(date), Some("   "), None);
      && BodyError(body) == None
      && NewTransaction(body, id, now).description == ""
      && NewTransaction(body, id, now).category == Some("Other")
  {
    var body := TransactionBody(JsonNumber(12.5), Some(date), Some("   "), None);
    TrimEmptyIffAllWhitespace("   ");
  }

  /** The collection: documents by canonical id, and the ids in insertion
      order, which is the order an unsorted `find` returns them in. */
  class TransactionStore {
    var docs: map<string, Transaction>
    var order: seq<string>

    ghost predicate Valid()
      reads this
    {
      && NoDuplicates(order)
      && (forall k :: k in docs <==> k in order)
      && (forall k :: k in docs ==> IsCanonical(k) && docs[k].id == k)
    }

    /** Every stored record is well formed. */
    predicate AllWellFormed()
      reads this
    {
      forall k :: k in docs ==> WellFormed(docs[k])
    }

    /** The documents, in natural order: what the pipelines receive. */
    function Contents(): (ts: seq<Transaction>)
      reads this
      requires Valid()
      ensures |ts| == |order|
      ensures forall i :: 0 <= i < |ts| ==> ts[i] == docs[order[i]]
    {
      seq(|order|, i requires 0 <= i < |order| && order[i] in docs reads this => docs[order[i]])
    }

    /** A collection holding `records`, in that order. */
    constructor (records: seq<Transaction>)
      requires forall i :: 0 <= i < |records| ==> IsCanonical(records[i].id)
      requires forall i, j :: 0 <= i < j < |records| ==> records[i].id != records[j].id
      ensures Valid()
      ensures Contents() == records
    {
      order := seq(|records|, i requires 0 <= i < |records| => records[i].id);
      docs := map t | t in records :: t.id := t;
      new;
      forall i | 0 <= i < |records| ensures docs[order[i]] == records[i] {
        assert records[i] in records;
      }
    }

    /** `GET`: every stored transaction, newest first. */
    method List() returns (r: seq<Transaction>)
      requires Valid()
      ensures multiset(r) == multiset(Contents())
      ensures forall i, j :: 0 <= i < j < |r| ==> AtOrBefore(r[j].date, r[i].date)
    {
      r := NewestFirst(Contents());
    }

    /** `POST`. A body failing validation is refused with 400 and nothing
      is written; otherwise the new record, under the id the database
      assigns (`newId`, not yet in use), is inserted and returned with 201. */
    method Create(body: TransactionBody, newId: string, now: Date) returns (reply: Reply<Transaction>)
      requires Valid() && IsCanonical(newId) && newId !in docs
      modifies this
      ensures Valid()
      ensures BodyError(body) != None ==>
                reply == Error(BadRequest(BodyError(body).value)) && docs == old(docs) && order == old(order)
      ensures BodyError(body) == None ==>
                && reply == Created(NewTransaction(body, newId, now))
                && docs == old(docs)[newId := NewTransaction(body, newId, now)]
                && order == old(order) + [newId]
                && Contents() == old(Contents()) + [NewTransaction(body, newId, now)]
      ensures old(AllWellFormed()) ==> AllWellFormed()
    {
      var e := BodyError(body);
      if e.Some? {
        return Error(BadRequest(e.value));
      }
      var t := NewTransaction(body, newId, now);
      ghost var before := Contents();
      docs := docs[newId := t];
      order := order + [newId];
      assert forall i :: 0 <= i < |before| ==> before[i] == Contents()[i];
      reply := Created(t);
    }

    /** `PUT /[id]`. The id check comes first, then the same validation as
      a create, then the lookup; only a found record changes, in exactly
      the fields of the `$set`. */
    method Update(id: string, body: TransactionBody, now: Date) returns (reply: Reply<Transaction>)
      requires Valid()
      modifies this
      ensures Valid() && order == old(order)
      ensures !IsValidId(id) ==> reply == Error(BadRequest(InvalidIdMessage)) && docs == old(docs)
      ensures IsValidId(id) && BodyError(body) != None ==>
                reply == Error(BadRequest(BodyError(body).value)) && docs == old(docs)
      ensures IsValidId(id) && BodyError(body) == None && CanonicalId(id) !in old(docs) ==>
                reply == Error(NotFound(NotFoundMessage)) && docs == old(docs)
      ensures IsValidId(id) && BodyError(body) == None && CanonicalId(id) in old(docs) ==>
                var u := UpdatedTransaction(old(docs)[CanonicalId(id)], body, now);
                reply == Ok(u) && docs == old(docs)[CanonicalId(id) := u]
      ensures old(AllWellFormed()) ==> AllWellFormed()
    {
      if !IsValidId(id) {
        return Error(BadRequest(InvalidIdMessage));
      }
      var e := BodyError(body);
      if e.Some? {
        return Error(BadRequest(e.value));
      }
      var key := CanonicalId(id);
      if key !in docs {
        return Error(NotFound(NotFoundMessage));
      }
      var u := UpdatedTransaction(docs[key], body, now);
      docs := docs[key := u];
      reply := Ok(u);
    }

    /** `DELETE /[id]`: removes the record with that id and no other. */
    method Delete(id: string) returns (reply: Reply<string>)
      requires Valid()
      modifies this
      ensures Valid()
      ensures !IsValidId(id) ==> reply == Error(BadRequest(InvalidIdMessage)) && docs == old(docs) && order == old(order)
      ensures IsValidId(id) && CanonicalId(id) !in old(docs) ==>
                reply == Error(NotFound(NotFoundMessage)) && docs == old(docs) && order == old(order)
      ensures IsValidId(id) && CanonicalId(id) in old(docs) ==>
                && reply == Ok(DeletedMessage)
                && docs == old(docs) - {CanonicalId(id)}
                && order == Without(old(order), CanonicalId(id))
      ensures old(AllWellFormed()) ==> AllWellFormed()
    {
      if !IsValidId(id) {
        return Error(BadRequest(InvalidIdMessage));
      }
      var key := CanonicalId(id);
      if key !in docs {
        return Error(NotFound(NotFoundMessage));
      }
      docs := docs - {key};
      order := Without(order, key);
      reply := Ok(DeletedMessage);
    }
  }

  /** Deleting the same id twice: the second request finds nothing. */
  method DeleteTwice(store: TransactionStore, id: string) returns (first: Reply<string>, second: Reply<string>)
    requires store.Valid() && IsValidId(id) && CanonicalId(id) in store.docs
    modifies store
    ensures first == Ok(DeletedMessage)
    ensures second == Error(NotFound(NotFoundMessage))
    ensures store.docs == old(store.docs) - {CanonicalId(id)}
  {
    first := store.Delete(id);
    second := store.Delete(id);
  }
}
