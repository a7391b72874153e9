/**
 * The two handlers of app/api/transactions/route.ts over a store of rows.
 * The session arrives resolved, as the caller's user id or `None`; whether the
 * store call throws is the parameter `storeFails`.
 */
module TransactionsRoute {
  import opened Wrappers
  import opened Calendar
  import opened Domain
  import opened Validations
  import NumberParse

  /** What `request.json()` yields: a body that is not JSON (it throws), or a JSON value. */
  datatype RequestBody = Malformed | Json(payload: Payload)

  datatype ResponseBody =
    | Rows(rows: seq<Transaction>)
    | Created(row: Transaction)
    | Error(error: string)
    | InvalidData(error: string, details: seq<Issue>)

  datatype Response = Response(status: int, body: ResponseBody)

  const UnauthorizedResponse := Response(401, Error("Unauthorized"))
  const FetchFailedResponse := Response(500, Error("Failed to fetch transactions"))
  const CreateFailedResponse := Response(500, Error("Failed to create transaction"))

  function InvalidDataResponse(issues: seq<Issue>): Response {
    Response(400, InvalidData("Invalid data", issues))
  }

  /** A stored row meets `transactionSchema`. */
  predicate WellFormed(t: Transaction) {
    TransactionSchema(ValidatedTransaction(t.amount, t.description, t.kind, t.date)).Ok?
  }

  /** The row `POST` writes for a validated body and the session's user. */
  function NewRow(v: ValidatedTransaction, user: UserId): (t: Transaction)
    ensures t.userId == user
  {
    Transaction(v.amount, v.description, v.kind, v.date, user)
  }

  /** `where: { userId }`: the rows one user owns, in store order. */
  function OwnedBy(rows: seq<Transaction>, user: UserId): (r: seq<Transaction>)
    ensures forall t :: multiset(r)[t] == if t.userId == user then multiset(rows)[t] else 0
  {
    if rows == [] then []
    else
      var init, last := rows[..|rows| - 1], rows[|rows| - 1];
      assert rows == init + [last];
      OwnedBy(init, user) + (if last.userId == user then [last] else [])
  }

  /** The sort key of a row: its date. */
  function Key(t: Transaction): int {
    DateKey(t.date)
  }

  /** `orderBy: { date: 'desc' }`: no row is dated after the one before it. */
  predicate SortedDesc(rows: seq<Transaction>) {
    forall i, j :: 0 <= i < j < |rows| ==> Key(rows[i]) >= Key(rows[j])
  }

  /** Put `t` in front of the first row dated no later than it. */
  function Insert(t: Transaction, rows: seq<Transaction>): (r: seq<Transaction>)
    requires SortedDesc(rows)
    ensures SortedDesc(r)
    ensures multiset(r) == multiset(rows) + multiset{t}
  {
    if rows == [] || Key(t) >= Key(rows[0]) then
      [t] + rows
    else
      var rest := Insert(t, rows[1..]);
      assert rows == [rows[0]] + rows[1..];
      HeadBoundsRest(rows, t, rest);
      [rows[0]] + rest
  }

  /**
   * When `rest` holds the rows after the head of a sorted sequence and one more
   * row dated no later than that head, putting the head back in front keeps it sorted.
   */
  lemma HeadBoundsRest(rows: seq<Transaction>, t: Transaction, rest: seq<Transaction>)
    requires SortedDesc(rows) && rows != [] && Key(t) <= Key(rows[0])
    requires SortedDesc(rest) && multiset(rest) == multiset(rows[1..]) + multiset{t}
    ensures SortedDesc([rows[0]] + rest)
  {
    forall k | 0 <= k < |rest| ensures Key(rest[k]) <= Key(rows[0]) {
      var x := rest[k];
      assert x in multiset(rest);
      if x != t {
        assert x in multiset(rows[1..]);
        var j :| 0 <= j < |rows[1..]| && rows[1..][j] == x;
        assert rows[j + 1] == x;
      }
    }
  }

  /** Rows ordered newest date first (rows of equal date keep their store order). */
  function SortByDateDesc(rows: seq<Transaction>): (r: seq<Transaction>)
    ensures SortedDesc(r)
    ensures multiset(r) == multiset(rows)
  {
    if rows == [] then []
    else
      assert rows == [rows[0]] + rows[1..];
      Insert(rows[0], SortByDateDesc(rows[1..]))
  }

  /** What `findMany` returns for one user. */
  function ListFor(rows: seq<Transaction>, user: UserId): (r: seq<Transaction>)
    ensures SortedDesc(r)
    ensures forall t :: multiset(r)[t] == if t.userId == user then multiset(rows)[t] else 0
  {
    SortByDateDesc(OwnedBy(rows, user))
  }

  class TransactionStore {
    /** Every row ever created, in creation order. */
    var rows: seq<Transaction>

    /** The store only ever holds rows that meet `transactionSchema`. */
    ghost predicate Valid()
      reads this
    {
      forall i :: 0 <= i < |rows| ==> WellFormed(rows[i])
    }

    constructor ()
      ensures Valid() && rows == []
    {
      rows := [];
    }

    /** `GET /api/transactions`. */
    method Get(session: Option<UserId>, storeFails: bool) returns (response: Response)
      ensures session.None? ==> response == UnauthorizedResponse
      ensures session.Some? && storeFails ==> response == FetchFailedResponse
      ensures session.Some? && !storeFails ==>
                response.status == 200 && response.body.Rows?
                && response.body.rows == ListFor(rows, session.value)
                && SortedDesc(response.body.rows)
                && (forall t :: t in response.body.rows <==> t in rows && t.userId == session.value)
    {
      if session.None? {
        return UnauthorizedResponse;
      }
      if storeFails {
        return FetchFailedResponse;
      }
      var listed := ListFor(rows, session.value);
      forall t ensures t in listed <==> t in rows && t.userId == session.value {
        assert t in listed <==> t in multiset(listed);
        assert t in rows <==> t in multiset(rows);
      }
      response := Response(200, Rows(listed));
    }

    /** `POST /api/transactions`. */
    method Post(session: Option<UserId>, body: RequestBody, storeFails: bool) returns (response: Response)
      requires Valid()
      modifies this
      ensures Valid()
      ensures session.None? ==> response == UnauthorizedResponse && rows == old(rows)
      ensures session.Some? && body.Malformed? ==> response == CreateFailedResponse && rows == old(rows)
      ensures session.Some? && body.Json? && CreateTransactionSchema(body.payload).Err? ==>
                response == InvalidDataResponse(CreateTransactionSchema(body.payload).error) && rows == old(rows)
      ensures session.Some? && body.Json? && CreateTransactionSchema(body.payload).Ok? ==>
                var t := NewRow(CreateTransactionSchema(body.payload).value, session.value);
                if storeFails then response == CreateFailedResponse && rows == old(rows)
                else response == Response(201, Created(t)) && rows == old(rows) + [t]
      ensures response.status == 201 <==> rows != old(rows)
    {
      if session.None? {
        return UnauthorizedResponse;
      }
      if body.Malformed? {
        return CreateFailedResponse;
      }
      var parsed := CreateTransactionSchema(body.payload);
      if parsed.Err? {
        return InvalidDataResponse(parsed.error);
      }
      if storeFails {
        return CreateFailedResponse;
      }
      CreatedSatisfiesTransactionSchema(body.payload);
      var t := NewRow(parsed.value, session.value);
      rows := rows + [t];
      response := Response(201, Created(t));
    }
  }

  /** Every row of a valid store has a positive amount, a description of 1 to 255 characters and a real date. */
  lemma StoredRowsWellFormed(store: TransactionStore)
    requires store.Valid()
    ensures forall i :: 0 <= i < |store.rows| ==>
              store.rows[i].amount > 0.0 && 1 <= |store.rows[i].description| <= MaxDescriptionLength
              && RealDay(store.rows[i].date)
  {
    forall i | 0 <= i < |store.rows|
      ensures store.rows[i].amount > 0.0 && 1 <= |store.rows[i].description| <= MaxDescriptionLength
              && RealDay(store.rows[i].date)
    {
      var t := store.rows[i];
      assert WellFormed(t);
    }
  }

  /** A user's list from a valid store is in calendar order: no row is dated before a later one. */
  lemma StoredListNewestFirst(store: TransactionStore, user: UserId, i: nat, j: nat)
    requires store.Valid()
    requires i < j < |ListFor(store.rows, user)|
    ensures !Before(ListFor(store.rows, user)[i].date, ListFor(store.rows, user)[j].date)
  {
    StoredRowsWellFormed(store);
    ListedNewestFirst(store.rows, user, i, j);
  }

  /** A second list with no create in between gives the same answer. */
  method ListTwice(store: TransactionStore, session: Option<UserId>, storeFails: bool) returns (first: Response, second: Response)
    ensures first == second
  {
    first := store.Get(session, storeFails);
    second := store.Get(session, storeFails);
  }

  /** Creating a transaction and listing as its owner shows that transaction. */
  method CreateThenList(store: TransactionStore, user: UserId, cents: nat, description: string, kind: TxType, date: CalendarDate)
    returns (created: Response, listed: Response)
    requires store.Valid()
    requires cents > 0 && 1 <= |description| <= MaxDescriptionLength && ValidDate(date)
    modifies store
    ensures created.status == 201 && listed.status == 200
    ensures listed.body.Rows? && Transaction(cents as real / 100.0, description, kind, date, user) in listed.body.rows
  {
    PayloadRoundTrip(cents, description, kind, date);
    var payload := Object(RawTransaction(
      Str(NumberParse.FormatCents(cents)), Str(description), Str(TypeName(kind)), Str(FormatDate(date))));
    var row := Transaction(cents as real / 100.0, description, kind, date, user);
    assert NewRow(CreateTransactionSchema(payload).value, user) == row;
    created := store.Post(Some(user), Json(payload), false);
    assert row in store.rows;
    listed := store.Get(Some(user), false);
  }

  // Properties of listing.

  /** A row created by another user never changes what a user lists. */
  lemma OtherUsersRowInvisible(rows: seq<Transaction>, t: Transaction, user: UserId)
    requires t.userId != user
    ensures ListFor(rows + [t], user) == ListFor(rows, user)
  {
    OwnedByAppend(rows, t, user);
    var owned := OwnedBy(rows, user);
    assert owned + [] == owned;
  }

  lemma OwnedByAppend(rows: seq<Transaction>, t: Transaction, user: UserId)
    ensures OwnedBy(rows + [t], user) == OwnedBy(rows, user) + (if t.userId == user then [t] else [])
  {
    assert (rows + [t])[..|rows|] == rows;
  }

  /** The owner's list after a create is the old list with the new row sorted in. */
  lemma CreatedRowListed(rows: seq<Transaction>, t: Transaction)
    ensures multiset(ListFor(rows + [t], t.userId)) == multiset(ListFor(rows, t.userId)) + multiset{t}
    ensures t in ListFor(rows + [t], t.userId)
  {
    OwnedByAppend(rows, t, t.userId);
    assert t in multiset(ListFor(rows + [t], t.userId));
  }

  /** In a listed order, no row is dated before a row that follows it. */
  lemma ListedNewestFirst(rows: seq<Transaction>, user: UserId, i: nat, j: nat)
    requires forall k :: 0 <= k < |rows| ==> RealDay(rows[k].date)
    requires i < j < |ListFor(rows, user)|
    ensures !Before(ListFor(rows, user)[i].date, ListFor(rows, user)[j].date)
  {
    var listed := ListFor(rows, user);
    assert listed[i] in multiset(rows) && listed[j] in multiset(rows);
    DateKeyOrder(listed[i].date, listed[j].date);
  }
}
