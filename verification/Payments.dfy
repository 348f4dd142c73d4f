/** Payment attempts: idempotent create-or-replay with at most one success per booking. */
module Payments {
  import opened Prelude
  import opened Bookings

  datatype Outcome = SUCCESS | FAILURE

  datatype AttemptStatus = SUCCEEDED | FAILED

  /** SHA-256 over the request's JSON text is taken as injective, so the fields stand for it. */
  datatype RequestContent = RequestContent(bookingId: Uuid, owner: Owner, amountVnd: int, outcome: Outcome)

  datatype PaymentRequest = PaymentRequest(content: RequestContent, key: string)

  datatype Attempt =
    Attempt(id: Uuid, bookingId: Uuid, owner: Owner, amountVnd: int, status: AttemptStatus,
            key: string, content: RequestContent, createdAt: int)

  datatype PaymentError = InvalidAmount | IdempotencyConflict | MissingRecord

  /** `enqueued` holds the attempt ids of the payment events, in order. */
  datatype Ledger = Ledger(attempts: seq<Attempt>, enqueued: seq<Uuid>)

  datatype Paid<+T> = Paid(ledger: Ledger, out: Result<T, PaymentError>)

  const EMPTY_LEDGER := Ledger([], [])

  predicate ValidAmount(amount: int) { 1 <= amount <= 2147483647 }

  function StatusFor(outcome: Outcome): AttemptStatus { if outcome == FAILURE then FAILED else SUCCEEDED }

  /** `toPersistInput`, with the fresh id and the clock as parameters. */
  function ToPersistInput(request: PaymentRequest, id: Uuid, at: int): Attempt {
    var content := request.content;
    Attempt(id, content.bookingId, content.owner, content.amountVnd, StatusFor(content.outcome),
            request.key, content, at)
  }

  function HasKey(bookingId: Uuid, key: string): Attempt -> bool {
    (a: Attempt) => a.bookingId == bookingId && a.key == key
  }

  function SuccessOf(bookingId: Uuid): Attempt -> bool {
    (a: Attempt) => a.bookingId == bookingId && a.status == SUCCEEDED
  }

  function CreationTime(a: Attempt): int { a.createdAt }

  /** One of the unique indexes refuses the row. */
  predicate IndexConflict(attempts: seq<Attempt>, row: Attempt) {
    exists a :: a in attempts &&
      (|| a.id == row.id
       || (a.bookingId == row.bookingId && a.key == row.key)
       || (a.bookingId == row.bookingId && a.status == SUCCEEDED && row.status == SUCCEEDED))
  }

  function FindByIdempotency(ledger: Ledger, bookingId: Uuid, key: string): Option<Attempt> {
    var rows := Filter(ledger.attempts, HasKey(bookingId, key));
    if rows == [] then None else Some(rows[0])
  }

  function FindSuccess(ledger: Ledger, bookingId: Uuid): Option<Attempt> {
    var rows := SortBy(Filter(ledger.attempts, SuccessOf(bookingId)), CreationTime);
    if rows == [] then None else Some(rows[0])
  }

  function Persist(ledger: Ledger, row: Attempt): Ledger {
    if IndexConflict(ledger.attempts, row) then ledger   // ON CONFLICT DO NOTHING
    else Ledger(ledger.attempts + [row], ledger.enqueued + [row.id])
  }

  /** `PaymentRepository.createOrReplay`; the transaction rolls back when it throws. */
  function CreateOrReplayAttempt(ledger: Ledger, row: Attempt): Paid<Attempt> {
    var after := Persist(ledger, row);
    match FindByIdempotency(after, row.bookingId, row.key)
    case Some(a) => Paid(after, Ok(a))
    case None =>
      match if row.status == SUCCEEDED then FindSuccess(after, row.bookingId) else None
      case Some(a) => Paid(after, Ok(a))
      case None => Paid(ledger, Err(MissingRecord))
  }

  function Checked(ledger: Ledger, found: Attempt, request: PaymentRequest): Paid<Attempt> {
    if found.content != request.content then Paid(ledger, Err(IdempotencyConflict)) else Paid(ledger, Ok(found))
  }

  /** `createPaymentAttempt`; `earlier` is what its first lookup saw, `ledger` what its transaction meets. */
  function CreatePaymentAttempt(earlier: Ledger, ledger: Ledger, request: PaymentRequest, id: Uuid, at: int)
    : Paid<Attempt>
  {
    if !ValidAmount(request.content.amountVnd) then Paid(ledger, Err(InvalidAmount))
    else
      match FindByIdempotency(earlier, request.content.bookingId, request.key)
      case Some(a) => Checked(ledger, a, request)
      case None =>
        var result := CreateOrReplayAttempt(ledger, ToPersistInput(request, id, at));
        if result.out.Err? then result else Checked(result.ledger, result.out.value, request)
  }

  // ---------------------------------------------------------------- the table's invariant

  /** The unique indexes, and the fact that every row was written from its own request. */
  ghost predicate AttemptsOk(ledger: Ledger) {
    var rows := ledger.attempts;
    && (forall i, j :: 0 <= i < j < |rows| ==> !Clash(rows[i], rows[j]))
    && (forall a :: a in rows ==> WellFormed(a))
    && ledger.enqueued == Map(rows, AttemptId)
  }

  function AttemptId(a: Attempt): Uuid { a.id }

  predicate Clash(a: Attempt, b: Attempt) {
    || a.id == b.id
    || (a.bookingId == b.bookingId && (a.key == b.key || (a.status == SUCCEEDED && b.status == SUCCEEDED)))
  }

  predicate WellFormed(a: Attempt) {
    && ValidAmount(a.amountVnd)
    && a.content.bookingId == a.bookingId && a.content.owner == a.owner && a.content.amountVnd == a.amountVnd
    && a.status == StatusFor(a.content.outcome)
  }

  predicate Extends(before: Ledger, after: Ledger) {
    && |before.attempts| <= |after.attempts|
    && after.attempts[..|before.attempts|] == before.attempts
  }

  lemma Unique(ledger: Ledger, a: Attempt, b: Attempt)
    requires AttemptsOk(ledger) && a in ledger.attempts && b in ledger.attempts && Clash(a, b)
    ensures a == b
  {
    var i :| 0 <= i < |ledger.attempts| && ledger.attempts[i] == a;
    var j :| 0 <= j < |ledger.attempts| && ledger.attempts[j] == b;
    assert Clash(b, a);
    if i != j {
      assert false;
    }
  }

  lemma FindsByKey(ledger: Ledger, bookingId: Uuid, key: string)
    requires AttemptsOk(ledger)
    ensures forall a :: a in ledger.attempts && a.bookingId == bookingId && a.key == key ==>
      FindByIdempotency(ledger, bookingId, key) == Some(a)
    ensures match FindByIdempotency(ledger, bookingId, key)
      case Some(a) => a in ledger.attempts && a.bookingId == bookingId && a.key == key
      case None => true
  {
    var rows := Filter(ledger.attempts, HasKey(bookingId, key));
    if rows != [] {
      FilterMember(ledger.attempts, rows[0], HasKey(bookingId, key));
    }
    forall a | a in ledger.attempts && a.bookingId == bookingId && a.key == key
      ensures FindByIdempotency(ledger, bookingId, key) == Some(a)
    {
      FilterMember(ledger.attempts, a, HasKey(bookingId, key));
      Unique(ledger, a, rows[0]);
    }
  }

  lemma FindsSuccess(ledger: Ledger, bookingId: Uuid)
    requires AttemptsOk(ledger)
    ensures forall a :: a in ledger.attempts && a.bookingId == bookingId && a.status == SUCCEEDED ==>
      FindSuccess(ledger, bookingId) == Some(a)
    ensures match FindSuccess(ledger, bookingId)
      case Some(a) => a in ledger.attempts && a.bookingId == bookingId && a.status == SUCCEEDED
      case None => true
  {
    var found := Filter(ledger.attempts, SuccessOf(bookingId));
    var rows := SortBy(found, CreationTime);
    SortByRows(found, CreationTime);
    if rows != [] {
      assert rows[0] in multiset(rows);
      FilterMember(ledger.attempts, rows[0], SuccessOf(bookingId));
    }
    forall a | a in ledger.attempts && a.bookingId == bookingId && a.status == SUCCEEDED
      ensures FindSuccess(ledger, bookingId) == Some(a)
    {
      FilterMember(ledger.attempts, a, SuccessOf(bookingId));
      assert a in multiset(rows);
      Unique(ledger, a, rows[0]);
    }
  }

  lemma PersistKeeps(ledger: Ledger, request: PaymentRequest, id: Uuid, at: int)
    requires AttemptsOk(ledger) && ValidAmount(request.content.amountVnd)
    ensures AttemptsOk(Persist(ledger, ToPersistInput(request, id, at)))
    ensures Extends(ledger, Persist(ledger, ToPersistInput(request, id, at)))
  {
    var row := ToPersistInput(request, id, at);
    if !IndexConflict(ledger.attempts, row) {
      forall i | 0 <= i < |ledger.attempts| ensures !Clash(ledger.attempts[i], row) {
        assert ledger.attempts[i] in ledger.attempts;
      }
    }
  }

  /** Whatever a call answers, the table keeps its invariant and only grows. */
  lemma {:induction false} AttemptKeeps(earlier: Ledger, ledger: Ledger, request: PaymentRequest, id: Uuid, at: int)
    requires AttemptsOk(ledger)
    ensures AttemptsOk(CreatePaymentAttempt(earlier, ledger, request, id, at).ledger)
    ensures Extends(ledger, CreatePaymentAttempt(earlier, ledger, request, id, at).ledger)
  {
    hide AttemptsOk, Extends;
    ExtendsItself(ledger);
    if ValidAmount(request.content.amountVnd) {
      PersistKeeps(ledger, request, id, at);
      LedgerAfter(ledger, ToPersistInput(request, id, at));
    }
    hide CreateOrReplayAttempt, FindByIdempotency;
  }

  lemma ExtendsItself(ledger: Ledger)
    ensures Extends(ledger, ledger)
  {
  }

  lemma LedgerAfter(ledger: Ledger, row: Attempt)
    ensures CreateOrReplayAttempt(ledger, row).ledger in {ledger, Persist(ledger, row)}
  {
    hide Persist, FindByIdempotency, FindSuccess;
  }

  /** The first lookup only saves work: whatever ran in between, the answer is the one given without it. */
  lemma StaleLookupIsHarmless(earlier: Ledger, ledger: Ledger, request: PaymentRequest, id: Uuid, at: int)
    requires AttemptsOk(ledger) && AttemptsOk(earlier) && Extends(earlier, ledger)
    ensures CreatePaymentAttempt(earlier, ledger, request, id, at) ==
      CreatePaymentAttempt(ledger, ledger, request, id, at)
    ensures CreatePaymentAttempt(earlier, ledger, request, id, at) ==
      CreatePaymentAttempt(EMPTY_LEDGER, ledger, request, id, at)
  {
    FindsByKey(earlier, request.content.bookingId, request.key);
    FindsByKey(ledger, request.content.bookingId, request.key);
    forall a | a in earlier.attempts ensures a in ledger.attempts {
      assert a in ledger.attempts[..|earlier.attempts|];
    }
    if FindByIdempotency(ledger, request.content.bookingId, request.key).Some? {
      var a := FindByIdempotency(ledger, request.content.bookingId, request.key).value;
      assert IndexConflict(ledger.attempts, ToPersistInput(request, id, at));
    }
  }

  predicate FreshAttempt(ledger: Ledger, id: Uuid) {
    forall a :: a in ledger.attempts ==> a.id != id
  }

  /**
   A booking's one success is what every later payment request for it is answered with,
   under any idempotency key, until a key is reused for something else: the answer is that
   attempt exactly when the request asks for the same success and its key does not already
   name a different attempt.
   */
  lemma RetryGetsTheSuccess(ledger: Ledger, success: Attempt, request: PaymentRequest, id: Uuid, at: int)
    requires AttemptsOk(ledger) && success in ledger.attempts && success.status == SUCCEEDED
    requires request.content.bookingId == success.bookingId && request.content.outcome == SUCCESS
    ensures
      var answer := CreatePaymentAttempt(ledger, ledger, request, id, at);
      && answer.ledger == ledger
      && (answer.out == Ok(success) <==>
            && request.content == success.content
            && forall a :: a in ledger.attempts && a.bookingId == success.bookingId && a.key == request.key ==>
              a == success)
      && (answer.out != Ok(success) ==> answer.out.Err?)
  {
    var row := ToPersistInput(request, id, at);
    FindsByKey(ledger, row.bookingId, row.key);
    FindsSuccess(ledger, row.bookingId);
    assert IndexConflict(ledger.attempts, row);
    match FindByIdempotency(ledger, row.bookingId, row.key)
    case Some(a) =>
      if a != success && a.content == request.content {
        Unique(ledger, a, success);
        assert false;
      }
    case None =>
  }

  /** What `createOrReplay` returns is stored; if it writes, it returns the new row. */
  lemma {:induction false} ReplayIsStored(ledger: Ledger, row: Attempt)
    requires AttemptsOk(ledger) && AttemptsOk(Persist(ledger, row))
    ensures
      var result := CreateOrReplayAttempt(ledger, row);
      && (result.out.Ok? ==> result.out.value in result.ledger.attempts && WellFormed(result.out.value))
      && (result.ledger != ledger ==> result.out == Ok(row))
  {
    var after := Persist(ledger, row);
    FindsByKey(after, row.bookingId, row.key);
    FindsSuccess(after, row.bookingId);
    assert after != ledger ==> row in after.attempts;
    hide Persist, FindByIdempotency, FindSuccess;
  }

  /** What an answer means to the caller that receives it. */
  predicate Answers(before: Ledger, answer: Paid<Attempt>, content: RequestContent) {
    match answer.out
    case Ok(a) =>
      && a in answer.ledger.attempts && a.content == content && WellFormed(a)
      && a.bookingId == content.bookingId && a.amountVnd == content.amountVnd
    case Err(_) => answer.ledger == before
  }

  lemma CheckedAnswers(before: Ledger, ledger: Ledger, found: Attempt, request: PaymentRequest)
    requires found in ledger.attempts && WellFormed(found)
    requires found.content != request.content ==> ledger == before
    ensures Answers(before, Checked(ledger, found, request), request.content)
  {
  }

  lemma {:induction false} TransactionAnswers(ledger: Ledger, row: Attempt, request: PaymentRequest)
    requires AttemptsOk(ledger) && AttemptsOk(Persist(ledger, row)) && row.content == request.content
    ensures
      var result := CreateOrReplayAttempt(ledger, row);
      Answers(ledger, if result.out.Err? then result else Checked(result.ledger, result.out.value, request),
              request.content)
  {
    ReplayIsStored(ledger, row);
    hide CreateOrReplayAttempt, Persist, AttemptsOk, WellFormed, Checked, Answers;
    var result := CreateOrReplayAttempt(ledger, row);
    if result.out.Ok? {
      CheckedAnswers(ledger, result.ledger, result.out.value, request);
    } else {
      RefusalAnswers(ledger, result, request.content);
    }
  }

  lemma RefusalAnswers(before: Ledger, answer: Paid<Attempt>, content: RequestContent)
    requires answer.out.Err? && answer.ledger == before
    ensures Answers(before, answer, content)
  {
  }

  /** Every successful answer is a stored attempt with the request's content; a refusal writes nothing. */
  lemma {:induction false} AnswerIsStored(ledger: Ledger, request: PaymentRequest, id: Uuid, at: int)
    requires AttemptsOk(ledger)
    ensures Answers(ledger, CreatePaymentAttempt(ledger, ledger, request, id, at), request.content)
  {
    var row := ToPersistInput(request, id, at);
    var answer := CreatePaymentAttempt(ledger, ledger, request, id, at);
    if !ValidAmount(request.content.amountVnd) {
      RefusalAnswers(ledger, answer, request.content);
    } else {
      FindsByKey(ledger, row.bookingId, row.key);
      PersistKeeps(ledger, request, id, at);
      assert forall a :: a in ledger.attempts ==> WellFormed(a);
      hide Answers, AttemptsOk, Checked, Persist, FindByIdempotency, CreateOrReplayAttempt;
      match FindByIdempotency(ledger, row.bookingId, row.key)
      case Some(a) => CheckedAnswers(ledger, ledger, a, request);
      case None => TransactionAnswers(ledger, row, request);
    }
  }

  /**
   Every answer: an amount outside 1 to 2147483647 is refused; a key that names an attempt repeats it
   for the same content only; a new key adds the attempt it asks for, except that a success of a
   booking that has one repeats that success for the same content only.
   */
  lemma AttemptAnswers(ledger: Ledger, request: PaymentRequest, id: Uuid, at: int)
    requires AttemptsOk(ledger) && FreshAttempt(ledger, id)
    ensures
      var answer, content := CreatePaymentAttempt(ledger, ledger, request, id, at), request.content;
      var row := Attempt(id, content.bookingId, content.owner, content.amountVnd,
                         if content.outcome == SUCCESS then SUCCEEDED else FAILED, request.key, content, at);
      if content.amountVnd < 1 || 2147483647 < content.amountVnd then answer == Paid(ledger, Err(InvalidAmount))
      else
        && (forall a :: Known(ledger, request, a) ==> answer == Checking(ledger, a, content))
        && ((forall a :: !Known(ledger, request, a)) ==>
              && (forall a :: Succeeded(ledger, content, a) ==> answer == Checking(ledger, a, content))
              && ((forall a :: !Succeeded(ledger, content, a)) ==>
                    answer == Paid(Ledger(ledger.attempts + [row], ledger.enqueued + [id]), Ok(row))))
  {
    var row := ToPersistInput(request, id, at);
    FindsByKey(ledger, row.bookingId, row.key);
    if ValidAmount(request.content.amountVnd) {
      match FindByIdempotency(ledger, row.bookingId, row.key)
      case Some(found) =>
        assert Known(ledger, request, found);
      case None =>
        NewKeyAnswers(ledger, request, id, at);
    }
    hide FindByIdempotency, AttemptsOk, CreateOrReplayAttempt;
  }

  predicate Known(ledger: Ledger, request: PaymentRequest, a: Attempt) {
    a in ledger.attempts && a.bookingId == request.content.bookingId && a.key == request.key
  }

  /** The request asks for a success the booking already has. */
  predicate Succeeded(ledger: Ledger, content: RequestContent, a: Attempt) {
    && a in ledger.attempts && a.bookingId == content.bookingId && a.status == SUCCEEDED
    && content.outcome == SUCCESS
  }

  lemma NewKeyAnswers(ledger: Ledger, request: PaymentRequest, id: Uuid, at: int)
    requires AttemptsOk(ledger) && FreshAttempt(ledger, id) && ValidAmount(request.content.amountVnd)
    requires forall a :: !Known(ledger, request, a)
    ensures
      var row, content := ToPersistInput(request, id, at), request.content;
      var result := CreateOrReplayAttempt(ledger, row);
      && (forall a :: Succeeded(ledger, content, a) ==> result == Paid(ledger, Ok(a)))
      && ((forall a :: !Succeeded(ledger, content, a)) ==>
            result == Paid(Ledger(ledger.attempts + [row], ledger.enqueued + [id]), Ok(row)))
  {
    var row := ToPersistInput(request, id, at);
    var after := Persist(ledger, row);
    PersistKeeps(ledger, request, id, at);
    FindsByKey(after, row.bookingId, row.key);
    FindsSuccess(ledger, row.bookingId);
    forall a | a in ledger.attempts && a.bookingId == row.bookingId ensures a.key != row.key {
      assert !Known(ledger, request, a);
    }
    if a :| Succeeded(ledger, request.content, a) {
      assert IndexConflict(ledger.attempts, row);
    } else {
      NoConflict(ledger, request, row);
      assert row in after.attempts;
    }
    hide FindByIdempotency, FindSuccess, AttemptsOk, IndexConflict;
  }

  lemma NoConflict(ledger: Ledger, request: PaymentRequest, row: Attempt)
    requires FreshAttempt(ledger, row.id) && row.bookingId == request.content.bookingId
    requires row.status == StatusFor(request.content.outcome)
    requires forall a :: a in ledger.attempts && a.bookingId == row.bookingId ==> a.key != row.key
    requires forall a :: !Succeeded(ledger, request.content, a)
    ensures !IndexConflict(ledger.attempts, row)
  {
    forall a | a in ledger.attempts
      ensures !(a.bookingId == row.bookingId && a.status == SUCCEEDED && row.status == SUCCEEDED)
    {
      assert !Succeeded(ledger, request.content, a);
    }
  }

  /** A stored attempt, given only to a request for the same. */
  function Checking(ledger: Ledger, a: Attempt, content: RequestContent): Paid<Attempt> {
    Paid(ledger, if a.content == content then Ok(a) else Err(IdempotencyConflict))
  }

  // ---------------------------------------------------------------- the service

  class PaymentService {
    var attempts: seq<Attempt>
    var enqueued: seq<Uuid>

    constructor ()
      ensures Table() == EMPTY_LEDGER
    {
      attempts, enqueued := [], [];
    }

    function Table(): Ledger
      reads this
    {
      Ledger(attempts, enqueued)
    }

    method PersistRow(row: Attempt) returns (out: Result<Attempt, PaymentError>)
      modifies this
      ensures Paid(Table(), out) == CreateOrReplayAttempt(old(Table()), row)
    {
      var inserted := !IndexConflict(attempts, row);
      if inserted {
        attempts := attempts + [row];
        enqueued := enqueued + [row.id];
      }
      var idempotent := FindByIdempotency(Table(), row.bookingId, row.key);
      if idempotent.Some? { return Ok(idempotent.value); }
      if row.status == SUCCEEDED {
        var successful := FindSuccess(Table(), row.bookingId);
        if successful.Some? { return Ok(successful.value); }
      }
      if inserted {
        attempts, enqueued := attempts[..|attempts| - 1], enqueued[..|enqueued| - 1];
      }
      return Err(MissingRecord);
    }

    /** Answers as one atomic step would, and keeps at most one success per booking. */
    method Create(request: PaymentRequest, id: Uuid, at: int) returns (out: Result<Attempt, PaymentError>)
      requires AttemptsOk(Table())
      modifies this
      ensures AttemptsOk(Table()) && Extends(old(Table()), Table())
      ensures Paid(Table(), out) == CreatePaymentAttempt(EMPTY_LEDGER, old(Table()), request, id, at)
    {
      AttemptKeeps(Table(), Table(), request, id, at);
      StaleLookupIsHarmless(Table(), Table(), request, id, at);
      if !ValidAmount(request.content.amountVnd) { return Err(InvalidAmount); }
      var replay := FindByIdempotency(Table(), request.content.bookingId, request.key);
      if replay.Some? {
        return if replay.value.content != request.content then Err(IdempotencyConflict) else Ok(replay.value);
      }
      var persisted := PersistRow(ToPersistInput(request, id, at));
      if persisted.Ok? && persisted.value.content != request.content { return Err(IdempotencyConflict); }
      return persisted;
    }
  }
}
