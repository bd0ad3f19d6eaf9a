/** The handlers of /api/debts after `authMiddleware` has attached the
    caller. Each returns the reply it sends; the persistence call behind
    POST is an oracle that either stores the debt or fails. */
module DebtRoutes {
  import opened Wrappers
  import opened Records
  import opened Js
  import opened Http
  import opened DebtChainService

  /** GET /: the `status` query value goes to `getAllDebts` as it is. */
  function GetDebts(caller: PublicUser, status: Option<string>, debts: seq<StoredDebt>, users: Directory)
    : (r: Reply<seq<DebtView>>)
    ensures var listed := GetAllDebts(caller.id, status, debts, users);
      && (r.Ok? <==> listed.Success?)
      && (r.Ok? ==> r == Ok(200, listed.value))
      && (r.Error? ==> r == Error(500, "Failed to fetch debts"))
  {
    match GetAllDebts(caller.id, status, debts, users)
    case Success(listed) => Ok(200, listed)
    case Failure(_) => Error(500, "Failed to fetch debts")
  }

  /** The arguments handed to `createDebt`. The body's values are passed on
      uncast; `new Date(dueDate)` and the store's casting are the oracle's. */
  datatype NewDebt = NewDebt(creditorId: UserId, debtorId: Json, amount: Json, description: Json, dueDate: Json)

  /** The reply of POST /, and what it handed to `createDebt`, if anything. */
  datatype PostOutcome = PostOutcome(reply: Reply<StoredDebt>, submitted: Option<NewDebt>)

  predicate HasRequiredFields(debtorId: Json, amount: Json, description: Json, dueDate: Json)
  {
    Truthy(debtorId) && Truthy(amount) && Truthy(description) && Truthy(dueDate)
  }

  /** POST /: 400 when any required field is falsy, otherwise `createDebt` with
      the caller as creditor; 201 with the stored debt, or 500 when the store
      fails or the body cannot be destructured. */
  function PostDebt(caller: PublicUser, body: Json, persist: NewDebt -> Option<StoredDebt>): (r: PostOutcome)
    ensures (body.Undefined? || body.Null?) ==>
      r == PostOutcome(Error(500, "Failed to create debt"), None)
    ensures !body.Undefined? && !body.Null? ==>
      var debtorId := Property(body, "debtorId").value;
      var amount := Property(body, "amount").value;
      var description := Property(body, "description").value;
      var dueDate := Property(body, "dueDate").value;
      && (r.reply == Error(400, "Missing required fields") <==> !HasRequiredFields(debtorId, amount, description, dueDate))
      && (r.submitted.Some? <==> HasRequiredFields(debtorId, amount, description, dueDate))
      && (r.submitted.Some? ==> r.submitted.value == NewDebt(caller.id, debtorId, amount, description, dueDate))
    ensures r.submitted.Some? ==>
      r.reply == match persist(r.submitted.value)
                 case Some(debt) => Ok(201, debt)
                 case None => Error(500, "Failed to create debt")
    ensures r.reply.Ok? ==> r.reply.status == 201 && r.submitted.Some? && persist(r.submitted.value) == Some(r.reply.data)
    ensures r.reply.Error? ==> r.reply.status in {400, 500}
  {
    if body.Undefined? || body.Null? then
      PostOutcome(Error(500, "Failed to create debt"), None)
    else
      var debtorId := Property(body, "debtorId").value;
      var amount := Property(body, "amount").value;
      var description := Property(body, "description").value;
      var dueDate := Property(body, "dueDate").value;
      if !Truthy(debtorId) || !Truthy(amount) || !Truthy(description) || !Truthy(dueDate) then
        PostOutcome(Error(400, "Missing required fields"), None)
      else
        var request := NewDebt(caller.id, debtorId, amount, description, dueDate);
        match persist(request)
        case Some(debt) => PostOutcome(Ok(201, debt), Some(request))
        case None => PostOutcome(Error(500, "Failed to create debt"), Some(request))
  }

  /** A request body object with the four fields. */
  function Body(debtorId: Json, amount: Json, description: Json, dueDate: Json): Json
  {
    Object(map["debtorId" := debtorId, "amount" := amount, "description" := description, "dueDate" := dueDate])
  }

  /** An amount of 0 is falsy and refused, and nothing reaches `createDebt`. */
  lemma ZeroAmountRejected(caller: PublicUser, debtorId: Json, description: Json, dueDate: Json,
                           persist: NewDebt -> Option<StoredDebt>)
    ensures PostDebt(caller, Body(debtorId, Number(0.0), description, dueDate), persist)
      == PostOutcome(Error(400, "Missing required fields"), None)
  {
  }

  /** A body missing a field (`undefined`) is refused the same way. */
  lemma MissingFieldRejected(caller: PublicUser, members: map<string, Json>, persist: NewDebt -> Option<StoredDebt>)
    requires "description" !in members
    ensures PostDebt(caller, Object(members), persist) == PostOutcome(Error(400, "Missing required fields"), None)
  {
  }

  /** The check accepts negative amounts, and a debt the caller owes to themself. */
  lemma NegativeSelfDebtSubmitted(caller: PublicUser, amount: real, persist: NewDebt -> Option<StoredDebt>)
    requires caller.id != "" && amount < 0.0
    ensures var r := PostDebt(caller, Body(Str(caller.id), Number(amount), Str("lunch"), Str("2024-01-01")), persist);
      r.submitted == Some(NewDebt(caller.id, Str(caller.id), Number(amount), Str("lunch"), Str("2024-01-01")))
  {
  }

  /** The creditor is the caller even when the body names another one. */
  lemma CreditorIsCaller(caller: PublicUser, body: Json, persist: NewDebt -> Option<StoredDebt>, other: Json)
    requires body.Object?
    ensures PostDebt(caller, Object(body.members["creditorId" := other]), persist).submitted.Some? ==>
      PostDebt(caller, Object(body.members["creditorId" := other]), persist).submitted.value.creditorId == caller.id
  {
  }

  /** GET /summary. */
  function GetSummary(caller: PublicUser, debts: seq<StoredDebt>, users: Directory): (r: Reply<Summary>)
    ensures var summary := GetDebtSummary(caller.id, debts, users);
      && (r.Ok? <==> summary.Success?)
      && (r.Ok? ==> r == Ok(200, summary.value))
      && (r.Error? ==> r == Error(500, "Failed to fetch summary"))
  {
    match GetDebtSummary(caller.id, debts, users)
    case Success(summary) => Ok(200, summary)
    case Failure(_) => Error(500, "Failed to fetch summary")
  }

  /** GET /chains: always a successful, empty list. */
  function GetChains(): (r: Reply<seq<DebtChain>>)
    ensures r == Ok(200, [])
  {
    Ok(200, FindDebtChains())
  }
}
