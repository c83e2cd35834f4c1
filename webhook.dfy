/**
 * The payment provider's webhook: a verified `checkout.session.completed`
 * event inserts one premium, active row built from the session's
 * `metadata.jobData`.
 */
module Webhook {
  import opened Wrappers
  import opened Text
  import opened Jobs
  import opened Stripe
  import opened Http

  /** The request: its `stripe-signature` header and its raw body. */
  datatype WebhookRequest = WebhookRequest(signature: Option<string>, body: string)

  const CompletedEvent := "checkout.session.completed"
  const MissingSignature := "Missing stripe signature or webhook secret"
  const NoJobData := "No job data found in session metadata"
  /** The message of the ReferenceError raised by the unbound name `createClient`. */
  const CreateClientUndefined := "createClient is not defined"

  /** `session.metadata?.jobData`. */
  function JobDataOf(s: Session): Option<string> {
    if s.metadata.Some? && "jobData" in s.metadata.value then Some(s.metadata.value["jobData"]) else None
  }

  /**
   * `{...jobData, type: 'premium', is_active: true, posted_at: now, expires_at: now + 30 days}`;
   * none when a column the table declares NOT NULL is absent, which the store rejects.
   */
  function PremiumRow(d: JobData, freshId: Id, now: Time): (r: Option<Row>)
    ensures r.Some? <==> d.title.Some? && d.company.Some? && d.location.Some? && d.description.Some?
                         && d.source.Some? && d.url.Some?
    ensures r.Some? ==> && r.value.kind == "premium" && r.value.isActive == Some(true)
                        && r.value.postedAt == Some(now) && r.value.expiresAt == Some(now + 30 * Day)
    ensures r.Some? ==> && r.value.id == d.id.GetOr(freshId)
                        && Some(r.value.title) == d.title && Some(r.value.company) == d.company
                        && Some(r.value.location) == d.location && Some(r.value.description) == d.description
                        && Some(r.value.source) == d.source && Some(r.value.url) == d.url
                        && r.value.category == d.category && r.value.salary == d.salary
                        && r.value.phone == d.phone && r.value.email == d.email
                        && r.value.paymentStatus == d.paymentStatus
                        && r.value.titleIn == d.titleIn && r.value.descriptionIn == d.descriptionIn
                        && r.value.createdAt == d.createdAt && r.value.updatedAt == d.updatedAt
  {
    if d.title.None? || d.company.None? || d.location.None? || d.description.None? || d.source.None? || d.url.None? then
      None
    else
      Some(Row(d.id.GetOr(freshId), d.title.value, d.company.value, d.location.value, d.description.value,
               d.category, d.salary, d.phone, d.email, d.titleIn, d.descriptionIn,
               "premium", d.paymentStatus, Some(true), Some(now), Some(now + 30 * Day), d.createdAt, d.updatedAt,
               d.source.value, d.url.value))
  }

  /** The outer `catch`: every thrown error answers 400. */
  function BadRequest(message: string): Response {
    Response(400, Error(message))
  }

  /** The verified event, or the error `constructEvent` throws. */
  function VerifiedEvent(req: WebhookRequest, secret: Option<string>,
                         constructEvent: (string, string, string) -> Result<Event, string>): Result<Event, string> {
    if !Truthy(req.signature) || !Truthy(secret) then Failure(MissingSignature)
    else constructEvent(req.body, req.signature.value, secret.value)
  }

  /** The job data the handler goes on to insert: that of a verified completed event whose `jobData` parses. */
  function ParsedJobData(req: WebhookRequest, secret: Option<string>,
                         constructEvent: (string, string, string) -> Result<Event, string>,
                         parse: string -> Result<JobData, string>): Option<JobData> {
    match VerifiedEvent(req, secret, constructEvent)
    case Failure(_) => None
    case Success(event) =>
      var pending := JobDataOf(event.session);
      if event.eventType != CompletedEvent || !Truthy(pending) then None
      else match parse(pending.value)
        case Failure(_) => None
        case Success(jobData) => Some(jobData)
  }

  /**
   * The handler with `createClient` imported. `secret` is `STRIPE_WEBHOOK_SECRET`,
   * `constructEvent` the provider's signature check, `parse` is `JSON.parse`,
   * `freshId` the id the store generates and `insertFailure` an error the store reports.
   */
  function Webhook(rows: Table, req: WebhookRequest, secret: Option<string>,
                   constructEvent: (string, string, string) -> Result<Event, string>,
                   parse: string -> Result<JobData, string>,
                   now: Time, freshId: Id, insertFailure: Option<string>): (o: Outcome)
    ensures o.response.status == 200 || o.response.status == 400
    ensures o.response.status == 200 <==> o.response.body == Received
    ensures o.response.status == 400 ==> o.rows == rows
    ensures !Truthy(req.signature) || !Truthy(secret) ==> o == Outcome(BadRequest(MissingSignature), rows)
    ensures VerifiedEvent(req, secret, constructEvent).Failure? ==>
              o == Outcome(BadRequest(VerifiedEvent(req, secret, constructEvent).error), rows)
    ensures forall k | k in rows :: k in o.rows && o.rows[k] == rows[k]
    ensures o.rows.Keys - rows.Keys == {} || |o.rows.Keys - rows.Keys| == 1
    ensures forall k | k in o.rows && k !in rows ::
              && o.rows[k].kind == "premium" && o.rows[k].isActive == Some(true)
              && o.rows[k].postedAt == Some(now) && o.rows[k].expiresAt == Some(now + 30 * Day)
    ensures VerifiedEvent(req, secret, constructEvent).Success? ==>
              var event := VerifiedEvent(req, secret, constructEvent).value;
              && (event.eventType != CompletedEvent ==> o == Outcome(Response(200, Received), rows))
              && (event.eventType == CompletedEvent && !Truthy(JobDataOf(event.session)) ==>
                    o == Outcome(BadRequest(NoJobData), rows))
              && (event.eventType == CompletedEvent && Truthy(JobDataOf(event.session))
                  && parse(JobDataOf(event.session).value).Failure? ==>
                    o == Outcome(BadRequest(parse(JobDataOf(event.session).value).error), rows))
              && (event.eventType == CompletedEvent && o.response.status == 200 ==> |o.rows| == |rows| + 1)
    ensures o.rows != rows ==>
              var d := ParsedJobData(req, secret, constructEvent, parse);
              && d.Some? && PremiumRow(d.value, freshId, now).Some?
              && var row := PremiumRow(d.value, freshId, now).value;
                 row.id !in rows && o.rows == rows[row.id := row]
    ensures ParsedJobData(req, secret, constructEvent, parse).Some? ==>
              var row := PremiumRow(ParsedJobData(req, secret, constructEvent, parse).value, freshId, now);
              && (row.None? ==> o == Outcome(BadRequest(NotNullViolation), rows))
              && (row.Some? && insertFailure.Some? ==> o == Outcome(BadRequest(insertFailure.value), rows))
              && (row.Some? && insertFailure.None? && row.value.id in rows ==> o == Outcome(BadRequest(DuplicateKey), rows))
              && (row.Some? && insertFailure.None? && row.value.id !in rows ==>
                    o == Outcome(Response(200, Received), rows[row.value.id := row.value]))
  {
    match VerifiedEvent(req, secret, constructEvent)
    case Failure(message) => Outcome(BadRequest(message), rows)
    case Success(event) =>
      if event.eventType != CompletedEvent then Outcome(Response(200, Received), rows)
      else
        var pendingJobData := JobDataOf(event.session);
        if !Truthy(pendingJobData) then Outcome(BadRequest(NoJobData), rows)
        else match parse(pendingJobData.value)
          case Failure(message) => Outcome(BadRequest(message), rows)
          case Success(jobData) =>
            match PremiumRow(jobData, freshId, now)
            case None => Outcome(BadRequest(NotNullViolation), rows)
            case Some(row) =>
              if insertFailure.Some? then Outcome(BadRequest(insertFailure.value), rows)
              else if row.id in rows then Outcome(BadRequest(DuplicateKey), rows)
              else
                assert rows[row.id := row].Keys - rows.Keys == {row.id};
                Outcome(Response(200, Received), rows[row.id := row])
  }

  /** The request handler of the webhook, with the store client it is evidently meant to create. */
  method HandleWebhook(db: JobsTable, req: WebhookRequest, secret: Option<string>,
                       constructEvent: (string, string, string) -> Result<Event, string>,
                       parse: string -> Result<JobData, string>,
                       now: Time, freshId: Id, insertFailure: Option<string>) returns (response: Response)
    requires db.Valid()
    modifies db
    ensures db.Valid()
    ensures Outcome(response, db.rows)
         == Webhook(old(db.rows), req, secret, constructEvent, parse, now, freshId, insertFailure)
  {
    if !Truthy(req.signature) || !Truthy(secret) {
      return BadRequest(MissingSignature);
    }
    var event := constructEvent(req.body, req.signature.value, secret.value);
    if event.Failure? {
      return BadRequest(event.error);
    }
    if event.value.eventType == CompletedEvent {
      var pendingJobData := JobDataOf(event.value.session);
      if !Truthy(pendingJobData) {
        return BadRequest(NoJobData);
      }
      var jobData := parse(pendingJobData.value);
      if jobData.Failure? {
        return BadRequest(jobData.error);
      }
      var row := PremiumRow(jobData.value, freshId, now);
      if row.None? {
        return BadRequest(NotNullViolation);
      }
      var error := db.Insert(row.value, insertFailure);
      if error.Some? {
        return BadRequest(error.value);
      }
    }
    response := Response(200, Received);
  }

  /**
   * The handler as written: it calls `createClient` to make the store client,
   * but that name is never imported, so every completed event whose job data
   * parses throws there, before the insert. It never touches the table.
   */
  function WebhookAsWritten(req: WebhookRequest, secret: Option<string>,
                            constructEvent: (string, string, string) -> Result<Event, string>,
                            parse: string -> Result<JobData, string>): (r: Response)
    ensures r.status == 200 || r.status == 400
    ensures r.status == 200 <==>
              VerifiedEvent(req, secret, constructEvent).Success?
              && VerifiedEvent(req, secret, constructEvent).value.eventType != CompletedEvent
    ensures ParsedJobData(req, secret, constructEvent, parse).Some? ==> r == BadRequest(CreateClientUndefined)
    ensures VerifiedEvent(req, secret, constructEvent).Failure? ==>
              r == BadRequest(VerifiedEvent(req, secret, constructEvent).error)
    ensures VerifiedEvent(req, secret, constructEvent).Success? ==>
              var event := VerifiedEvent(req, secret, constructEvent).value;
              && (event.eventType == CompletedEvent && !Truthy(JobDataOf(event.session)) ==> r == BadRequest(NoJobData))
              && (event.eventType == CompletedEvent && Truthy(JobDataOf(event.session))
                  && parse(JobDataOf(event.session).value).Failure? ==>
                    r == BadRequest(parse(JobDataOf(event.session).value).error))
  {
    match VerifiedEvent(req, secret, constructEvent)
    case Failure(message) => BadRequest(message)
    case Success(event) =>
      if event.eventType != CompletedEvent then Response(200, Received)
      else
        var pendingJobData := JobDataOf(event.session);
        if !Truthy(pendingJobData) then BadRequest(NoJobData)
        else match parse(pendingJobData.value)
          case Failure(message) => BadRequest(message)
          case Success(_) => BadRequest(CreateClientUndefined)
  }

  /**
   * Whenever the handler with the import would append a row, the handler as
   * written answers 400 instead; when it answers 200, nothing was to be inserted.
   */
  lemma AsWrittenNeverInserts(rows: Table, req: WebhookRequest, secret: Option<string>,
                              constructEvent: (string, string, string) -> Result<Event, string>,
                              parse: string -> Result<JobData, string>,
                              now: Time, freshId: Id, insertFailure: Option<string>)
    ensures var fixed := Webhook(rows, req, secret, constructEvent, parse, now, freshId, insertFailure);
      && (fixed.rows != rows ==> WebhookAsWritten(req, secret, constructEvent, parse) == BadRequest(CreateClientUndefined))
      && (WebhookAsWritten(req, secret, constructEvent, parse).status == 200 ==>
            fixed == Outcome(Response(200, Received), rows))
      && (ParsedJobData(req, secret, constructEvent, parse).None? ==>
            fixed == Outcome(WebhookAsWritten(req, secret, constructEvent, parse), rows))
  {
  }

  /** One event that shows it: a completed session whose metadata holds a complete job. */
  lemma MissingImportExample(rows: Table)
    requires "job-1" !in rows
    ensures var session := Session("cs_1", "complete", None, Some("succeeded"), Some(map["jobData" := "{}"]));
      var constructEvent := (body: string, sig: string, key: string) => Success(Event(CompletedEvent, session));
      var job := JobData(None, Some("Driver"), Some("Acme"), Some("Athens"), Some("driver"), Some("Deliveries"),
                         None, None, None, None, Some("web"), Some("https://example.org"), None,
                         Untranslated, Untranslated, None, None);
      var parse := (s: string) => Success(job);
      var req := WebhookRequest(Some("t=1,v1=sig"), "{}");
      && WebhookAsWritten(req, Some("whsec"), constructEvent, parse).status == 400
      && Webhook(rows, req, Some("whsec"), constructEvent, parse, 0, "job-1", None).response.status == 200
      && |Webhook(rows, req, Some("whsec"), constructEvent, parse, 0, "job-1", None).rows| == |rows| + 1
  {
  }

  /**
   * No deduplication: delivering the same completed event again appends a
   * second row when the job data carries no id of its own.
   */
  lemma RedeliveryAppendsAgain(rows: Table, req: WebhookRequest, secret: Option<string>,
                               constructEvent: (string, string, string) -> Result<Event, string>,
                               parse: string -> Result<JobData, string>,
                               now: Time, firstId: Id, secondId: Id)
    requires VerifiedEvent(req, secret, constructEvent).Success?
    requires VerifiedEvent(req, secret, constructEvent).value.eventType == CompletedEvent
    requires Webhook(rows, req, secret, constructEvent, parse, now, firstId, None).response.status == 200
    requires var pending := JobDataOf(VerifiedEvent(req, secret, constructEvent).value.session);
      pending.Some? && parse(pending.value).Success? && parse(pending.value).value.id.None?
    requires secondId != firstId && secondId !in rows
    ensures var once := Webhook(rows, req, secret, constructEvent, parse, now, firstId, None).rows;
      var twice := Webhook(once, req, secret, constructEvent, parse, now, secondId, None);
      twice.response.status == 200 && |twice.rows| == |rows| + 2
  {
  }
}
