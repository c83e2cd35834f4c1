/**
 * The reconciliation sweep: recent checkout sessions are matched against the
 * jobs table and every paid job that is not already paid and visible is
 * activated.
 */
module PaymentSweep {
  import opened Wrappers
  import opened Text
  import opened Jobs
  import opened Stripe
  import opened Http

  ghost predicate Distinct(ids: seq<Id>) {
    forall i, j :: 0 <= i < j < |ids| ==> ids[i] != ids[j]
  }

  /** A session counts as completed: complete, with a reference, and its payment succeeded. */
  predicate IsCompleted(s: Session) {
    s.status == "complete" && Truthy(s.clientReferenceId) && s.paymentIntentStatus == Some("succeeded")
  }

  /** `sessions.data.filter(...)`, keeping the order of the listing. */
  function CompletedSessions(sessions: seq<Session>): (completed: seq<Session>)
    ensures |completed| <= |sessions|
    ensures forall s :: s in completed <==> s in sessions && IsCompleted(s)
    ensures forall s :: multiset(completed)[s] == if IsCompleted(s) then multiset(sessions)[s] else 0
  {
    if sessions == [] then []
    else
      assert sessions == [sessions[0]] + sessions[1..];
      var rest := CompletedSessions(sessions[1..]);
      if IsCompleted(sessions[0]) then [sessions[0]] + rest else rest
  }

  /**
   * The job id one session adds to `paidJobIds`: none when it has no
   * reference, when its payment has not succeeded, when the reference does not
   * decode, or when the decoded `id` is falsy.
   */
  function ReferencedJob(s: Session, decode: string -> Option<JobData>): (r: Option<Id>)
    ensures r.Some? <==> && Truthy(s.clientReferenceId)
                         && s.paymentIntentStatus == Some("succeeded")
                         && decode(s.clientReferenceId.value).Some?
                         && Truthy(decode(s.clientReferenceId.value).value.id)
    ensures r.Some? ==> r == decode(s.clientReferenceId.value).value.id
  {
    if !Truthy(s.clientReferenceId) then None
    else if s.paymentIntentStatus != Some("succeeded") then None
    else match decode(s.clientReferenceId.value)
      case None => None
      case Some(jobData) => if Truthy(jobData.id) then jobData.id else None
  }

  /** The insertion-ordered set `paidJobIds` after the first `|sessions|` iterations. */
  function PaidJobIds(sessions: seq<Session>, decode: string -> Option<JobData>): (ids: seq<Id>)
    ensures Distinct(ids)
    ensures |ids| <= |sessions|
    ensures forall i | 0 <= i < |sessions| && ReferencedJob(sessions[i], decode).Some? ::
              ReferencedJob(sessions[i], decode).value in ids
    ensures forall x | x in ids :: exists i :: 0 <= i < |sessions| && ReferencedJob(sessions[i], decode) == Some(x)
    decreases |sessions|
  {
    if sessions == [] then []
    else
      var n := |sessions| - 1;
      var prefix := PaidJobIds(sessions[..n], decode);
      var x := ReferencedJob(sessions[n], decode);
      assert forall i | 0 <= i < n :: sessions[..n][i] == sessions[i];
      if x.Some? && x.value !in prefix then prefix + [x.value] else prefix
  }

  /** The `for` loop of the handler over the completed sessions. */
  method CollectPaidJobIds(completed: seq<Session>, decode: string -> Option<JobData>) returns (paidJobIds: seq<Id>)
    ensures paidJobIds == PaidJobIds(completed, decode)
  {
    paidJobIds := [];
    for i := 0 to |completed|
      invariant paidJobIds == PaidJobIds(completed[..i], decode)
    {
      assert completed[..i + 1][..i] == completed[..i];
      var session := completed[i];
      if !Truthy(session.clientReferenceId) {
        continue;
      }
      if session.paymentIntentStatus != Some("succeeded") {
        continue;
      }
      // a reference that does not decode is logged and skipped
      var jobData := decode(session.clientReferenceId.value);
      if jobData.None? {
        continue;
      }
      if Truthy(jobData.value.id) && jobData.value.id.value !in paidJobIds {
        paidJobIds := paidJobIds + [jobData.value.id.value];
      }
    }
    assert completed[..|completed|] == completed;
  }

  /**
   * Whether the second loop writes job `id` and counts it: its status lookup
   * succeeds, it is not already paid and visible, and the update succeeds.
   */
  predicate Activates(rows: Table, id: Id, statusFails: Id -> bool, updateFails: Id -> bool) {
    !statusFails(id) && id in rows && !IsActivated(StatusOf(rows[id])) && !updateFails(id)
  }

  /** The table after the second loop has run over `ids`. */
  function SweptRows(rows: Table, ids: seq<Id>, statusFails: Id -> bool, updateFails: Id -> bool): (swept: Table)
    ensures swept.Keys == rows.Keys
  {
    map k | k in rows :: if k in ids && Activates(rows, k, statusFails, updateFails) then Activated(rows[k]) else rows[k]
  }

  /** `processedCount` after the second loop has run over `ids`. */
  function CountActivated(rows: Table, ids: seq<Id>, statusFails: Id -> bool, updateFails: Id -> bool): (n: nat)
    ensures n <= |ids|
    decreases |ids|
  {
    if ids == [] then 0
    else
      var n := |ids| - 1;
      CountActivated(rows, ids[..n], statusFails, updateFails)
        + (if Activates(rows, ids[n], statusFails, updateFails) then 1 else 0)
  }

  /** One more id changes at most that id's row, and only when the loop activates it. */
  lemma SweptStep(rows: Table, prefix: seq<Id>, id: Id, statusFails: Id -> bool, updateFails: Id -> bool)
    requires id !in prefix
    ensures SweptRows(rows, prefix + [id], statusFails, updateFails)
         == if Activates(rows, id, statusFails, updateFails)
            then SweptRows(rows, prefix, statusFails, updateFails)[id := Activated(rows[id])]
            else SweptRows(rows, prefix, statusFails, updateFails)
  {
    var longer := SweptRows(rows, prefix + [id], statusFails, updateFails);
    var shorter := SweptRows(rows, prefix, statusFails, updateFails);
    var expected := if Activates(rows, id, statusFails, updateFails) then shorter[id := Activated(rows[id])] else shorter;
    forall k | k in rows ensures longer[k] == expected[k] {
      assert (k in prefix + [id]) == (k in prefix || k == id);
    }
    assert longer.Keys == expected.Keys;
  }

  /** The ids of `ids` whose job the second loop activates. */
  ghost function ActivatedIds(rows: Table, ids: seq<Id>, statusFails: Id -> bool, updateFails: Id -> bool): set<Id> {
    set k | k in ids && Activates(rows, k, statusFails, updateFails)
  }

  /** `processedCount` is the number of distinct ids the loop activates. */
  lemma {:induction false} CountIsActivatedIds(rows: Table, ids: seq<Id>, statusFails: Id -> bool, updateFails: Id -> bool)
    requires Distinct(ids)
    ensures CountActivated(rows, ids, statusFails, updateFails) == |ActivatedIds(rows, ids, statusFails, updateFails)|
    decreases |ids|
  {
    if ids != [] {
      var n := |ids| - 1;
      var prefix := ids[..n];
      var id := ids[n];
      assert Distinct(prefix) by {
        forall i, j | 0 <= i < j < |prefix| ensures prefix[i] != prefix[j] {
          assert prefix[i] == ids[i] && prefix[j] == ids[j];
        }
      }
      CountIsActivatedIds(rows, prefix, statusFails, updateFails);
      assert ids == prefix + [id];
      assert id !in prefix by {
        forall i | 0 <= i < n ensures prefix[i] != id {
          assert prefix[i] == ids[i];
        }
      }
      var before := ActivatedIds(rows, prefix, statusFails, updateFails);
      var after := ActivatedIds(rows, ids, statusFails, updateFails);
      if Activates(rows, id, statusFails, updateFails) {
        assert after == before + {id};
      } else {
        assert after == before;
      }
    }
  }

  /** The loop of the handler over `paidJobIds` with its `processedCount`. */
  method ActivatePaidJobs(db: JobsTable, paidJobIds: seq<Id>, statusFails: Id -> bool, updateFails: Id -> bool)
    returns (processedCount: nat)
    requires db.Valid() && Distinct(paidJobIds)
    modifies db
    ensures db.Valid()
    ensures db.rows == SweptRows(old(db.rows), paidJobIds, statusFails, updateFails)
    ensures processedCount == CountActivated(old(db.rows), paidJobIds, statusFails, updateFails)
  {
    ghost var rows0 := db.rows;
    processedCount := 0;
    assert paidJobIds[..0] == [];
    if |paidJobIds| > 0 {
      for i := 0 to |paidJobIds|
        invariant db.Valid()
        invariant db.rows == SweptRows(rows0, paidJobIds[..i], statusFails, updateFails)
        invariant processedCount == CountActivated(rows0, paidJobIds[..i], statusFails, updateFails)
      {
        var jobId := paidJobIds[i];
        assert paidJobIds[..i + 1] == paidJobIds[..i] + [jobId];
        assert jobId !in paidJobIds[..i];
        SweptStep(rows0, paidJobIds[..i], jobId, statusFails, updateFails);
        var jobStatus := db.SelectStatus(jobId, statusFails(jobId));
        if jobStatus.None? {
          continue;
        }
        if !IsActivated(jobStatus.value) {
          var ok := db.MarkPaid(jobId, updateFails(jobId));
          if ok {
            processedCount := processedCount + 1;
          }
        }
      }
    }
    assert paidJobIds[..|paidJobIds|] == paidJobIds;
  }

  /** The environment variables the function reads. */
  datatype Env = Env(stripeSecretKey: Option<string>, supabaseUrl: Option<string>, serviceRoleKey: Option<string>)

  /**
   * One invocation: the request's `authorization` header, the environment,
   * and what the providers answer. `listing` is the outcome of
   * `stripe.checkout.sessions.list`; `pendingJobsError` the error of the
   * pending-jobs select; `statusFails` and `updateFails` say for which job ids
   * the status lookup and the update report an error.
   */
  datatype SweepInput = SweepInput(
    authorization: Option<string>,
    env: Env,
    listing: Result<seq<Session>, string>,
    pendingJobsError: Option<string>,
    statusFails: Id -> bool,
    updateFails: Id -> bool)

  const MissingAuthorization := "Missing authorization header"
  const InvalidAuthorization := "Invalid authorization header"
  const MissingStripeKey := "Missing Stripe secret key"
  const MissingCredentials := "Missing Supabase credentials"

  /** The outer `catch`: status 401 when the message mentions authorization, 500 otherwise. */
  function ErrorResponse(message: string): (r: Response)
    ensures r.status == 401 || r.status == 500
    ensures r.status == 401 <==> Contains(message, "authorization")
    ensures r.body == Error(message)
  {
    Response(if Contains(message, "authorization") then 401 else 500, Error(message))
  }

  /**
   * The message of the first check of the handler that fails, in the order
   * the handler makes them: the authorization header, the bearer token, the
   * Stripe key, the session listing, the store credentials, the pending-jobs
   * query.
   */
  function Rejection(input: SweepInput): (m: Option<string>)
    ensures m.None? <==> && Truthy(input.authorization)
                         && RemoveFirst(input.authorization.value, "Bearer ") != ""
                         && Truthy(input.env.stripeSecretKey)
                         && input.listing.Success?
                         && Truthy(input.env.supabaseUrl) && Truthy(input.env.serviceRoleKey)
                         && input.pendingJobsError.None?
  {
    if !Truthy(input.authorization) then Some(MissingAuthorization)
    else if RemoveFirst(input.authorization.value, "Bearer ") == "" then Some(InvalidAuthorization)
    else if !Truthy(input.env.stripeSecretKey) then Some(MissingStripeKey)
    else match input.listing
      case Failure(message) => Some(message)
      case Success(_) =>
        if !Truthy(input.env.supabaseUrl) || !Truthy(input.env.serviceRoleKey) then Some(MissingCredentials)
        else input.pendingJobsError
  }

  /** What one invocation answers and leaves in the table. */
  function Sweep(rows: Table, input: SweepInput, decode: string -> Option<JobData>): (o: Outcome)
    ensures o.rows.Keys == rows.Keys
    ensures o.response.body.Summary? <==> o.response.status == 200
    ensures o.response.body.Summary? ==>
              var b := o.response.body;
              b.processedJobs <= b.uniquePaidJobs <= b.completedSessions <= b.totalSessions
    ensures !o.response.body.Summary? ==> o.rows == rows
    ensures forall k | k in rows :: o.rows[k] == rows[k] || o.rows[k] == Activated(rows[k])
    ensures Rejection(input).Some? ==> o == Outcome(ErrorResponse(Rejection(input).value), rows)
  {
    match Rejection(input)
    case Some(message) => Outcome(ErrorResponse(message), rows)
    case None =>
      var completed := CompletedSessions(input.listing.value);
      var ids := PaidJobIds(completed, decode);
      var processed := CountActivated(rows, ids, input.statusFails, input.updateFails);
      Outcome(Response(200, Summary(|input.listing.value|, |completed|, |ids|, processed)),
              SweptRows(rows, ids, input.statusFails, input.updateFails))
  }

  /** The request handler of the payment sweep. */
  method CheckStripePayments(db: JobsTable, input: SweepInput, decode: string -> Option<JobData>)
    returns (response: Response)
    requires db.Valid()
    modifies db
    ensures db.Valid()
    ensures Outcome(response, db.rows) == Sweep(old(db.rows), input, decode)
  {
    if !Truthy(input.authorization) {
      return ErrorResponse(MissingAuthorization);
    }
    var anonKey := RemoveFirst(input.authorization.value, "Bearer ");
    if anonKey == "" {
      return ErrorResponse(InvalidAuthorization);
    }
    if !Truthy(input.env.stripeSecretKey) {
      return ErrorResponse(MissingStripeKey);
    }
    if input.listing.Failure? {
      return ErrorResponse(input.listing.error);
    }
    var sessions := input.listing.value;
    var completed := CompletedSessions(sessions);
    if !Truthy(input.env.supabaseUrl) || !Truthy(input.env.serviceRoleKey) {
      return ErrorResponse(MissingCredentials);
    }
    if input.pendingJobsError.Some? {
      return ErrorResponse(input.pendingJobsError.value);
    }
    var paidJobIds := CollectPaidJobIds(completed, decode);
    var processedCount := ActivatePaidJobs(db, paidJobIds, input.statusFails, input.updateFails);
    response := Response(200, Summary(|sessions|, |completed|, |paidJobIds|, processedCount));
  }

  /** A 200 answer is the summary of the two loops over the listed sessions. */
  lemma SweepSuccess(rows: Table, input: SweepInput, decode: string -> Option<JobData>)
    requires Sweep(rows, input, decode).response.status == 200
    ensures Rejection(input).None? && input.listing.Success?
    ensures var completed := CompletedSessions(input.listing.value);
            var ids := PaidJobIds(completed, decode);
            Sweep(rows, input, decode)
              == Outcome(Response(200, Summary(|input.listing.value|, |completed|, |ids|,
                                               CountActivated(rows, ids, input.statusFails, input.updateFails))),
                         SweptRows(rows, ids, input.statusFails, input.updateFails))
  {
  }

  /** The reported `processedJobs` is the number of rows the sweep changed. */
  lemma ProcessedCountsChangedRows(rows: Table, input: SweepInput, decode: string -> Option<JobData>)
    requires Sweep(rows, input, decode).response.status == 200
    ensures var o := Sweep(rows, input, decode);
            o.response.body.processedJobs == |set k | k in rows && o.rows[k] != rows[k]|
  {
    SweepSuccess(rows, input, decode);
    var ids := PaidJobIds(CompletedSessions(input.listing.value), decode);
    var swept := SweptRows(rows, ids, input.statusFails, input.updateFails);
    CountIsActivatedIds(rows, ids, input.statusFails, input.updateFails);
    var changed := set k | k in rows && swept[k] != rows[k];
    assert changed == ActivatedIds(rows, ids, input.statusFails, input.updateFails);
  }

  lemma MissingAuthorizationMentionsIt()
    ensures Contains(MissingAuthorization, "authorization")
  {
    assert MissingAuthorization == "Missing " + "authorization" + " header";
    ContainsMiddle("Missing ", "authorization", " header");
  }

  lemma InvalidAuthorizationMentionsIt()
    ensures Contains(InvalidAuthorization, "authorization")
  {
    assert InvalidAuthorization == "Invalid " + "authorization" + " header";
    ContainsMiddle("Invalid ", "authorization", " header");
  }

  /** A message without a 'z' cannot mention authorization. */
  lemma NoAuthorizationWithoutZ(message: string)
    requires 'z' !in message
    ensures !Contains(message, "authorization")
  {
    if Contains(message, "authorization") {
      assert "authorization"[7] == 'z';
      ContainsChar(message, "authorization", 'z');
    }
  }

  lemma MissingStripeKeyOmitsIt()
    ensures !Contains(MissingStripeKey, "authorization")
  {
    NoAuthorizationWithoutZ(MissingStripeKey);
  }

  lemma MissingCredentialsOmitsIt()
    ensures !Contains(MissingCredentials, "authorization")
  {
    NoAuthorizationWithoutZ(MissingCredentials);
  }

  /**
   * An absent, empty or bare `Bearer ` header gives 401 and leaves the table
   * alone. A header value reaches the handler with trailing white space
   * trimmed, so of these only the absent and the empty header arrive in
   * practice; `BearerWithoutSpacePasses` is the near miss that does arrive.
   */
  lemma UnauthorizedStatus(rows: Table, input: SweepInput, decode: string -> Option<JobData>)
    requires input.authorization.None? || input.authorization == Some("") || input.authorization == Some("Bearer ")
    ensures Sweep(rows, input, decode) == Outcome(Response(401, Error(
              if Truthy(input.authorization) then InvalidAuthorization else MissingAuthorization)), rows)
  {
    if Truthy(input.authorization) { InvalidAuthorizationMentionsIt(); } else { MissingAuthorizationMentionsIt(); }
  }

  /** A missing Stripe key or missing store credentials give 500 and leave the table alone. */
  lemma ConfigurationStatus(rows: Table, input: SweepInput, decode: string -> Option<JobData>)
    requires Truthy(input.authorization) && input.authorization != Some("Bearer ")
    requires !Truthy(input.env.stripeSecretKey)
          || (input.listing.Success? && (!Truthy(input.env.supabaseUrl) || !Truthy(input.env.serviceRoleKey)))
    ensures Sweep(rows, input, decode).response.status == 500
    ensures Sweep(rows, input, decode).rows == rows
  {
    if !Truthy(input.env.stripeSecretKey) { MissingStripeKeyOmitsIt(); } else { MissingCredentialsOmitsIt(); }
  }

  /**
   * The header `Bearer`, without the space, does not contain the prefix: it
   * passes the token check unchanged and is sent on as the key.
   */
  lemma BearerWithoutSpacePasses()
    ensures RemoveFirst("Bearer", "Bearer ") == "Bearer"
  {
    assert !Contains("Bearer", "Bearer ") by {
      if Contains("Bearer", "Bearer ") { ContainsLonger("Bearer", "Bearer "); }
    }
  }

  /**
   * A failed session listing is rethrown to the outer catch: its own message,
   * 401 if that mentions authorization and 500 otherwise, and no change.
   */
  lemma ListingFailureStatus(rows: Table, input: SweepInput, decode: string -> Option<JobData>)
    requires Truthy(input.authorization) && input.authorization != Some("Bearer ")
    requires Truthy(input.env.stripeSecretKey) && input.listing.Failure?
    ensures Sweep(rows, input, decode) == Outcome(ErrorResponse(input.listing.error), rows)
    ensures Sweep(rows, input, decode).response.status
         == if Contains(input.listing.error, "authorization") then 401 else 500
  {
  }

  /** A failed pending-jobs fetch gives 500 unless its message mentions authorization. */
  lemma PendingFetchStatus(rows: Table, input: SweepInput, decode: string -> Option<JobData>)
    requires Truthy(input.authorization) && input.authorization != Some("Bearer ")
    requires Truthy(input.env.stripeSecretKey) && input.listing.Success?
    requires Truthy(input.env.supabaseUrl) && Truthy(input.env.serviceRoleKey)
    requires input.pendingJobsError.Some?
    ensures Sweep(rows, input, decode) == Outcome(ErrorResponse(input.pendingJobsError.value), rows)
    ensures Sweep(rows, input, decode).response.status
         == if Contains(input.pendingJobsError.value, "authorization") then 401 else 500
  {
  }

  /** The jobs that may change are exactly those some completed session names. */
  lemma {:induction false} ActivationIsPerJob(rows: Table, input: SweepInput, decode: string -> Option<JobData>, k: Id)
    requires Sweep(rows, input, decode).response.status == 200 && k in rows
    ensures var completed := CompletedSessions(input.listing.value);
      (Sweep(rows, input, decode).rows[k] != rows[k]) ==
      ((exists i :: 0 <= i < |completed| && ReferencedJob(completed[i], decode) == Some(k))
       && Activates(rows, k, input.statusFails, input.updateFails))
  {
    SweepSuccess(rows, input, decode);
    var completed := CompletedSessions(input.listing.value);
    var ids := PaidJobIds(completed, decode);
    if exists i :: 0 <= i < |completed| && ReferencedJob(completed[i], decode) == Some(k) {
      var i :| 0 <= i < |completed| && ReferencedJob(completed[i], decode) == Some(k);
      assert k in ids;
    }
  }

  /** A job that is already paid and visible is neither written nor counted as processed. */
  lemma AlreadyActivatedUntouched(rows: Table, input: SweepInput, decode: string -> Option<JobData>, k: Id)
    requires Sweep(rows, input, decode).response.status == 200
    requires k in rows && IsActivated(StatusOf(rows[k]))
    ensures Sweep(rows, input, decode).rows[k] == rows[k]
    ensures !Activates(rows, k, input.statusFails, input.updateFails)
  {
    SweepSuccess(rows, input, decode);
  }

  /** When no listed id activates, the second loop counts nothing and changes nothing. */
  lemma {:induction false} NoneActivated(rows: Table, ids: seq<Id>, statusFails: Id -> bool, updateFails: Id -> bool)
    requires forall k | k in ids :: !Activates(rows, k, statusFails, updateFails)
    ensures CountActivated(rows, ids, statusFails, updateFails) == 0
    ensures SweptRows(rows, ids, statusFails, updateFails) == rows
    decreases |ids|
  {
    if ids != [] {
      NoneActivated(rows, ids[..|ids| - 1], statusFails, updateFails);
    }
  }

  /**
   * Idempotence: after a run in which no status lookup and no update failed,
   * a second run over the same sessions changes no row and reports no
   * processed job, whatever its own lookups and updates do.
   */
  lemma SweepIdempotent(rows: Table, first: SweepInput, second: SweepInput, decode: string -> Option<JobData>)
    requires Sweep(rows, first, decode).response.status == 200
    requires second.listing == first.listing
    requires forall k | k in PaidJobIds(CompletedSessions(first.listing.value), decode) ::
               !first.statusFails(k) && !first.updateFails(k)
    ensures var after := Sweep(rows, first, decode).rows;
      var again := Sweep(after, second, decode);
      again.rows == after && (again.response.body.Summary? ==> again.response.body.processedJobs == 0)
  {
    SweepSuccess(rows, first, decode);
    var after := Sweep(rows, first, decode).rows;
    var ids := PaidJobIds(CompletedSessions(first.listing.value), decode);
    forall k | k in ids ensures !Activates(after, k, second.statusFails, second.updateFails) {
      if k in after {
        assert IsActivated(StatusOf(after[k]));
      }
    }
    NoneActivated(after, ids, second.statusFails, second.updateFails);
  }
}
