/**
 * How the pieces meet: what a posted listing looks like on the feed and on its
 * card, and what becomes of a premium checkout along the two payment paths.
 */
module Lifecycle {
  import opened Wrappers
  import opened Jobs
  import opened Stripe
  import opened Http
  import opened PaymentSweep
  import opened JobForm
  import opened Webhook
  import opened Feed
  import opened JobCard

  /**
   * A free post that the store accepted is on the feed at once, under no
   * category filter, under "all" and under its own category, with an empty
   * search term; its card shows the free badge.
   */
  lemma PostedFreeJobIsListed(f: FormData, rows: Table, now: Time, origin: string, encode: JobData -> string,
                              freshId: Id, insertFailure: Option<string>,
                              selected: Option<string>, lower: string -> string)
    requires Submit(f, rows, now, origin, encode, freshId, insertFailure).outcome.Posted?
    requires selected == None || selected == Some("all") || selected == Some(f.category)
    ensures var after := Submit(f, rows, now, origin, encode, freshId, insertFailure).rows;
            && after[freshId] in Listing(after, selected, "", lower)
            && BadgeOf(after[freshId].kind) == FreeBadge
  {
    var after := Submit(f, rows, now, origin, encode, freshId, insertFailure).rows;
    assert after[freshId] in after.Values;
  }

  /**
   * The card of a free post shows days remaining for exactly ten days after
   * the submit, and "expired" from then on.
   */
  lemma FreeJobExpiresAfterTenDays(f: FormData, rows: Table, now: Time, origin: string, encode: JobData -> string,
                                   freshId: Id, insertFailure: Option<string>, later: Time)
    requires Submit(f, rows, now, origin, encode, freshId, insertFailure).outcome.Posted?
    ensures var row := Submit(f, rows, now, origin, encode, freshId, insertFailure).rows[freshId];
            ExpiryLabelOf(row.expiresAt, later).DaysRemaining? <==> later < now + 10 * Day
    ensures var row := Submit(f, rows, now, origin, encode, freshId, insertFailure).rows[freshId];
            DaysLeft(row.expiresAt, now) == 10
  {
    DaysLeftAtPosting(now, 10);
  }

  /** A card looked at when its row is `n` whole days from expiry shows `n` days left. */
  lemma DaysLeftAtPosting(now: Time, n: int)
    ensures DaysLeft(Some(now + n * Day), now) == n
  {
    var d := DaysLeft(Some(now + n * Day), now);
    assert (d - 1) * Day < n * Day <= d * Day;
  }

  /** A premium, active row that expires in 30 days, as the card and the feed show it. */
  lemma PremiumRowOnCard(t: Table, k: Id, now: Time, lower: string -> string)
    requires k in t && t[k].kind == "premium" && t[k].isActive == Some(true)
    requires t[k].expiresAt == Some(now + 30 * Day)
    ensures BadgeOf(t[k].kind) == PremiumBadge
    ensures t[k] in Listing(t, None, "", lower)
    ensures DaysLeft(t[k].expiresAt, now) == 30
  {
    assert t[k] in t.Values;
    DaysLeftAtPosting(now, 30);
  }

  /**
   * A row the webhook appends carries the premium badge, is listed with no
   * category filter and no search term, and its card starts at 30 days left.
   */
  lemma WebhookRowIsPremium(rows: Table, req: WebhookRequest, secret: Option<string>,
                            constructEvent: (string, string, string) -> Result<Event, string>,
                            parse: string -> Result<JobData, string>,
                            now: Time, freshId: Id, insertFailure: Option<string>,
                            k: Id, lower: string -> string)
    requires var o := Webhook.Webhook(rows, req, secret, constructEvent, parse, now, freshId, insertFailure);
             k in o.rows && k !in rows
    ensures var after := Webhook.Webhook(rows, req, secret, constructEvent, parse, now, freshId, insertFailure).rows;
            && BadgeOf(after[k].kind) == PremiumBadge
            && after[k] in Listing(after, None, "", lower)
            && DaysLeft(after[k].expiresAt, now) == 30
  {
    var o := Webhook.Webhook(rows, req, secret, constructEvent, parse, now, freshId, insertFailure);
    PremiumRowOnCard(o.rows, k, now, lower);
  }

  /**
   * The feed does not look at `expires_at`: a listed row of the selected
   * category is shown even when its card reads "expired".
   */
  lemma ExpiredStillListed(t: Table, k: Id, selected: Option<string>, lower: string -> string, now: Time)
    requires k in t && IsListed(t[k]) && InCategory(t[k], selected)
    requires ExpiryLabelOf(t[k].expiresAt, now) == Expired
    ensures t[k] in Listing(t, selected, "", lower)
  {
    assert t[k] in t.Values;
  }

  /**
   * A reference the payment link carries names no job: when every session
   * holds an encoded premium reference, and decoding inverts encoding, no
   * session adds an id.
   */
  lemma {:induction false} PremiumReferencesNameNoJob(sessions: seq<Session>,
                                                      decode: string -> Option<JobData>,
                                                      encode: JobData -> string,
                                                      forms: seq<FormData>, origin: string)
    requires forall d :: decode(encode(d)) == Some(d)
    requires |forms| == |sessions|
    requires forall i | 0 <= i < |forms| ::
               sessions[i].clientReferenceId == Some(encode(PremiumReference(forms[i], origin)))
    ensures PaidJobIds(CompletedSessions(sessions), decode) == []
  {
    var completed := CompletedSessions(sessions);
    NoReferenceNoIds(completed, decode);
  }

  /** Sessions none of which names a job add no id. */
  lemma {:induction false} NoReferenceNoIds(completed: seq<Session>, decode: string -> Option<JobData>)
    requires forall s | s in completed :: ReferencedJob(s, decode).None?
    ensures PaidJobIds(completed, decode) == []
    decreases |completed|
  {
    if completed != [] {
      var n := |completed| - 1;
      forall s | s in completed[..n] ensures ReferencedJob(s, decode).None? {
        var i :| 0 <= i < n && completed[..n][i] == s;
        assert completed[i] == s;
      }
      NoReferenceNoIds(completed[..n], decode);
      assert completed[n] in completed;
    }
  }

  /**
   * So a sweep over checkouts made through the payment link collects no id
   * and changes no row.
   */
  lemma PremiumCheckoutActivatesNothing(rows: Table, input: SweepInput,
                                        decode: string -> Option<JobData>,
                                        encode: JobData -> string,
                                        forms: seq<FormData>, origin: string)
    requires Sweep(rows, input, decode).response.status == 200
    requires forall d :: decode(encode(d)) == Some(d)
    requires |forms| == |input.listing.value|
    requires forall i | 0 <= i < |forms| ::
               input.listing.value[i].clientReferenceId == Some(encode(PremiumReference(forms[i], origin)))
    ensures Sweep(rows, input, decode).rows == rows
    ensures Sweep(rows, input, decode).response.body.uniquePaidJobs == 0
    ensures Sweep(rows, input, decode).response.body.processedJobs == 0
  {
    PremiumReferencesNameNoJob(input.listing.value, decode, encode, forms, origin);
    NoneActivated(rows, [], input.statusFails, input.updateFails);
  }

  /**
   * A completed checkout whose session carries no `jobData` metadata makes the
   * webhook answer 400 and insert nothing. Every checkout made through the
   * payment link is one: the link sets no metadata at all.
   */
  lemma PaymentLinkSessionIsRejected(rows: Table, req: WebhookRequest, secret: Option<string>,
                                     constructEvent: (string, string, string) -> Result<Event, string>,
                                     parse: string -> Result<JobData, string>,
                                     now: Time, freshId: Id, insertFailure: Option<string>)
    requires VerifiedEvent(req, secret, constructEvent).Success?
    requires VerifiedEvent(req, secret, constructEvent).value.eventType == CompletedEvent
    requires !Truthy(JobDataOf(VerifiedEvent(req, secret, constructEvent).value.session))
    ensures Webhook.Webhook(rows, req, secret, constructEvent, parse, now, freshId, insertFailure)
         == Outcome(BadRequest(NoJobData), rows)
  {
  }
}
