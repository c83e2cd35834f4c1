# Job board listing lifecycle

A Dafny model of the listing lifecycle of a job-board application. Employers
post listings through a form. A free post is inserted as an active row at
once. A premium post only sends the browser to a fixed payment link. Two
backend functions react to payments:

- a webhook is meant to insert a premium row for a completed checkout event. As written it never inserts one, because it calls a store-client constructor it does not import (see Findings);
- a reconciliation sweep lists recent checkout sessions and activates the
  rows their references name.

The public feed selects active rows, filters them by category and by a
search term, and orders them by posting time. Each listing card shows the
days left before expiry and a badge. It also offers "send CV" links to mail
composers.

The jobs table is a `map` from id to row, held by the class `Jobs.JobsTable`.
The sweep, the form hook and the webhook change it through methods. Each such
method is proved equal to a specification function: `PaymentSweep.Sweep`,
`JobForm.Submit` or `Webhook.Webhook`. The lemmas are stated about those
functions. The feed and the card are pure and are modelled as functions.

Modules, one per source file, plus shared ones:

- `Wrappers`, `Text`: JavaScript `includes` and string `replace`.
- `Jobs`: the row, the job data, and the table.
- `Stripe`, `Http`: the payment provider's session and event, and the responses.
- `PaymentSweep`, `JobForm`, `Webhook`, `Feed`, `JobCard`: one per source file.
- `Lifecycle`: lemmas that connect the components.

Time is an integer count of milliseconds. Everything the program asks of
outside code is a parameter of the model:

- the clock: `now`;
- the store's generated id: `freshId`;
- store failures: `insertFailure`, `statusFails`, `updateFails`, `pendingJobsError`;
- the provider's answers: `listing`, `constructEvent`;
- JSON and URI encoding and decoding: `encode`, `decode`, `parse`;
- `toLowerCase`: `lower`.

Where the design description and the code disagree, the model follows the code:

- The feed has no premium-first order. It orders only by `posted_at`, newest first.
- The feed does not exclude expired rows.
- A premium post inserts no pending row. The premium reference it sends carries no id.
- A free post's `expires_at` is 10 days after the submit. Its `posted_at` is 2 hours after the submit. So `expires_at` is 10 days minus 2 hours after `posted_at`.

## Model

| member | source | states |
|---|---|---|
| Jobs.Activated | supabase/functions/check-stripe-payments/index.ts:133-140 | the updated row is paid and active, and every other column is that of the old row; it equals the old row exactly when that row was already paid and active |
| Jobs.JobsTable.constructor | src/integrations/supabase/types.ts:13-42 | a table holding the given rows, each stored under its own id |
| Jobs.JobsTable.Insert | src/components/job-post/useJobForm.ts:89-103 | an insert fails with the store's error, or with a duplicate-key error when the id is taken; otherwise exactly that row is added under its id and nothing else changes |
| Jobs.JobsTable.SelectStatus | supabase/functions/check-stripe-payments/index.ts:120-129 | the status lookup succeeds exactly when the store does not fail and the id exists, and then returns that row's payment status and active flag |
| Jobs.JobsTable.MarkPaid | supabase/functions/check-stripe-payments/index.ts:134-144 | the update reports success unless the store fails; on success the row with that id, if any, is activated and no other row changes |
| Text.OccurrenceOf | src/pages/Index.tsx:55-57 | when `includes` holds, the term occurs at an explicit index |
| Text.OccursContains | src/pages/Index.tsx:55-57 | an occurrence at any index makes `includes` hold |
| Text.ContainsIffOccurs | src/pages/Index.tsx:55-57 | `includes` holds exactly when the term occurs at some index |
| Text.RemoveFirst | supabase/functions/check-stripe-payments/index.ts:22-25 | `replace('Bearer ', '')` removes one occurrence when there is one and changes nothing otherwise; the result is empty exactly when the header is empty or is just the prefix |
| Text.RemoveFirstRemovesFirst | supabase/functions/check-stripe-payments/index.ts:22 | the removed occurrence is the leftmost one: the prefix occurs at the returned index and at no earlier index, and the result is the header with just that occurrence cut out |
| PaymentSweep.ReferencedJob | supabase/functions/check-stripe-payments/index.ts:88-105 | a session names a job exactly when its reference is truthy, its payment intent succeeded, the reference decodes and the decoded id is truthy; the job it names is that decoded id |
| PaymentSweep.CompletedSessions | supabase/functions/check-stripe-payments/index.ts:52-57 | a session is kept exactly when its status is complete, its reference is non-empty and its payment intent succeeded, and then kept as many times as it was listed; so `completedSessions` counts the listed sessions that are completed |
| PaymentSweep.PaidJobIds | supabase/functions/check-stripe-payments/index.ts:85-104 | the collected ids are distinct and no more numerous than the sessions; every truthy id a session's reference decodes to is collected, and every collected id comes from some session |
| PaymentSweep.CollectPaidJobIds | supabase/functions/check-stripe-payments/index.ts:85-110 | the loop with its `continue`s and skipped decode errors collects exactly `PaidJobIds` |
| PaymentSweep.SweptRows | supabase/functions/check-stripe-payments/index.ts:114-155 | the second loop keeps the set of ids in the table |
| PaymentSweep.CountActivated | supabase/functions/check-stripe-payments/index.ts:114-150 | no more jobs are processed than ids were collected |
| PaymentSweep.CountIsActivatedIds | supabase/functions/check-stripe-payments/index.ts:114-150 | for distinct ids, `processedCount` is the number of ids whose lookup succeeds, whose row is not yet paid and active, and whose update succeeds |
| PaymentSweep.SweptStep | supabase/functions/check-stripe-payments/index.ts:116-147 | one more id changes only that id's row, and only when its lookup succeeds, it is not yet paid and active, and its update succeeds |
| PaymentSweep.ActivatePaidJobs | supabase/functions/check-stripe-payments/index.ts:114-155 | the second loop leaves the table as `SweptRows` and counts `CountActivated`; a failed lookup or update skips only that id |
| PaymentSweep.ErrorResponse | supabase/functions/check-stripe-payments/index.ts:177-189 | every thrown error is answered 401 or 500 with its message; 401 exactly when the message mentions authorization |
| PaymentSweep.Rejection | supabase/functions/check-stripe-payments/index.ts:17-81 | the handler gets past its checks exactly when the header is truthy and not just the bearer prefix, the Stripe key is set, the listing succeeds, both store credentials are set and the pending-jobs query succeeds |
| PaymentSweep.Sweep | supabase/functions/check-stripe-payments/index.ts:16-189 | the sweep keeps every id; it answers a summary exactly when the status is 200; processed ≤ unique ≤ completed ≤ total; an error answer leaves the table unchanged; every row is either unchanged or activated; a failed check is answered through the outer catch with its own message and leaves the table unchanged |
| PaymentSweep.CheckStripePayments | supabase/functions/check-stripe-payments/index.ts:16-189 | the handler's response and new table are those of `Sweep` |
| PaymentSweep.SweepSuccess | supabase/functions/check-stripe-payments/index.ts:16-176 | a 200 answer means every check passed; its summary counts the listed sessions, the completed ones, the collected ids and the activated jobs, and its table is that of the second loop |
| PaymentSweep.ProcessedCountsChangedRows | supabase/functions/check-stripe-payments/index.ts:114-176 | after a 200, `processedJobs` is exactly the number of rows the sweep changed |
| PaymentSweep.MissingAuthorizationMentionsIt | supabase/functions/check-stripe-payments/index.ts:18-20 | the missing-header message mentions authorization |
| PaymentSweep.InvalidAuthorizationMentionsIt | supabase/functions/check-stripe-payments/index.ts:23-25 | the invalid-header message mentions authorization |
| PaymentSweep.NoAuthorizationWithoutZ | supabase/functions/check-stripe-payments/index.ts:187 | a message without a 'z' does not mention authorization |
| PaymentSweep.MissingStripeKeyOmitsIt | supabase/functions/check-stripe-payments/index.ts:28-30 | the missing-key message does not mention authorization |
| PaymentSweep.MissingCredentialsOmitsIt | supabase/functions/check-stripe-payments/index.ts:64-66 | the missing-credentials message does not mention authorization |
| PaymentSweep.UnauthorizedStatus | supabase/functions/check-stripe-payments/index.ts:17-25 | an absent, empty or bare `Bearer ` header gives 401 with its message, and the table is unchanged |
| PaymentSweep.BearerWithoutSpacePasses | supabase/functions/check-stripe-payments/index.ts:22-25 | the header `Bearer`, without the space, passes the token check unchanged |
| PaymentSweep.ConfigurationStatus | supabase/functions/check-stripe-payments/index.ts:27-30 | a missing Stripe key, or missing store credentials, gives 500 and the table is unchanged |
| PaymentSweep.ListingFailureStatus | supabase/functions/check-stripe-payments/index.ts:172-189 | a failed session listing is answered through the outer catch with its own message, 401 if it mentions authorization and 500 otherwise, and leaves the table unchanged |
| PaymentSweep.PendingFetchStatus | supabase/functions/check-stripe-payments/index.ts:72-81 | a failed pending-jobs fetch is answered through the outer catch and leaves the table unchanged: 401 if its message mentions authorization, 500 otherwise |
| PaymentSweep.ActivationIsPerJob | supabase/functions/check-stripe-payments/index.ts:85-155 | after a 200, a row has changed exactly when some completed session names its id and its own lookup and update succeed while it is not yet paid and active |
| PaymentSweep.AlreadyActivatedUntouched | supabase/functions/check-stripe-payments/index.ts:133-150 | a job already paid and active is neither written nor counted |
| PaymentSweep.NoneActivated | supabase/functions/check-stripe-payments/index.ts:114-155 | when no collected id activates, the count is 0 and the table is unchanged |
| PaymentSweep.SweepIdempotent | supabase/functions/check-stripe-payments/index.ts:133-150 | after a run in which no lookup or update of a collected id failed, a second run over the same sessions changes no row and processes no job |
| JobForm.With | src/components/job-post/useJobForm.ts:26-37 | setting a field gives it the new value and leaves every other field unchanged |
| JobForm.Missing | src/components/job-post/useJobForm.ts:40-41 | no more fields are reported than are checked |
| JobForm.MissingKeepsOrder | src/components/job-post/useJobForm.ts:41 | the check is a filter: checking two lists of fields in turn reports the missing fields of the first, then those of the second |
| JobForm.MissingMeaning | src/components/job-post/useJobForm.ts:40-41 | a field is reported exactly when it is one of the checked fields and is empty |
| JobForm.AllDigits | src/components/job-post/useJobForm.ts:51 | a string is all digits exactly when each of its characters is a decimal digit |
| JobForm.Validate | src/components/job-post/useJobForm.ts:39-54 | the form is accepted exactly when no required field is empty, the email has an '@' and the phone is ten digits; the missing-field error comes first and names every empty required field; the email error comes before the phone error |
| JobForm.MissingPhoneAndEmail | src/components/job-post/useJobForm.ts:40-45 | two empty fields are both reported, in form order, and nothing else is |
| JobForm.PhoneExamples | src/components/job-post/useJobForm.ts:51-53 | five digits are rejected and ten digits are accepted |
| JobForm.PremiumReference | src/components/job-post/useJobForm.ts:56-61 | the premium reference carries every form field, the type, source "web" and the page origin, and no id, no payment status, no translations and no timestamps |
| JobForm.FreeRow | src/components/job-post/useJobForm.ts:83-97 | the free row has the fresh id, is active, comes from the web at the page origin, is posted 2 hours after the submit and, for a type other than premium, expires 10 days after it; it holds every form field and no payment status |
| JobForm.Submit | src/components/job-post/useJobForm.ts:71-122 | a rejected form changes nothing; a premium form changes nothing and yields the payment link with the encoded reference; an accepted free form adds exactly one new row (active, from the web, at the page origin, posted 2 hours after the submit, expiring 10 days after it, holding the form's fields, the salary included) and resets the form; a store error is reported as that error, and a taken id as a duplicate-key error, with the table and the form left as they were; the posted table is the old one plus exactly the free row of the form under the fresh id |
| JobForm.JobFormState.constructor | src/components/job-post/useJobForm.ts:8-24 | the hook starts with the initial form and not loading |
| JobForm.JobFormState.HandleInputChange | src/components/job-post/useJobForm.ts:26-29 | only the field named by the input changes |
| JobForm.JobFormState.HandleSelectChange | src/components/job-post/useJobForm.ts:31-33 | only the category changes |
| JobForm.JobFormState.HandleTypeChange | src/components/job-post/useJobForm.ts:35-37 | only the type changes |
| JobForm.JobFormState.ResetForm | src/components/job-post/useJobForm.ts:67-69 | the form is back to the initial data |
| JobForm.JobFormState.HandleSubmit | src/components/job-post/useJobForm.ts:71-122 | the handler's outcome, table and form are those of `Submit`, and it is not loading afterwards |
| Webhook.PremiumRow | supabase/functions/stripe-webhook/index.ts:59-65 | a row is built exactly when every NOT NULL column is present; it is premium, active, posted now and expiring 30 days later, whatever the job data said; its id is the job data's id or else the store's fresh one, and every other column, the translations and timestamps included, is the job data's |
| Webhook.Webhook | supabase/functions/stripe-webhook/index.ts:21-86 | the status is 200 or 400, and 200 means `{received: true}`; a 400 leaves the table unchanged, and so does a missing signature or secret; no existing row changes and at most one row is added (premium, active, posted now, expiring 30 days later); other event types answer 200 and change nothing; a completed event without job data answers 400; a completed event answered 200 adds exactly one row; the only row ever added is the one built from the parsed job data, under an id the table did not hold; for parsed job data, a missing NOT NULL column, an insert failure or a taken id answers 400 with that error and changes nothing, and otherwise the row is added and the answer is 200; a failed signature check answers 400 with its own message, and so does job data that does not parse |
| Webhook.HandleWebhook | supabase/functions/stripe-webhook/index.ts:16-86 | the handler's response and new table are those of `Webhook` |
| Webhook.WebhookAsWritten | supabase/functions/stripe-webhook/index.ts:16-86 | the handler as written answers 200 or 400; 200 exactly when a verified event is not a completed checkout; every completed event whose job data parses is answered 400 with the ReferenceError; a failed signature check, missing job data and unparseable job data are answered 400 with their own messages |
| Webhook.AsWrittenNeverInserts | supabase/functions/stripe-webhook/index.ts:2-52 | whenever the handler with `createClient` imported would add a row, the handler as written answers 400 with the ReferenceError; when it answers 200, the handler with the import adds nothing either; wherever no job data is parsed, the two handlers give the same answer and the table is unchanged |
| Webhook.MissingImportExample | supabase/functions/stripe-webhook/index.ts:37-52 | one concrete completed event with full job data: 400 as written, 200 with one more row when `createClient` is imported |
| Webhook.RedeliveryAppendsAgain | supabase/functions/stripe-webhook/index.ts:57-65 | delivering the same completed event twice, with job data that has no id, adds two rows |
| Feed.TableRows | src/pages/Index.tsx:28-30 | the selected rows are exactly the rows of the table, one entry per key |
| Feed.Select | src/pages/Index.tsx:31-36 | a row is kept exactly when it is active and, unless no category or "all" is selected, its category equals the selected one, and a kept row appears as many times as in the input |
| Feed.MatchesSearch | src/pages/Index.tsx:53-58 | a job matches exactly when the term is empty or the lower-cased term occurs at some index of its lower-cased title, company or location |
| Feed.MatchAt | src/pages/Index.tsx:53-58 | a non-empty term matches a job only when the lower-cased term occurs at some index of its lower-cased title, company or location |
| Feed.OccurrenceMatches | src/pages/Index.tsx:53-58 | an occurrence of the lower-cased term in the lower-cased title, company or location makes the job match |
| Feed.InsertByPosted | src/pages/Index.tsx:32 | inserting into the ordered result adds that one row and drops none |
| Feed.InsertKeepsSorted | src/pages/Index.tsx:32 | inserting into a list ordered by `posted_at` descending, with missing times first, keeps it ordered |
| Feed.SortByPosted | src/pages/Index.tsx:32 | the result is ordered by `posted_at` descending and is a permutation of the input |
| Feed.FetchJobs | src/pages/Index.tsx:27-46 | the fetched jobs are ordered, and are exactly the table's active rows of the selected category; in a table whose rows sit under their own ids, each of them is fetched once |
| Feed.FilterJobs | src/pages/Index.tsx:53-58 | a job is kept exactly when its lower-cased title, company or location contains the lower-cased term, or the term is empty; an empty term keeps the list as it is |
| Feed.FilterCounts | src/pages/Index.tsx:53-58 | a matching job is kept as many times as it was fetched, and any other job not at all |
| Feed.FilterKeepsOrder | src/pages/Index.tsx:53-58 | the filtered list is a subsequence of the fetched one, so it stays ordered |
| Feed.Listing | src/pages/Index.tsx:27-58 | the page lists, in order, exactly the active rows of the selected category that match the term; in a table whose rows sit under their own ids, each of them once |
| Feed.LaterPostedComesFirst | src/pages/Index.tsx:32 | of two listed rows with posting times, the later one comes first, whatever their types |
| JobCard.DaysLeft | src/components/JobCard.tsx:32-34 | 30 when there is no expiry date; otherwise d with (d − 1) days < expiry − now ≤ d days |
| JobCard.ExpiryLabelOf | src/components/JobCard.tsx:112 | the card reads "days remaining" exactly when there is no expiry date or it is still ahead, with a count of at least 1 equal to `daysLeft`; it reads "expired" otherwise |
| JobCard.BadgeOf | src/components/JobCard.tsx:90-92 | the badge reads Premium exactly when the type is "premium" |
| JobCard.EmailUrl | src/components/JobCard.tsx:64-69 | the table has an entry exactly for its four own keys; each entry is a non-empty address that starts with its composer's prefix, and the `default` entry is the `mailto:` template |
| JobCard.SendCv | src/components/JobCard.tsx:51-72 | an error toast exactly when the job has no email; the four own keys open their own template; any other key opens the `mailto:` one; every opened address starts with its composer's prefix |
| JobCard.PrefixOfTemplate | src/components/JobCard.tsx:64-71 | each template, and the fallback, starts with the prefix of its composer |
| JobCard.TemplateCarries | src/components/JobCard.tsx:65-68 | a template holds each of its three slots |
| JobCard.CvUrlCarriesLetter | src/components/JobCard.tsx:61-71 | every opened address contains the job's email verbatim, the encoded subject "Application for <title> position" and the encoded message |
| Lifecycle.PostedFreeJobIsListed | src/components/job-post/useJobForm.ts:89-98 | a free post the store accepted is listed at once with an empty term, under no category, "all" or its own category, and shows the Free badge |
| Lifecycle.FreeJobExpiresAfterTenDays | src/components/job-post/useJobForm.ts:83-84 | a free post's card starts at 10 days and reads "days remaining" exactly until 10 days after the submit |
| Lifecycle.DaysLeftAtPosting | src/components/JobCard.tsx:32-34 | a card looked at n whole days before expiry shows n days left |
| Lifecycle.PremiumRowOnCard | src/components/JobCard.tsx:90-92 | a premium, active row expiring in 30 days shows the Premium badge, is listed, and shows 30 days left |
| Lifecycle.WebhookRowIsPremium | supabase/functions/stripe-webhook/index.ts:57-65 | a row the webhook adds shows the Premium badge, is listed, and starts at 30 days left |
| Lifecycle.ExpiredStillListed | src/pages/Index.tsx:27-36 | an active row of the selected category is listed even when its card reads "expired" |
| Lifecycle.PremiumReferencesNameNoJob | src/components/job-post/useJobForm.ts:56-63 | sessions that all carry encoded premium references collect no job id, when decoding inverts encoding |
| Lifecycle.NoReferenceNoIds | supabase/functions/check-stripe-payments/index.ts:101-105 | sessions none of which names a job add no id |
| Lifecycle.PremiumCheckoutActivatesNothing | supabase/functions/check-stripe-payments/index.ts:102 | a sweep over checkouts made through the payment link collects no id, processes no job and changes no row |
| Lifecycle.PaymentLinkSessionIsRejected | supabase/functions/stripe-webhook/index.ts:39-43 | a completed checkout whose session has no truthy `jobData` metadata is answered 400 with the no-job-data error and adds no row; every checkout of the payment link is one, since the link sets no metadata |

## Left out

- HTTP serving, CORS and `OPTIONS` handling, logging, toasts and page rendering: presentation and transport, with no effect on the table.
- The Stripe and Supabase SDK calls: replaced by parameters for their answers and failures. The session listing's limit of 100 and its 24-hour window are the provider's concern; `listing` is what it answers.
- JSON and URI encoding and decoding are abstract parameters. So is `toLowerCase`: it is Unicode case mapping over Greek text.
- Date arithmetic: `setDate`, `setHours`, time zones, daylight saving, ISO formatting and the card's +2h display shift. Time is a millisecond count, and one day is 24 hours.
- JobCard.DaysLeft: computes the ceiling on integers. The source divides floats, and the two agree only up to rounding.
- One `now` is used both for the expiry date and for the posting time of a submit or a webhook delivery. The source reads the clock twice.
- Concurrency: racing sweeps, webhook redeliveries, and the sweep's read-then-write of one row. The model runs each handler on its own.
- The `pendingJobs` rows the sweep fetches are never used. Only the error of that fetch is modelled.
- A reference whose decoded `id` is truthy but not a string, and `Object.prototype` keys such as `toString` in the composer table: JavaScript typing corners.
- An input `id` outside the form's fields in `handleInputChange`: the model's `Field` names only the form's own fields.
- Column defaults the store fills in (`created_at`, `updated_at`) are `None` in a free post's row, and so is `payment_status`. The webhook's row takes these columns from the job data, and they are `None` there when the job data lacks them.
- Store constraints beyond the primary key and NOT NULL columns.
- A failed feed query: the query library retries it and, when it still fails, keeps showing the rows it loaded before (none on a first load). The model has no query history.
- The feed's order between rows with equal `posted_at`, or with none, is the store's choice. The model fixes one order.
- The checkout-session function under create-checkout-session is not part of this model. It only forwards constants and a stringified reference to the provider.

## Findings

| source | as written | input that shows it | evidently intended | confidence | as-written member | corrected member |
|---|---|---|---|---|---|---|
| supabase/functions/stripe-webhook/index.ts:49 | `createClient` is called, but the imports at lines 2-4 do not bring it in. Every completed event with parseable job data throws a ReferenceError, which the catch at 80-86 answers with 400. No row is ever inserted. | a verified `checkout.session.completed` event whose `metadata.jobData` parses to a complete job (`Webhook.MissingImportExample`) | the store client is imported as in supabase/functions/check-stripe-payments/index.ts:3, so the premium row is inserted and the answer is 200 | not executed | Webhook.WebhookAsWritten, Webhook.AsWrittenNeverInserts, Webhook.MissingImportExample | Webhook.Webhook, Webhook.HandleWebhook |
