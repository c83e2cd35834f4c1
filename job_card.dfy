/**
 * The rules of one listing card: the days left before expiry, the badge, and
 * the mail-composer address opened by "send CV".
 */
module JobCard {
  import opened Wrappers
  import opened Text
  import opened Jobs

  /**
   * `daysLeft`: 30 when the row has no expiry date, otherwise the time to the
   * expiry date in days, rounded up to a whole day.
   */
  function DaysLeft(expiresAt: Option<Time>, now: Time): (d: int)
    ensures expiresAt.None? ==> d == 30
    ensures expiresAt.Some? ==> (d - 1) * Day < expiresAt.value - now <= d * Day
  {
    match expiresAt
    case None => 30
    case Some(e) =>
      var span := e - now;
      if span % Day == 0 then span / Day else span / Day + 1
  }

  /** The two expiry texts of the card. */
  datatype ExpiryLabel = DaysRemaining(count: int) | Expired

  /** `daysLeft > 0 ? t('days.remaining', {count: daysLeft}) : t('expired')`. */
  function ExpiryLabelOf(expiresAt: Option<Time>, now: Time): (l: ExpiryLabel)
    ensures l.DaysRemaining? <==> expiresAt.None? || now < expiresAt.value
    ensures l.DaysRemaining? ==> l.count >= 1 && l.count == DaysLeft(expiresAt, now)
  {
    var d := DaysLeft(expiresAt, now);
    if d > 0 then DaysRemaining(d) else Expired
  }

  /** The two badge texts of the card. */
  datatype BadgeLabel = PremiumBadge | FreeBadge

  /** `job.type === "premium" ? "Premium" : "Free"`. */
  function BadgeOf(kind: string): (b: BadgeLabel)
    ensures b == PremiumBadge <==> kind == "premium"
  {
    if kind == "premium" then PremiumBadge else FreeBadge
  }

  /** What a "send CV" click does: an error toast, or a composer opened in a new tab. */
  datatype CvAction = NoEmailToast | Open(url: string)

  /** The text of the subject, before encoding. */
  function Subject(title: string): string {
    "Application for " + title + " position"
  }

  /** The text of the message, before encoding. */
  function Letter(company: string, title: string): string {
    "Dear " + company + ",\n\nI am interested in the " + title + " position.\n\nBest regards"
  }

  const GmailPrefix := "https://mail.google.com/mail/?view=cm&fs=1&to="
  const OutlookPrefix := "https://outlook.office.com/mail/deeplink/compose?to="
  const YahooPrefix := "https://compose.mail.yahoo.com/?to="
  const MailtoPrefix := "mailto:"

  /** The `mailto:` template, also the fallback of every lookup. */
  function MailtoUrl(to: string, subject: string, body: string): string {
    MailtoPrefix + to + "?subject=" + subject + "&body=" + body
  }

  /** The four own keys of the `emailUrls` table. */
  predicate IsTableKey(client: string) {
    client == "gmail" || client == "outlook" || client == "yahoo" || client == "default"
  }

  /** The `emailUrls` table: `None` where the key is not one of its four own keys. */
  function EmailUrl(client: string, to: string, subject: string, body: string): (r: Option<string>)
    ensures r.Some? <==> IsTableKey(client)
    ensures r.Some? ==> |r.value| > |PrefixFor(client)| && r.value[..|PrefixFor(client)|] == PrefixFor(client)
    ensures client == "default" ==> r == Some(MailtoUrl(to, subject, body))
  {
    if client == "gmail" then Some(GmailPrefix + to + "&su=" + subject + "&body=" + body)
    else if client == "outlook" then Some(OutlookPrefix + to + "&subject=" + subject + "&body=" + body)
    else if client == "yahoo" then Some(YahooPrefix + to + "&subject=" + subject + "&body=" + body)
    else if client == "default" then Some(MailtoUrl(to, subject, body))
    else None
  }

  /** The composer a key selects: its own template when there is one. */
  function PrefixFor(client: string): string {
    if client == "gmail" then GmailPrefix
    else if client == "outlook" then OutlookPrefix
    else if client == "yahoo" then YahooPrefix
    else MailtoPrefix
  }

  /**
   * `handleSendCV(emailClient)`; `encode` stands for `encodeURIComponent`.
   * The looked-up template is used when it is truthy, the `mailto:` one otherwise.
   */
  function SendCv(job: Row, client: string, encode: string -> string): (a: CvAction)
    ensures a.NoEmailToast? <==> !Truthy(job.email)
    ensures a.Open? ==> StartsWith(a.url, PrefixFor(client))
    ensures a.Open? && IsTableKey(client) ==>
              a.url == EmailUrl(client, job.email.value, encode(Subject(job.title)), encode(Letter(job.company, job.title))).value
    ensures a.Open? && !IsTableKey(client) ==>
              a.url == MailtoUrl(job.email.value, encode(Subject(job.title)), encode(Letter(job.company, job.title)))
  {
    if !Truthy(job.email) then NoEmailToast
    else
      var subject := encode(Subject(job.title));
      var body := encode(Letter(job.company, job.title));
      var found := EmailUrl(client, job.email.value, subject, body);
      var url := if found.Some? && found.value != "" then found.value else MailtoUrl(job.email.value, subject, body);
      PrefixOfTemplate(client, job.email.value, subject, body, url);
      Open(url)
  }

  /** Every template starts with the prefix of its own key. */
  lemma PrefixOfTemplate(client: string, to: string, subject: string, body: string, url: string)
    requires var found := EmailUrl(client, to, subject, body);
             url == if found.Some? && found.value != "" then found.value else MailtoUrl(to, subject, body)
    ensures StartsWith(url, PrefixFor(client))
  {
    var p := PrefixFor(client);
    assert url[..|p|] == p;
  }

  /** A template `p + to + sep + subject + q + body` carries each of its three slots. */
  lemma TemplateCarries(p: string, to: string, sep: string, subject: string, q: string, body: string)
    ensures var url := p + to + sep + subject + q + body;
            Contains(url, to) && Contains(url, subject) && Contains(url, body)
  {
    var url := p + to + sep + subject + q + body;
    var i := |p|;
    var j := |p| + |to| + |sep|;
    var k := j + |subject| + |q|;
    assert url[i..i + |to|] == to;
    assert url[j..j + |subject|] == subject;
    assert url[k..k + |body|] == body;
    OccursContains(url, to, i);
    OccursContains(url, subject, j);
    OccursContains(url, body, k);
  }

  /** The separator a template puts between the address and the subject. */
  function SubjectSeparator(client: string): string {
    if client == "gmail" then "&su="
    else if client == "outlook" || client == "yahoo" then "&subject="
    else "?subject="
  }

  /**
   * Every opened composer addresses the job's email verbatim and carries the
   * encoded subject and the encoded message.
   */
  lemma CvUrlCarriesLetter(job: Row, client: string, encode: string -> string)
    requires SendCv(job, client, encode).Open?
    ensures var url := SendCv(job, client, encode).url;
            && Contains(url, job.email.value)
            && Contains(url, encode(Subject(job.title)))
            && Contains(url, encode(Letter(job.company, job.title)))
  {
    var to := job.email.value;
    var subject := encode(Subject(job.title));
    var body := encode(Letter(job.company, job.title));
    assert SendCv(job, client, encode).url
        == PrefixFor(client) + to + SubjectSeparator(client) + subject + "&body=" + body;
    TemplateCarries(PrefixFor(client), to, SubjectSeparator(client), subject, "&body=", body);
  }
}
