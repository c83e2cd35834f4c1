/**
 * The posting form's state and its submit: validation, the free branch that
 * inserts an active row, and the premium branch that only builds a payment
 * link.
 */
module JobForm {
  import opened Wrappers
  import opened Jobs

  /** The form's fields, all strings; `kind` is the `type` field ("free" or "premium"). */
  datatype FormData = FormData(
    title: string, company: string, location: string, category: string, description: string,
    phone: string, email: string, salary: string, kind: string)

  const InitialFormData := FormData("", "", "", "", "", "", "", "", "free")

  datatype Field = Title | Company | Location | Category | Description | Phone | Email | Salary | Type

  function Get(f: FormData, field: Field): string {
    match field
    case Title => f.title
    case Company => f.company
    case Location => f.location
    case Category => f.category
    case Description => f.description
    case Phone => f.phone
    case Email => f.email
    case Salary => f.salary
    case Type => f.kind
  }

  /** `{...prev, [field]: value}`: only the named field changes. */
  function With(f: FormData, field: Field, value: string): (g: FormData)
    ensures Get(g, field) == value
    ensures forall other | other != field :: Get(g, other) == Get(f, other)
  {
    match field
    case Title => f.(title := value)
    case Company => f.(company := value)
    case Location => f.(location := value)
    case Category => f.(category := value)
    case Description => f.(description := value)
    case Phone => f.(phone := value)
    case Email => f.(email := value)
    case Salary => f.(salary := value)
    case Type => f.(kind := value)
  }

  /** The fields that must be non-empty, in the order they are reported. */
  const RequiredFields: seq<Field> := [Title, Company, Location, Category, Description, Phone, Email]

  /** `fields.filter(field => !formData[field])`. */
  function Missing(f: FormData, fields: seq<Field>): (missing: seq<Field>)
    ensures |missing| <= |fields|
  {
    if fields == [] then []
    else
      var rest := Missing(f, fields[1..]);
      if Get(f, fields[0]) == "" then [fields[0]] + rest else rest
  }

  /** A field is reported exactly when it is one of the checked fields and is empty. */
  lemma {:induction false} MissingMeaning(f: FormData, fields: seq<Field>)
    ensures forall g :: g in Missing(f, fields) <==> g in fields && Get(f, g) == ""
  {
    if fields != [] {
      MissingMeaning(f, fields[1..]);
    }
  }

  /** The check keeps the order of the fields: missing fields are reported in the order they are checked. */
  lemma {:induction false} MissingKeepsOrder(f: FormData, a: seq<Field>, b: seq<Field>)
    ensures Missing(f, a + b) == Missing(f, a) + Missing(f, b)
  {
    if a != [] {
      assert (a + b)[1..] == a[1..] + b;
      MissingKeepsOrder(f, a[1..], b);
    } else {
      assert a + b == b;
    }
  }

  function MissingFields(f: FormData): seq<Field> {
    Missing(f, RequiredFields)
  }

  predicate IsDigit(c: char) {
    '0' <= c <= '9'
  }

  predicate AllDigits(s: string)
    ensures AllDigits(s) <==> forall i | 0 <= i < |s| :: IsDigit(s[i])
  {
    s == [] || (IsDigit(s[0]) && AllDigits(s[1..]))
  }

  /** `/^\d{10}$/.test(phone)`: exactly ten ASCII digits and nothing else. */
  predicate IsTenDigits(s: string) {
    |s| == 10 && AllDigits(s)
  }

  datatype FormError =
    | MissingRequired(fields: seq<Field>)
    | InvalidEmail
    | InvalidPhone
    | StoreError(message: string)

  /**
   * `validateForm`: the missing-field error takes precedence and names every
   * empty required field; then an email without '@'; then a phone that is not
   * ten digits.
   */
  function Validate(f: FormData): (error: Option<FormError>)
    ensures error.None? <==> MissingFields(f) == [] && '@' in f.email && IsTenDigits(f.phone)
    ensures error.Some? && error.value.MissingRequired? <==> MissingFields(f) != []
    ensures error.Some? && error.value.MissingRequired? ==> error.value.fields == MissingFields(f)
    ensures error == Some(InvalidEmail) <==> MissingFields(f) == [] && '@' !in f.email
    ensures error == Some(InvalidPhone) <==> MissingFields(f) == [] && '@' in f.email && !IsTenDigits(f.phone)
    ensures error.Some? ==> !error.value.StoreError?
  {
    var missing := MissingFields(f);
    MissingMeaning(f, RequiredFields);
    if |missing| > 0 then Some(MissingRequired(missing))
    else
      assert Email in RequiredFields && Phone in RequiredFields;
      if f.email != "" && '@' !in f.email then Some(InvalidEmail)
      else if f.phone != "" && !IsTenDigits(f.phone) then Some(InvalidPhone)
      else None
  }

  /** The fixed payment link the premium branch points the browser at. */
  const PaymentLink := "https://buy.stripe.com/14k9BR50e3s54vK000?client_reference_id="

  /** `{...formData, source: "web", url: window.location.origin}`: it carries no `id`. */
  function PremiumReference(f: FormData, origin: string): (d: JobData)
    ensures d.id.None?
    ensures d.source == Some("web") && d.url == Some(origin) && d.kind == Some(f.kind)
    ensures && d.title == Some(f.title) && d.company == Some(f.company) && d.location == Some(f.location)
            && d.category == Some(f.category) && d.description == Some(f.description)
            && d.phone == Some(f.phone) && d.email == Some(f.email) && d.salary == Some(f.salary)
    ensures d.paymentStatus.None? && d.createdAt.None? && d.updatedAt.None?
    ensures d.titleIn == Untranslated && d.descriptionIn == Untranslated
  {
    JobData(None, Some(f.title), Some(f.company), Some(f.location), Some(f.category), Some(f.description),
            Some(f.phone), Some(f.email), Some(f.salary), Some(f.kind), Some("web"), Some(origin), None,
            Untranslated, Untranslated, None, None)
  }

  /** The listing length in days `handleSubmit` computes for `expires_at`. */
  function ListingDays(kind: string): int {
    if kind == "premium" then 30 else 10
  }

  /** The row the free branch inserts (`{...formData, posted_at, expires_at, is_active, source, url}`). */
  function FreeRow(f: FormData, id: Id, now: Time, origin: string): (r: Row)
    ensures r.id == id && r.isActive == Some(true) && r.source == "web" && r.url == origin
    ensures r.postedAt == Some(now + 2 * Hour)
    ensures f.kind != "premium" ==> r.expiresAt == Some(now + 10 * Day)
    ensures && r.title == f.title && r.company == f.company && r.location == f.location
            && r.description == f.description && r.category == Some(f.category) && r.salary == Some(f.salary)
            && r.phone == Some(f.phone) && r.email == Some(f.email) && r.kind == f.kind
    ensures r.paymentStatus.None?
  {
    Row(id, f.title, f.company, f.location, f.description,
        Some(f.category), Some(f.salary), Some(f.phone), Some(f.email),
        Untranslated, Untranslated, f.kind, None, Some(true),
        Some(now + 2 * Hour), Some(now + ListingDays(f.kind) * Day), None, None, "web", origin)
  }

  datatype SubmitOutcome =
    | Rejected(error: FormError)
    | RedirectedTo(url: string)
    | Posted(id: Id)

  datatype SubmitResult = SubmitResult(outcome: SubmitOutcome, rows: Table, form: FormData)

  /**
   * `handleSubmit` at instant `now` from page origin `origin`. `encode` stands
   * for `encodeURIComponent(JSON.stringify(...))`, `freshId` for the id the
   * store generates and `insertFailure` for an error the store reports.
   */
  function Submit(f: FormData, rows: Table, now: Time, origin: string, encode: JobData -> string,
                  freshId: Id, insertFailure: Option<string>): (r: SubmitResult)
    ensures Validate(f).Some? ==> r == SubmitResult(Rejected(Validate(f).value), rows, f)
    ensures Validate(f).None? && f.kind == "premium" ==>
              r == SubmitResult(RedirectedTo(PaymentLink + encode(PremiumReference(f, origin))), rows, f)
    ensures r.outcome.RedirectedTo? || r.outcome.Rejected? ==> r.rows == rows && r.form == f
    ensures r.outcome.Posted? ==>
              && Validate(f).None? && f.kind != "premium"
              && r.outcome.id == freshId && freshId !in rows && freshId in r.rows
              && r.rows == rows[freshId := FreeRow(f, freshId, now, origin)]
              && r.form == InitialFormData
    ensures r.outcome.Posted? ==>
              var row := r.rows[freshId];
              && row.isActive == Some(true) && row.source == "web" && row.url == origin
              && row.postedAt == Some(now + 2 * Hour) && row.expiresAt == Some(now + 10 * Day)
              && row.title == f.title && row.company == f.company && row.location == f.location
              && row.description == f.description && row.category == Some(f.category)
              && row.phone == Some(f.phone) && row.email == Some(f.email) && row.salary == Some(f.salary)
              && row.kind == f.kind && row.id == freshId
    ensures Validate(f).None? && f.kind != "premium" && insertFailure.Some? ==>
              r == SubmitResult(Rejected(StoreError(insertFailure.value)), rows, f)
    ensures Validate(f).None? && f.kind != "premium" && insertFailure.None? && freshId in rows ==>
              r == SubmitResult(Rejected(StoreError(DuplicateKey)), rows, f)
    ensures Validate(f).None? && f.kind != "premium" && insertFailure.None? && freshId !in rows ==>
              r.outcome == Posted(freshId)
  {
    match Validate(f)
    case Some(error) => SubmitResult(Rejected(error), rows, f)
    case None =>
      if f.kind == "premium" then
        SubmitResult(RedirectedTo(PaymentLink + encode(PremiumReference(f, origin))), rows, f)
      else if insertFailure.Some? then
        SubmitResult(Rejected(StoreError(insertFailure.value)), rows, f)
      else if freshId in rows then
        SubmitResult(Rejected(StoreError(DuplicateKey)), rows, f)
      else
        SubmitResult(Posted(freshId), rows[freshId := FreeRow(f, freshId, now, origin)], InitialFormData)
  }

  /** The hook's state: `formData` and `loading`. */
  class JobFormState {
    var formData: FormData
    var loading: bool

    constructor ()
      ensures formData == InitialFormData && !loading
    {
      formData := InitialFormData;
      loading := false;
    }

    /** `handleInputChange`: the input whose `id` is `field` now holds `value`. */
    method HandleInputChange(field: Field, value: string)
      modifies this
      ensures formData == With(old(formData), field, value)
      ensures loading == old(loading)
    {
      formData := With(formData, field, value);
    }

    method HandleSelectChange(value: string)
      modifies this
      ensures formData == With(old(formData), Category, value)
      ensures loading == old(loading)
    {
      formData := formData.(category := value);
    }

    method HandleTypeChange(value: string)
      modifies this
      ensures formData == With(old(formData), Type, value)
      ensures loading == old(loading)
    {
      formData := formData.(kind := value);
    }

    method ResetForm()
      modifies this
      ensures formData == InitialFormData
      ensures loading == old(loading)
    {
      formData := InitialFormData;
    }

    method HandleSubmit(db: JobsTable, now: Time, origin: string, encode: JobData -> string,
                        freshId: Id, insertFailure: Option<string>) returns (outcome: SubmitOutcome)
      requires db.Valid()
      modifies this, db
      ensures db.Valid() && !loading
      ensures SubmitResult(outcome, db.rows, formData)
           == Submit(old(formData), old(db.rows), now, origin, encode, freshId, insertFailure)
    {
      loading := true;
      var error := Validate(formData);
      if error.Some? {
        outcome := Rejected(error.value);
        loading := false;
        return;
      }
      if formData.kind == "premium" {
        // handlePremiumPayment: the browser leaves for the payment link
        outcome := RedirectedTo(PaymentLink + encode(PremiumReference(formData, origin)));
        loading := false;
        return;
      }
      var expiresAt := now + ListingDays(formData.kind) * Day;
      var postedAt := now + 2 * Hour;
      var f := formData;
      var row := Row(freshId, f.title, f.company, f.location, f.description,
                     Some(f.category), Some(f.salary), Some(f.phone), Some(f.email),
                     Untranslated, Untranslated, f.kind, None, Some(true),
                     Some(postedAt), Some(expiresAt), None, None, "web", origin);
      var insertError := db.Insert(row, insertFailure);
      if insertError.Some? {
        outcome := Rejected(StoreError(insertError.value));
      } else {
        outcome := Posted(freshId);
        ResetForm();
      }
      loading := false;
    }
  }

  lemma MissingCons(f: FormData, field: Field, rest: seq<Field>)
    ensures Missing(f, [field] + rest) == (if Get(f, field) == "" then [field] else []) + Missing(f, rest)
  {
    assert ([field] + rest)[1..] == rest;
  }

  /** Two empty required fields are both reported, in form order, and nothing else. */
  lemma MissingPhoneAndEmail(f: FormData)
    requires f.title != "" && f.company != "" && f.location != "" && f.category != "" && f.description != ""
    requires f.phone == "" && f.email == ""
    ensures Validate(f) == Some(MissingRequired([Phone, Email]))
  {
    MissingCons(f, Email, []);
    MissingCons(f, Phone, [Email]);
    MissingCons(f, Description, [Phone, Email]);
    MissingCons(f, Category, [Description, Phone, Email]);
    MissingCons(f, Location, [Category, Description, Phone, Email]);
    MissingCons(f, Company, [Location, Category, Description, Phone, Email]);
    MissingCons(f, Title, [Company, Location, Category, Description, Phone, Email]);
    assert RequiredFields == [Title] + [Company, Location, Category, Description, Phone, Email];
    assert MissingFields(f) == [Phone, Email];
  }

  /** Five digits are rejected, ten are accepted. */
  lemma PhoneExamples()
    ensures !IsTenDigits("12345")
    ensures IsTenDigits("2101234567")
  {
  }
}
