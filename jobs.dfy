/**
 * The `jobs` table of the hosted store: one row per listing, keyed by its id.
 * Column names follow the generated row type; `type` is a reserved word here
 * and is called `kind`.
 */
module Jobs {
  import opened Wrappers

  type Id = string

  /** An instant, in milliseconds since the epoch (what a JavaScript `Date` holds). */
  type Time = int

  const Hour: int := 3_600_000
  const Day: int := 24 * Hour

  /** JavaScript truthiness of an optional string: present and non-empty. */
  predicate Truthy(s: Option<string>) {
    s.Some? && s.value != ""
  }

  /** The per-locale columns `<name>_de`, `_en`, `_es`, `_ru`, `_zh`. */
  datatype Translations = Translations(
    de: Option<string>, en: Option<string>, es: Option<string>,
    ru: Option<string>, zh: Option<string>)

  const Untranslated := Translations(None, None, None, None, None)

  datatype Row = Row(
    id: Id,
    title: string,
    company: string,
    location: string,
    description: string,
    category: Option<string>,
    salary: Option<string>,
    phone: Option<string>,
    email: Option<string>,
    titleIn: Translations,
    descriptionIn: Translations,
    kind: string,
    paymentStatus: Option<string>,
    isActive: Option<bool>,
    postedAt: Option<Time>,
    expiresAt: Option<Time>,
    createdAt: Option<Time>,
    updatedAt: Option<Time>,
    source: string,
    url: string)

  type Table = map<Id, Row>

  /** Every row is stored under its own id. */
  ghost predicate WellKeyed(t: Table) {
    forall k | k in t :: t[k].id == k
  }

  /** The two columns the reconciliation sweep reads back for a job. */
  datatype Status = Status(paymentStatus: Option<string>, isActive: Option<bool>)

  function StatusOf(r: Row): Status {
    Status(r.paymentStatus, r.isActive)
  }

  /** Paid and visible: the state the sweep leaves alone. */
  predicate IsActivated(st: Status) {
    st.paymentStatus == Some("completed") && st.isActive == Some(true)
  }

  /** The sweep's update `{payment_status: 'completed', is_active: true}`. */
  function Activated(r: Row): (a: Row)
    ensures IsActivated(StatusOf(a))
    ensures a == r <==> IsActivated(StatusOf(r))
    ensures a.(paymentStatus := r.paymentStatus, isActive := r.isActive) == r
  {
    r.(paymentStatus := Some("completed"), isActive := Some(true))
  }

  /**
   * A job object as JSON carries it (a checkout reference or webhook metadata):
   * any of the columns of a row but `is_active`, `posted_at` and `expires_at`,
   * each of which may be absent (a translation field by field).
   */
  datatype JobData = JobData(
    id: Option<Id>,
    title: Option<string>,
    company: Option<string>,
    location: Option<string>,
    category: Option<string>,
    description: Option<string>,
    phone: Option<string>,
    email: Option<string>,
    salary: Option<string>,
    kind: Option<string>,
    source: Option<string>,
    url: Option<string>,
    paymentStatus: Option<string>,
    titleIn: Translations,
    descriptionIn: Translations,
    createdAt: Option<Time>,
    updatedAt: Option<Time>)

  /** Messages the store reports for a rejected insert. */
  const DuplicateKey := "duplicate key value violates unique constraint \"jobs_pkey\""
  const NotNullViolation := "null value violates not-null constraint"

  /** The jobs table, updated in place by the handlers. */
  class JobsTable {
    var rows: Table

    ghost predicate Valid()
      reads this
    {
      WellKeyed(rows)
    }

    constructor (initial: Table)
      requires WellKeyed(initial)
      ensures Valid() && rows == initial
    {
      rows := initial;
    }

    /**
     * `insert([row])`. `failure` is an error the store reports by itself (the
     * network, a constraint not modelled here); a duplicate id is rejected too.
     */
    method Insert(row: Row, failure: Option<string>) returns (error: Option<string>)
      requires Valid()
      modifies this
      ensures Valid()
      ensures error == (if failure.Some? then failure
                        else if row.id in old(rows) then Some(DuplicateKey)
                        else None)
      ensures rows == if error.None? then old(rows)[row.id := row] else old(rows)
    {
      if failure.Some? {
        error := failure;
      } else if row.id in rows {
        error := Some(DuplicateKey);
      } else {
        rows := rows[row.id := row];
        error := None;
      }
    }

    /**
     * `select('payment_status, is_active').eq('id', id).single()`: an error when
     * the store fails or when no row has that id.
     */
    method SelectStatus(id: Id, fails: bool) returns (status: Option<Status>)
      ensures status.Some? <==> !fails && id in rows
      ensures status.Some? ==> status.value == StatusOf(rows[id])
    {
      if fails || id !in rows {
        status := None;
      } else {
        status := Some(StatusOf(rows[id]));
      }
    }

    /** `update({payment_status: 'completed', is_active: true}).eq('id', id)`. */
    method MarkPaid(id: Id, fails: bool) returns (ok: bool)
      requires Valid()
      modifies this
      ensures Valid()
      ensures ok == !fails
      ensures rows == if ok && id in old(rows) then old(rows)[id := Activated(old(rows)[id])] else old(rows)
    {
      ok := !fails;
      if ok && id in rows {
        rows := rows[id := Activated(rows[id])];
      }
    }
  }
}
