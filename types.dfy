/**
 * The shared record and enum declarations of the platform (types.ts).
 * Enum values are the lower-case strings stored in the document database.
 */
module Types {

  import opened Wrappers

  /** User roles: USER = 'user', ADMIN = 'admin'. */
  datatype UserRole = User | Admin

  /** Exam visibility: ACTIVE = 'active', ARCHIVED = 'archived'. */
  datatype ExamStatus = Active | Archived

  /** Payment review state: PENDING, APPROVED, REJECTED. */
  datatype PaymentStatus = Pending | Approved | Rejected

  /** The four answer options of a question: a tuple of exactly four strings. */
  type FourOptions = s: seq<string> | |s| == 4 witness ["", "", "", ""]

  /** A multiple-choice question; `correctIndex` is the position of the right option. */
  datatype Question = Question(id: string, text: string, options: FourOptions, correctIndex: int)

  /** An exam; `duration` is in minutes, `qCount` is stored beside the question list. */
  datatype Exam = Exam(
    id: string,
    title: string,
    description: string,
    price: real,
    duration: int,
    qCount: int,
    startDate: string,
    expiryDate: string,
    status: ExamStatus,
    reattempts: int,
    questions: seq<Question>)

  /** A user document. */
  datatype UserProfile = UserProfile(uid: string, phone: string, name: string, role: UserRole, blocked: bool)

  /** A purchase document: the student's payment claim for one exam. */
  datatype Purchase = Purchase(
    id: string, userId: string, examId: string, transactionId: string,
    status: PaymentStatus, amount: real)

  // ---------------------------------------------------------------------
  // The string encodings of the enums, and their decoders
  // ---------------------------------------------------------------------

  function RoleName(r: UserRole): string {
    match r
    case User => "user"
    case Admin => "admin"
  }

  function ExamStatusName(s: ExamStatus): string {
    match s
    case Active => "active"
    case Archived => "archived"
  }

  function PaymentStatusName(s: PaymentStatus): string {
    match s
    case Pending => "pending"
    case Approved => "approved"
    case Rejected => "rejected"
  }

  /** Decodes a stored role string: exactly the two role names decode, each to its own role. */
  function ParseRole(s: string): (r: Option<UserRole>)
    ensures r.Some? <==> s == "user" || s == "admin"
    ensures r.Some? ==> RoleName(r.value) == s
  {
    if s == "user" then Some(User) else if s == "admin" then Some(Admin) else None
  }

  /** Decodes a stored exam status. */
  function ParseExamStatus(s: string): (r: Option<ExamStatus>)
    ensures r.Some? <==> s == "active" || s == "archived"
    ensures r.Some? ==> ExamStatusName(r.value) == s
  {
    if s == "active" then Some(Active) else if s == "archived" then Some(Archived) else None
  }

  /** Decodes a stored payment status: exactly three strings are payment statuses. */
  function ParsePaymentStatus(s: string): (r: Option<PaymentStatus>)
    ensures r.Some? <==> s == "pending" || s == "approved" || s == "rejected"
    ensures r.Some? ==> PaymentStatusName(r.value) == s
  {
    if s == "pending" then Some(Pending)
    else if s == "approved" then Some(Approved)
    else if s == "rejected" then Some(Rejected)
    else None
  }

  /** Every enum value is stored as a string that decodes back to it. */
  lemma EnumNamesRoundTrip(r: UserRole, e: ExamStatus, p: PaymentStatus)
    ensures ParseRole(RoleName(r)) == Some(r)
    ensures ParseExamStatus(ExamStatusName(e)) == Some(e)
    ensures ParsePaymentStatus(PaymentStatusName(p)) == Some(p)
  {
  }
}
