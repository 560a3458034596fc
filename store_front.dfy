/**
 * The student home page of pages/user/UserHome.tsx: the active exams, the
 * student's own purchases, which button each exam shows, and the payment
 * claim (a UPI transaction id) that creates a pending purchase.
 * Store reads and writes are parameters: the fetched snapshots and whether
 * the write succeeded.
 */
module StoreFront {

  import opened Wrappers
  import opened Types

  predicate Matches(p: Purchase, examId: string, status: PaymentStatus) {
    p.examId == examId && p.status == status
  }

  /** `find`: the position of the first purchase for `examId` in state `status`, if any. */
  function FirstMatch(purchases: seq<Purchase>, examId: string, status: PaymentStatus): (r: Option<nat>)
    ensures r.Some? ==> r.value < |purchases| && Matches(purchases[r.value], examId, status)
    ensures r.Some? ==> forall j :: 0 <= j < r.value ==> !Matches(purchases[j], examId, status)
    ensures r.None? ==> forall j :: 0 <= j < |purchases| ==> !Matches(purchases[j], examId, status)
  {
    if purchases == [] then None
    else if Matches(purchases[0], examId, status) then Some(0)
    else
      match FirstMatch(purchases[1..], examId, status)
      case None => None
      case Some(i) => Some(i + 1)
  }

  /** Some purchase of the exam is approved. */
  function IsPurchased(purchases: seq<Purchase>, examId: string): (r: bool)
    ensures r <==> exists i :: 0 <= i < |purchases| && Matches(purchases[i], examId, Approved)
  {
    FirstMatch(purchases, examId, Approved).Some?
  }

  /** Some purchase of the exam awaits approval. */
  function IsPending(purchases: seq<Purchase>, examId: string): (r: bool)
    ensures r <==> exists i :: 0 <= i < |purchases| && Matches(purchases[i], examId, Pending)
  {
    FirstMatch(purchases, examId, Pending).Some?
  }

  /** The three buttons an exam card can show. */
  datatype ExamButton = StartTest | PaymentPendingApproval | BuyNow

  /** Approved beats pending, pending beats buying. */
  function ButtonFor(purchases: seq<Purchase>, examId: string): (b: ExamButton)
    ensures b == StartTest <==> IsPurchased(purchases, examId)
    ensures b == PaymentPendingApproval <==> !IsPurchased(purchases, examId) && IsPending(purchases, examId)
    ensures b == BuyNow <==> !IsPurchased(purchases, examId) && !IsPending(purchases, examId)
  {
    if IsPurchased(purchases, examId) then StartTest
    else if IsPending(purchases, examId) then PaymentPendingApproval
    else BuyNow
  }

  /** The purchase document a payment claim writes (no document id yet). */
  datatype PaymentClaim = PaymentClaim(
    userId: Option<string>, examId: string, examTitle: string,
    transactionId: string, amount: real, status: PaymentStatus)

  /**
   * The payment claim for exam `e`: pending, at the exam's price, with the
   * entered transaction id; once stored it is a pending purchase of that exam.
   */
  function ClaimFor(uid: Option<string>, e: Exam, transactionId: string): (c: PaymentClaim)
    ensures c.userId == uid && c.examId == e.id && c.examTitle == e.title
    ensures c.transactionId == transactionId && c.amount == e.price && c.status == Pending
    ensures forall docId, owner :: Matches(Stored(c, docId, owner), e.id, Pending)
  {
    PaymentClaim(uid, e.id, e.title, transactionId, e.price, Pending)
  }

  /** The claim as it reads back from the store, under document id `docId`. */
  function Stored(c: PaymentClaim, docId: string, uid: string): Purchase {
    Purchase(docId, uid, c.examId, c.transactionId, c.status, c.amount)
  }

  /**
   * Once a payment claim for an exam is among the student's purchases, the exam
   * no longer offers "Buy Now".
   */
  lemma ClaimLeavesBuyNow(purchases: seq<Purchase>, uid: Option<string>, e: Exam, txn: string, docId: string, owner: string)
    ensures ButtonFor(purchases + [Stored(ClaimFor(uid, e, txn), docId, owner)], e.id) != BuyNow
  {
    var ps := purchases + [Stored(ClaimFor(uid, e, txn), docId, owner)];
    assert Matches(ps[|purchases|], e.id, Pending);
  }

  /**
   * A pending claim never unlocks an exam: adding one leaves "Start Test" exactly
   * as it was, for every exam.
   */
  lemma PendingClaimGrantsNothing(purchases: seq<Purchase>, claim: Purchase, examId: string)
    requires claim.status == Pending
    ensures IsPurchased(purchases + [claim], examId) == IsPurchased(purchases, examId)
  {
    var ps := purchases + [claim];
    if IsPurchased(ps, examId) {
      var i :| 0 <= i < |ps| && Matches(ps[i], examId, Approved);
      assert i < |purchases| && Matches(purchases[i], examId, Approved);
    }
    if IsPurchased(purchases, examId) {
      var i :| 0 <= i < |purchases| && Matches(purchases[i], examId, Approved);
      assert Matches(ps[i], examId, Approved);
    }
  }

  class UserHomePage {
    var exams: seq<Exam>
    var myPurchases: seq<Purchase>
    var loading: bool
    var showPaymentModal: Option<Exam>
    var transactionId: string

    constructor ()
      ensures exams == [] && myPurchases == [] && loading
      ensures showPaymentModal == None && transactionId == ""
    {
      exams := [];
      myPurchases := [];
      loading := true;
      showPaymentModal := None;
      transactionId := "";
    }

    /**
     * The two reads (active exams, then the student's purchases). A failed read
     * leaves its list and every later one as they were; loading ends either way.
     */
    method FetchExams(examSnapshot: Option<seq<Exam>>, purchaseSnapshot: Option<seq<Purchase>>)
      modifies this`exams, this`myPurchases, this`loading
      ensures exams == if examSnapshot.Some? then examSnapshot.value else old(exams)
      ensures myPurchases == if examSnapshot.Some? && purchaseSnapshot.Some? then purchaseSnapshot.value else old(myPurchases)
      ensures !loading
    {
      if examSnapshot.Some? {
        exams := examSnapshot.value;
        if purchaseSnapshot.Some? {
          myPurchases := purchaseSnapshot.value;
        }
      }
      loading := false;
    }

    /** "Buy Now" opens the payment dialog for that exam. */
    method OpenPayment(e: Exam)
      modifies this`showPaymentModal
      ensures showPaymentModal == Some(e)
    {
      showPaymentModal := Some(e);
    }

    /** "Cancel" closes the dialog; the typed transaction id stays. */
    method ClosePayment()
      modifies this`showPaymentModal
      ensures showPaymentModal == None
    {
      showPaymentModal := None;
    }

    method EnterTransactionId(text: string)
      modifies this`transactionId
      ensures transactionId == text
    {
      transactionId := text;
    }

    /**
     * "Submit": nothing without an open dialog and a non-empty transaction id;
     * otherwise a pending purchase for the dialog's exam at its price is written,
     * and on success the dialog closes and the transaction id is cleared.
     */
    method SubmitPayment(uid: Option<string>, writeSucceeded: bool) returns (claim: Option<PaymentClaim>)
      modifies this`showPaymentModal, this`transactionId
      ensures old(showPaymentModal.None? || transactionId == "") ==>
        claim == None && showPaymentModal == old(showPaymentModal) && transactionId == old(transactionId)
      ensures old(showPaymentModal.Some? && transactionId != "") ==>
        && claim == Some(ClaimFor(uid, old(showPaymentModal.value), old(transactionId)))
        && claim.value.status == Pending
        && claim.value.amount == old(showPaymentModal.value.price)
        && claim.value.examId == old(showPaymentModal.value.id)
        && claim.value.transactionId == old(transactionId)
        && (writeSucceeded ==> showPaymentModal == None && transactionId == "")
        && (!writeSucceeded ==> showPaymentModal == old(showPaymentModal) && transactionId == old(transactionId))
    {
      if showPaymentModal.None? || transactionId == "" {
        return None;
      }
      claim := Some(ClaimFor(uid, showPaymentModal.value, transactionId));
      if writeSucceeded {
        showPaymentModal := None;
        transactionId := "";
      }
    }
  }
}
