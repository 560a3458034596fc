/**
 * The admin dashboard of pages/admin/AdminDashboard.tsx: four counters read
 * from the store (students, exams, revenue of approved purchases, attempts),
 * the three-bar chart data, and the accent-bar class of a stat card.
 */
module Dashboard {

  import opened Wrappers
  import opened TextUtil

  /** An approved purchase document as read; `amount` may be missing. */
  datatype PurchaseDoc = PurchaseDoc(amount: Option<real>)

  /** `amount || 0`: a missing (or zero) amount counts as 0. */
  function AmountOf(d: PurchaseDoc): real {
    d.amount.GetOr(0.0)
  }

  /**
   * The revenue: the amounts of the documents, added up in order. Documents
   * without an amount add nothing; non-negative amounts give a non-negative total.
   */
  function Revenue(docs: seq<PurchaseDoc>): (total: real)
    ensures (forall i :: 0 <= i < |docs| ==> docs[i].amount.None?) ==> total == 0.0
    ensures (forall i :: 0 <= i < |docs| ==> AmountOf(docs[i]) >= 0.0) ==> total >= 0.0
  {
    if docs == [] then 0.0 else Revenue(docs[..|docs| - 1]) + AmountOf(docs[|docs| - 1])
  }

  /** Revenue adds up over concatenated snapshots. */
  lemma {:induction false} RevenueAppend(a: seq<PurchaseDoc>, b: seq<PurchaseDoc>)
    ensures Revenue(a + b) == Revenue(a) + Revenue(b)
    decreases |b|
  {
    if b == [] {
      assert a + b == a;
    } else {
      var n := |b| - 1;
      assert (a + b)[..|a + b| - 1] == a + b[..n];
      RevenueAppend(a, b[..n]);
    }
  }

  /** The `forEach` accumulation of the revenue. */
  method TotalRevenue(docs: seq<PurchaseDoc>) returns (total: real)
    ensures total == Revenue(docs)
  {
    total := 0.0;
    var i := 0;
    while i < |docs|
      invariant 0 <= i <= |docs|
      invariant total == Revenue(docs[..i])
    {
      assert docs[..i + 1][..i] == docs[..i];
      total := total + AmountOf(docs[i]);
      i := i + 1;
    }
    assert docs[..i] == docs;
  }

  datatype Stats = Stats(users: nat, exams: nat, revenue: real, attempts: nat)

  /** The four snapshots the dashboard reads. */
  datatype Snapshots = Snapshots(users: nat, exams: nat, approvedPurchases: seq<PurchaseDoc>, attempts: nat)

  /** One bar of the activity chart. */
  datatype ChartEntry = ChartEntry(name: string, count: nat)

  /** The chart: users, exams and attempts, in that order; revenue is not charted. */
  function ChartData(s: Stats): (data: seq<ChartEntry>)
    ensures |data| == 3
    ensures data[0].name == "Users" && data[1].name == "Exams" && data[2].name == "Attempts"
    ensures data[0].count == s.users && data[1].count == s.exams && data[2].count == s.attempts
  {
    [ChartEntry("Users", s.users), ChartEntry("Exams", s.exams), ChartEntry("Attempts", s.attempts)]
  }

  class AdminDashboard {
    var stats: Stats

    constructor ()
      ensures stats == Stats(0, 0, 0.0, 0)
    {
      stats := Stats(0, 0, 0.0, 0);
    }

    /** The stats fetch: the three counts are the snapshot sizes, revenue the approved amounts; a failed read changes nothing. */
    method FetchStats(fetched: Option<Snapshots>)
      modifies this
      ensures fetched.None? ==> stats == old(stats)
      ensures fetched.Some? ==> stats == Stats(fetched.value.users, fetched.value.exams,
                                               Revenue(fetched.value.approvedPurchases), fetched.value.attempts)
    {
      if fetched.Some? {
        var snap := fetched.value;
        var totalRevenue := TotalRevenue(snap.approvedPurchases);
        stats := Stats(snap.users, snap.exams, totalRevenue, snap.attempts);
      }
    }
  }

  // ---------------------------------------------------------------------
  // Stat card accent bar
  // ---------------------------------------------------------------------

  predicate KnownColor(color: string) {
    color == "blue" || color == "emerald" || color == "purple" || color == "orange"
  }

  /**
   * The card colour table: background class, then text class; for each of the
   * four colours `c` the entry is `bg-<c>-50 text-<c>-600`.
   */
  function ColorClasses(color: string): Option<string> {
    if KnownColor(color) then Some(("bg-" + color + "-50") + " " + ("text-" + color + "-600")) else None
  }

  /** None of the four colour names contains a space. */
  lemma KnownColorHasNoSpace(color: string)
    requires KnownColor(color)
    ensures ' ' !in color
  {
  }

  /** The second space-separated token of `bg-<c>-50 text-<c>-600` is `text-<c>-600`. */
  lemma SecondTokenOfClasses(c: string)
    requires ' ' !in c
    ensures var tokens := Split(("bg-" + c + "-50") + " " + ("text-" + c + "-600"), ' ');
      |tokens| >= 2 && tokens[1] == "text-" + c + "-600"
  {
    var head := "bg-" + c + "-50";
    var tail := "text-" + c + "-600";
    NoSeparatorConcat("bg-", c, ' ');
    NoSeparatorConcat("bg-" + c, "-50", ' ');
    NoSeparatorConcat("text-", c, ' ');
    NoSeparatorConcat("text-" + c, "-600", ' ');
    SplitAtFirst(head, ' ', tail);
    SplitNoSeparator(tail, ' ');
  }

  /** Rewriting the leading "text" of `text-<c>-600` gives `bg-<c>-600`. */
  lemma TextToBg(c: string)
    ensures ReplaceFirst("text-" + c + "-600", "text", "bg") == "bg-" + c + "-600"
  {
    var tail := "text-" + c + "-600";
    assert tail[4..] == "-" + c + "-600";
    ReplaceAtStart(tail, "text", "bg");
  }

  /**
   * The accent-bar class: the second space-separated token of the card's
   * classes with its first "text" replaced by "bg". Each of the four colours
   * `c` gets `bg-<c>-600` (blue gives "bg-blue-600"); an unknown colour yields
   * none (the page would throw there).
   */
  function BarClass(color: string): (r: Option<string>)
    ensures r.Some? <==> KnownColor(color)
    ensures KnownColor(color) ==> r == Some("bg-" + color + "-600")
  {
    var classes := ColorClasses(color);
    if classes.None? then None
    else
      KnownColorHasNoSpace(color);
      SecondTokenOfClasses(color);
      TextToBg(color);
      var tokens := Split(classes.value, ' ');
      if |tokens| < 2 then None else Some(ReplaceFirst(tokens[1], "text", "bg"))
  }
}
