/**
 * The buyer's dashboard (src/pages/buyer-dashboard/DashboardHome.tsx): the
 * count of open requests among the buyer's inquiries, three placeholder
 * figures, and a recent-activity list built from the first inquiries.
 */
module DashboardHome {
  import opened Wrappers
  import opened Seqs
  import opened Browser
  import opened Api
  import opened Marketplace
  import opened Inquiries

  /** The statuses of an inquiry that is still open. */
  predicate IsActive(i: Inquiry) {
    i.status in ["pending", "responded", "in_discussion"]
  }

  /** The open inquiries are those with a known status that is neither accepted nor rejected. */
  lemma ActiveIsOpen(i: Inquiry)
    ensures IsActive(i) <==> i.status in KnownStatuses && i.status != "accepted" && i.status != "rejected"
  {
  }

  /** One inquiry is active exactly when it is pending, responded or in discussion, and it is at most one of the three. */
  lemma ActiveIndicator(i: Inquiry)
    ensures (if IsActive(i) then 1 else 0)
            == (if i.status == "pending" then 1 else 0) + (if i.status == "responded" then 1 else 0)
               + (if i.status == "in_discussion" then 1 else 0)
    ensures (if IsActive(i) then 1 else 0) + (if i.status == "accepted" then 1 else 0) + (if i.status == "rejected" then 1 else 0) <= 1
  {
  }

  function ActiveTest(): Inquiry -> bool {
    (i: Inquiry) => IsActive(i)
  }

  /** The four dashboard figures. */
  datatype BuyerStats = BuyerStats(totalSearches: int, savedSuppliers: int, activeRequests: int, messages: int)

  const NoBuyerStats := BuyerStats(0, 0, 0, 0)

  /**
   * The figures `fetchDashboardData` sets: searches, saved suppliers and
   * messages are fixed placeholders; active requests counts the open
   * inquiries, so never more than there are.
   */
  function ComputeBuyerStats(inquiries: seq<Inquiry>): (s: BuyerStats)
    ensures s.totalSearches == 24 && s.savedSuppliers == 8 && s.messages == 12
    ensures 0 <= s.activeRequests <= |inquiries|
    ensures s.activeRequests == CountStatus(inquiries, "pending") + CountStatus(inquiries, "responded") + CountStatus(inquiries, "in_discussion")
  {
    ActiveCountIsSum(inquiries);
    BuyerStats(24, 8, |Filter(ActiveTest(), inquiries)|, 12)
  }

  /** The open inquiries are exactly the pending, responded and in-discussion ones. */
  lemma {:induction false} ActiveCountIsSum(inquiries: seq<Inquiry>)
    ensures |Filter(ActiveTest(), inquiries)|
            == CountStatus(inquiries, "pending") + CountStatus(inquiries, "responded") + CountStatus(inquiries, "in_discussion")
  {
    if inquiries != [] {
      ActiveCountIsSum(inquiries[1..]);
      FilterLengthStep(ActiveTest(), inquiries);
      ActiveIndicator(inquiries[0]);
    }
  }

  /** Accepted and rejected inquiries are never counted as open. */
  lemma {:induction false} ClosedNeverActive(inquiries: seq<Inquiry>)
    ensures |Filter(ActiveTest(), inquiries)| + CountStatus(inquiries, "accepted") + CountStatus(inquiries, "rejected") <= |inquiries|
  {
    if inquiries != [] {
      ClosedNeverActive(inquiries[1..]);
      FilterLengthStep(ActiveTest(), inquiries);
      ActiveIndicator(inquiries[0]);
    }
  }

  /** When an activity entry happened: an inquiry's creation date, or "Just now". */
  datatype ActivityTime = OnDate(createdAt: string) | JustNow

  datatype Activity = Activity(action: string, supplier: string, product: string, time: ActivityTime)

  const Welcome := Activity("Welcome to", "Prokhoz B2B Marketplace", "Start searching for products", JustNow)

  const ActivityCount := 4

  /** An inquiry's entry names its manufacturer and product at its date, so it is never the welcome entry. */
  function ActivityOf(i: Inquiry): (a: Activity)
    ensures a.supplier == i.manufacturerName && a.product == i.productTitle && a.time == OnDate(i.createdAt)
    ensures a != Welcome
  {
    Activity("Sent inquiry to", i.manufacturerName, i.productTitle, OnDate(i.createdAt))
  }

  /**
   * The recent-activity list: one entry per inquiry among the first four, in
   * order, naming its manufacturer and product; with no inquiries, the single
   * welcome entry.
   */
  function RecentActivity(inquiries: seq<Inquiry>): (r: seq<Activity>)
    ensures inquiries == [] ==> r == [Welcome]
    ensures inquiries != [] ==> |r| == if |inquiries| < ActivityCount then |inquiries| else ActivityCount
    ensures inquiries != [] ==> forall k :: 0 <= k < |r| ==>
              && r[k].action == "Sent inquiry to"
              && r[k].supplier == inquiries[k].manufacturerName
              && r[k].product == inquiries[k].productTitle
              && r[k].time == OnDate(inquiries[k].createdAt)
  {
    var first := Take(inquiries, ActivityCount);
    var activity := seq(|first|, k requires 0 <= k < |first| => ActivityOf(first[k]));
    if |activity| == 0 then [Welcome] else activity
  }

  class DashboardHomePage {
    /** The browser window the API client reads the token from, and signs out of on a 401. */
    const window: Window
    var stats: BuyerStats
    var recentActivity: seq<Activity>
    var loading: bool

    constructor(window: Window)
      ensures this.window == window
      ensures stats == NoBuyerStats && recentActivity == [] && loading
    {
      this.window := window;
      stats := NoBuyerStats;
      recentActivity := [];
      loading := true;
    }

    /**
     * `fetchDashboardData`: the buyer's inquiries (empty when the list is
     * missing) give the figures and the activity list; a failed call changes
     * neither. Loading ends false.
     */
    method FetchDashboardData(reply: Reply<Option<seq<Inquiry>>>)
      modifies this, window
      ensures window.Snapshot() == AfterReply(old(window.Snapshot()), reply)
      ensures reply.Success? ==> stats == ComputeBuyerStats(OrEmpty(reply.data)) && recentActivity == RecentActivity(OrEmpty(reply.data))
      ensures reply.Failure? ==> stats == old(stats) && recentActivity == old(recentActivity)
      ensures !loading
    {
      loading := true;
      var response, _ := Send(window, InquiriesOfBuyer, reply);
      if response.Success? {
        var inquiries := OrEmpty(response.data);
        stats := ComputeBuyerStats(inquiries);
        recentActivity := RecentActivity(inquiries);
      }
      loading := false;
    }
  }
}
