/**
 * The manufacturer's dashboard (src/pages/manufacturer/Dashboard.tsx): the
 * server's statistics shown as four cards, the first three inquiries with
 * the time elapsed since each, and the company logo in the header.
 */
module ManufacturerDashboard {
  import opened Wrappers
  import opened Records
  import opened JsStrings
  import opened Seqs
  import opened Browser
  import opened Api
  import opened AccountForms

  datatype DashboardStats = DashboardStats(
    totalProducts: int,
    totalInquiries: int,
    pendingInquiries: int,
    respondedInquiries: int,
    inDiscussionInquiries: int,
    acceptedInquiries: int)

  const NoDashboardStats := DashboardStats(0, 0, 0, 0, 0, 0)

  /** An inquiry as the dashboard lists it. */
  datatype RecentInquiry = RecentInquiry(id: string, productTitle: string, buyerCompanyName: string, createdAt: string)

  const RecentCount := 3

  /** `slice(0, 3)`: the first three inquiries, in order, or all of them when there are fewer. */
  function RecentInquiries(inquiries: seq<RecentInquiry>): (r: seq<RecentInquiry>)
    ensures |r| == if |inquiries| < RecentCount then |inquiries| else RecentCount
    ensures r == inquiries[..|r|]
  {
    Take(inquiries, RecentCount)
  }

  datatype StatCard = StatCard(title: string, value: string)

  /**
   * The four cards, in order: products, inquiries (titled 'Active Inquiries'
   * although it shows the total), pending inquiries and accepted orders, each
   * figure written as `toString` writes it. The responded and in-discussion
   * figures are not shown.
   */
  function StatCards(stats: DashboardStats): (cards: seq<StatCard>)
    ensures |cards| == 4
    ensures cards[0] == StatCard("Total Products", IntToString(stats.totalProducts))
    ensures cards[1] == StatCard("Active Inquiries", IntToString(stats.totalInquiries))
    ensures cards[2] == StatCard("Pending Inquiries", IntToString(stats.pendingInquiries))
    ensures cards[3] == StatCard("Accepted Orders", IntToString(stats.acceptedInquiries))
  {
    [StatCard("Total Products", IntToString(stats.totalProducts)),
     StatCard("Active Inquiries", IntToString(stats.totalInquiries)),
     StatCard("Pending Inquiries", IntToString(stats.pendingInquiries)),
     StatCard("Accepted Orders", IntToString(stats.acceptedInquiries))]
  }

  /** Two statistics that differ only in figures no card shows give the same cards. */
  lemma CardsIgnoreRespondedAndInDiscussion(a: DashboardStats, b: DashboardStats)
    requires a.totalProducts == b.totalProducts && a.totalInquiries == b.totalInquiries
    requires a.pendingInquiries == b.pendingInquiries && a.acceptedInquiries == b.acceptedInquiries
    ensures StatCards(a) == StatCards(b)
  {
  }

  /** A card's text reads back as its figure. */
  lemma CardValuesReadBack(stats: DashboardStats, k: int)
    requires 0 <= k < 4
    requires stats.totalProducts >= 0 && stats.totalInquiries >= 0 && stats.pendingInquiries >= 0 && stats.acceptedInquiries >= 0
    ensures var figure := [stats.totalProducts, stats.totalInquiries, stats.pendingInquiries, stats.acceptedInquiries][k];
            var v := StatCards(stats)[k].value;
            (forall j :: 0 <= j < |v| ==> IsDigit(v[j])) && DigitsValue(v) == figure
  {
    var figures := [stats.totalProducts, stats.totalInquiries, stats.pendingInquiries, stats.acceptedInquiries];
    NatToStringRoundTrip(figures[k]);
  }

  const MsPerHour := 1000 * 60 * 60

  /** `Math.floor(ms / 3600000)`: the whole hours in `ms`, rounded down, also for a negative `ms`. */
  function HoursElapsed(ms: int): (h: int)
    ensures h * MsPerHour <= ms < (h + 1) * MsPerHour
  {
    ms / MsPerHour
  }

  /**
   * `formatTimeAgo`, given the milliseconds since the inquiry was created, or
   * None when its date does not parse (the arithmetic then yields NaN, which
   * fails both comparisons).
   */
  function FormatTimeAgo(elapsed: Option<int>): (t: string)
    ensures elapsed.None? ==> t == "NaN days ago"
    ensures elapsed.Some? ==> (t == "Just now" <==> elapsed.value < MsPerHour)
  {
    match elapsed
    case None => "NaN days ago"
    case Some(ms) =>
      var hours := HoursElapsed(ms);
      if hours < 1 then "Just now"
      else if hours < 24 then IntToString(hours) + " hours ago"
      else IntToString(hours / 24) + " days ago"
  }

  /** From one to twenty-three whole hours the text counts hours, "1 hours ago" included. */
  lemma TimeAgoInHours(ms: int, h: nat)
    requires 1 <= h < 24 && h * MsPerHour <= ms < (h + 1) * MsPerHour
    ensures FormatTimeAgo(Some(ms)) == NatToString(h) + " hours ago"
  {
    assert HoursElapsed(ms) == h;
    assert IntToString(h) == NatToString(h);
  }

  /** From a whole day on, the text counts whole days elapsed. */
  lemma TimeAgoInDays(ms: int, d: nat)
    requires 1 <= d && d * 24 * MsPerHour <= ms < (d + 1) * 24 * MsPerHour
    ensures FormatTimeAgo(Some(ms)) == NatToString(d) + " days ago"
  {
    var hours := HoursElapsed(ms);
    assert d * 24 <= hours < (d + 1) * 24;
    assert hours / 24 == d;
  }

  /** The header shows the user's own logo: an avatar that is set and is not the placeholder. */
  function HeaderLogo(user: Option<Record>): (logo: Option<string>)
    ensures logo.Some? <==> user.Some? && "avatar" in user.value && user.value["avatar"] != "" && user.value["avatar"] != DefaultAvatar
    ensures logo.Some? ==> logo.value == user.value["avatar"]
  {
    if user.Some? then CustomAvatar(user.value) else None
  }

  class DashboardPage {
    /** The browser window the API client reads the token from, and signs out of on a 401. */
    const window: Window
    var stats: DashboardStats
    var recentInquiries: seq<RecentInquiry>
    var loading: bool

    constructor(window: Window)
      ensures this.window == window
      ensures stats == NoDashboardStats && recentInquiries == [] && loading
    {
      this.window := window;
      stats := NoDashboardStats;
      recentInquiries := [];
      loading := true;
    }

    /**
     * `fetchDashboardData`: the statistics call comes first and its failure
     * skips the inquiries call; the state changes only when both succeed and
     * the inquiries reply carries a list (slicing a missing one throws), and
     * then the statistics and the first three inquiries are set together.
     * Loading ends false.
     */
    method FetchDashboardData(statsReply: Reply<DashboardStats>, inquiriesReply: Reply<Option<seq<RecentInquiry>>>)
      returns (inquiriesRequested: bool)
      modifies this, window
      ensures statsReply.Failure? ==> window.Snapshot() == AfterReply(old(window.Snapshot()), statsReply)
      ensures statsReply.Success? ==> window.Snapshot() == AfterReply(old(window.Snapshot()), inquiriesReply)
      ensures inquiriesRequested <==> statsReply.Success?
      ensures statsReply.Success? && inquiriesReply.Success? && inquiriesReply.data.Some? ==>
                stats == statsReply.data && recentInquiries == RecentInquiries(inquiriesReply.data.value)
      ensures !(statsReply.Success? && inquiriesReply.Success? && inquiriesReply.data.Some?) ==>
                stats == old(stats) && recentInquiries == old(recentInquiries)
      ensures !loading
    {
      loading := true;
      inquiriesRequested := false;
      var statsResponse, _ := Send(window, InquiryStats, statsReply);
      if statsResponse.Success? {
        var statsData := statsResponse.data;
        inquiriesRequested := true;
        var inquiriesResponse, _ := Send(window, InquiriesOfManufacturer, inquiriesReply);
        if inquiriesResponse.Success? && inquiriesResponse.data.Some? {
          var recent := RecentInquiries(inquiriesResponse.data.value);
          stats := statsData;
          recentInquiries := recent;
        }
      }
      loading := false;
    }
  }
}
