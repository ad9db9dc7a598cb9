/**
 * The manufacturer's inquiry list (src/pages/manufacturer/Inquiries.tsx): the
 * inquiries with their counts by status, the badge texts and colours, and the
 * two row actions that change an inquiry's status.
 */
module Inquiries {
  import opened Wrappers
  import opened JsStrings
  import opened Seqs
  import opened Browser
  import opened Api
  import opened Marketplace

  /** The four numbers on the page's summary cards. */
  datatype Stats = Stats(total: int, pending: int, inDiscussion: int, accepted: int)

  const NoStats := Stats(0, 0, 0, 0)

  function StatusIs(status: string): Inquiry -> bool {
    (i: Inquiry) => i.status == status
  }

  /** The number of inquiries with the status, counted one by one: the reference for the filters below. */
  function CountStatus(inquiries: seq<Inquiry>, status: string): (c: nat)
    ensures c <= |inquiries|
    ensures c == 0 <==> forall k :: 0 <= k < |inquiries| ==> inquiries[k].status != status
  {
    if inquiries == [] then 0
    else (if inquiries[0].status == status then 1 else 0) + CountStatus(inquiries[1..], status)
  }

  lemma {:induction false} FilterCountsStatus(inquiries: seq<Inquiry>, status: string)
    ensures |Filter(StatusIs(status), inquiries)| == CountStatus(inquiries, status)
  {
    if inquiries != [] {
      FilterCountsStatus(inquiries[1..], status);
    }
  }

  /**
   * The statistics `fetchInquiries` computes: the total is the number of
   * inquiries, each other figure the number with exactly that status, so
   * the three never add up to more than the total.
   */
  function ComputeStats(inquiries: seq<Inquiry>): (s: Stats)
    ensures s.total == |inquiries|
    ensures s.pending == CountStatus(inquiries, "pending")
    ensures s.inDiscussion == CountStatus(inquiries, "in_discussion")
    ensures s.accepted == CountStatus(inquiries, "accepted")
    ensures 0 <= s.pending && 0 <= s.inDiscussion && 0 <= s.accepted
    ensures s.pending + s.inDiscussion + s.accepted <= s.total
  {
    FilterCountsStatus(inquiries, "pending");
    FilterCountsStatus(inquiries, "in_discussion");
    FilterCountsStatus(inquiries, "accepted");
    DisjointFilters(StatusIs("pending"), StatusIs("in_discussion"), StatusIs("accepted"), inquiries);
    Stats(
      |inquiries|,
      |Filter(StatusIs("pending"), inquiries)|,
      |Filter(StatusIs("in_discussion"), inquiries)|,
      |Filter(StatusIs("accepted"), inquiries)|)
  }

  const KnownStatuses := ["pending", "responded", "in_discussion", "accepted", "rejected"]

  /** `getStatusText`: the five known statuses get display text, any other status is shown as it is. */
  function StatusText(status: string): (t: string)
    ensures status == "pending" ==> t == "Pending"
    ensures status == "responded" ==> t == "Responded"
    ensures status == "in_discussion" ==> t == "In Discussion"
    ensures status == "accepted" ==> t == "Accepted"
    ensures status == "rejected" ==> t == "Rejected"
    ensures t == status <==> status !in KnownStatuses
  {
    match status
    case "pending" => "Pending"
    case "responded" => "Responded"
    case "in_discussion" => "In Discussion"
    case "accepted" => "Accepted"
    case "rejected" => "Rejected"
    case _ => status
  }

  const GreyBadge := "bg-gray-500 text-white"

  /** `getStatusColor`: one colour per known status, grey for anything else. */
  function StatusColor(status: string): (c: string)
    ensures status == "pending" ==> c == "bg-yellow-500 text-white"
    ensures status == "responded" ==> c == "bg-blue-500 text-white"
    ensures status == "in_discussion" ==> c == "bg-purple-500 text-white"
    ensures status == "accepted" ==> c == "bg-green-500 text-white"
    ensures status == "rejected" ==> c == "bg-red-500 text-white"
    ensures c == GreyBadge <==> status !in KnownStatuses
  {
    match status
    case "pending" => "bg-yellow-500 text-white"
    case "responded" => "bg-blue-500 text-white"
    case "in_discussion" => "bg-purple-500 text-white"
    case "accepted" => "bg-green-500 text-white"
    case "rejected" => "bg-red-500 text-white"
    case _ => GreyBadge
  }

  /** Different known statuses get different colours. */
  lemma StatusColorsDistinct(a: string, b: string)
    requires a in KnownStatuses && b in KnownStatuses && a != b
    ensures StatusColor(a) != StatusColor(b)
  {
  }

  const KnownPriorities := ["high", "medium", "low"]

  /** `getPriorityColor`: red, yellow and green for high, medium and low, grey otherwise. */
  function PriorityColor(priority: string): (c: string)
    ensures priority == "high" ==> c == "bg-red-500 text-white"
    ensures priority == "medium" ==> c == "bg-yellow-500 text-white"
    ensures priority == "low" ==> c == "bg-green-500 text-white"
    ensures c == GreyBadge <==> priority !in KnownPriorities
  {
    match priority
    case "high" => "bg-red-500 text-white"
    case "medium" => "bg-yellow-500 text-white"
    case "low" => "bg-green-500 text-white"
    case _ => GreyBadge
  }

  /** The priority badge text: the first character upper-cased, the rest unchanged. */
  function PriorityLabel(priority: string): (t: string)
    ensures |t| == |priority|
    ensures priority != "" ==> t[0] == UpperChar(priority[0]) && t[1..] == priority[1..]
  {
    Capitalize(priority)
  }

  /** The budget cell shows an amount only for a budget that is present and not zero. */
  predicate BudgetSpecified(budget: Option<real>) {
    budget.Some? && budget.value != 0.0
  }

  function BudgetCell(budget: Option<real>): (cell: Option<real>)
    ensures cell.None? <==> budget.None? || budget.value == 0.0
    ensures cell.Some? ==> cell == budget
  {
    if BudgetSpecified(budget) then budget else None
  }

  /** The two buttons of each row. */
  datatype RowAction = Accept | Discuss

  /** The status a row button requests: only ever 'accepted' or 'in_discussion'. */
  function ActionStatus(action: RowAction): (status: string)
    ensures status == "accepted" || status == "in_discussion"
    ensures status == "accepted" <==> action == Accept
  {
    match action
    case Accept => "accepted"
    case Discuss => "in_discussion"
  }

  class InquiriesPage {
    /** The browser window the API client reads the token from, and signs out of on a 401. */
    const window: Window
    /** None once a reply came without a list: the page sets it to `undefined`. */
    var inquiries: Option<seq<Inquiry>>
    var stats: Stats
    var loading: bool

    /** Whenever the list is there, the summary counts it. */
    predicate Valid()
      reads this
    {
      inquiries.Some? ==> stats == ComputeStats(inquiries.value)
    }

    constructor(window: Window)
      ensures this.window == window
      ensures inquiries == Some([]) && stats == NoStats && loading
      ensures Valid()
    {
      this.window := window;
      inquiries := Some([]);
      stats := NoStats;
      loading := true;
    }

    /**
     * `fetchInquiries`: a reply's list replaces the inquiries and the
     * statistics; a reply without a list leaves the inquiries undefined and
     * the statistics as they were (computing them throws); a failed call
     * changes neither. Loading ends false.
     */
    method FetchInquiries(reply: Reply<Option<seq<Inquiry>>>)
      requires Valid()
      modifies this, window
      ensures Valid() && !loading
      ensures window.Snapshot() == AfterReply(old(window.Snapshot()), reply)
      ensures reply.Success? && reply.data.Some? ==> inquiries == reply.data && stats == ComputeStats(reply.data.value)
      ensures reply.Success? && reply.data.None? ==> inquiries.None? && stats == old(stats)
      ensures reply.Failure? ==> inquiries == old(inquiries) && stats == old(stats)
    {
      loading := true;
      var response, _ := Send(window, InquiriesOfManufacturer, reply);
      if response.Success? {
        inquiries := response.data;
        if response.data.Some? {
          stats := ComputeStats(response.data.value);
        }
      }
      loading := false;
    }

    /**
     * `handleStatusUpdate`: asks for the status change and, once it succeeds,
     * reloads the list with `refetch`; a failed change reloads nothing.
     */
    method HandleStatusUpdate(inquiryId: string, newStatus: string, reply: Reply<()>, refetch: Reply<Option<seq<Inquiry>>>)
      returns (request: Endpoint, body: string)
      requires Valid()
      modifies this, window
      ensures reply.Failure? ==> window.Snapshot() == AfterReply(old(window.Snapshot()), reply)
      ensures reply.Success? ==> window.Snapshot() == AfterReply(old(window.Snapshot()), refetch)
      ensures request == InquiryUpdateStatus(inquiryId) && body == newStatus
      ensures Valid()
      ensures reply.Failure? ==> inquiries == old(inquiries) && stats == old(stats) && loading == old(loading)
      ensures reply.Success? ==> !loading
      ensures reply.Success? && refetch.Success? && refetch.data.Some? ==>
                inquiries == refetch.data && stats == ComputeStats(refetch.data.value)
      ensures reply.Success? && refetch.Success? && refetch.data.None? ==> inquiries.None? && stats == old(stats)
      ensures reply.Success? && refetch.Failure? ==> inquiries == old(inquiries) && stats == old(stats)
    {
      request := InquiryUpdateStatus(inquiryId);
      body := newStatus;
      var response, _ := Send(window, request, reply);
      if response.Success? {
        FetchInquiries(refetch);
      }
    }

    /**
     * A row button: the status update for the button's status, with the same
     * outcome as `HandleStatusUpdate`; it only ever asks for 'accepted' or
     * 'in_discussion'.
     */
    method OnRowAction(inquiryId: string, action: RowAction, reply: Reply<()>, refetch: Reply<Option<seq<Inquiry>>>)
      returns (request: Endpoint, body: string)
      requires Valid()
      modifies this, window
      ensures reply.Failure? ==> window.Snapshot() == AfterReply(old(window.Snapshot()), reply)
      ensures reply.Success? ==> window.Snapshot() == AfterReply(old(window.Snapshot()), refetch)
      ensures request == InquiryUpdateStatus(inquiryId) && body == ActionStatus(action)
      ensures body == "accepted" || body == "in_discussion"
      ensures Valid()
      ensures reply.Failure? ==> inquiries == old(inquiries) && stats == old(stats) && loading == old(loading)
      ensures reply.Success? ==> !loading
      ensures reply.Success? && refetch.Success? && refetch.data.Some? ==>
                inquiries == refetch.data && stats == ComputeStats(refetch.data.value)
      ensures reply.Success? && refetch.Success? && refetch.data.None? ==> inquiries.None? && stats == old(stats)
      ensures reply.Success? && refetch.Failure? ==> inquiries == old(inquiries) && stats == old(stats)
    {
      request, body := HandleStatusUpdate(inquiryId, ActionStatus(action), reply, refetch);
    }
  }
}
