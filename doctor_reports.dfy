/** The doctor's reports page: the fetch of the dashboard summary and of all
    reports, the four statistics shown above the table (a summary value when
    it is truthy, else a count over the reports), and the title, type,
    patient and status labels of each row. */
module DoctorReports {
  import opened Wrappers
  import opened Text
  import opened Api

  /** The `/dashboard/summary` body. A missing number is 0: both are falsy. */
  datatype DashboardSummary = DashboardSummary(total: int, pending: int, investigating: int, resolved: int)

  /** What one `fetch` gives the page: it throws (network), answers with a
      status that is not ok, answers ok with a body that `json()` rejects, or
      answers ok with a parsed body. */
  datatype Reply<T> = Unreachable | NotOk | Unparsable | Parsed(body: T)

  /** A request that returned, whatever its status: the handler goes on. */
  predicate Returned<T>(r: Reply<T>) {
    r.NotOk? || r.Parsed?
  }

  // ----- statistics -----

  /** The number of reports whose status is exactly `status`. */
  function Count(rs: seq<Report>, status: string): (n: nat)
    ensures n <= |rs|
  {
    if rs == [] then 0
    else Count(rs[..|rs| - 1], status) + (if rs[|rs| - 1].status == Some(status) then 1 else 0)
  }

  /** Counting splits over concatenation. */
  lemma {:induction false} CountAppend(a: seq<Report>, b: seq<Report>, status: string)
    ensures Count(a + b, status) == Count(a, status) + Count(b, status)
    decreases |b|
  {
    if b != [] {
      assert (a + b)[..|a + b| - 1] == a + b[..|b| - 1];
      assert (a + b)[|a + b| - 1] == b[|b| - 1];
      CountAppend(a, b[..|b| - 1], status);
    } else {
      assert a + b == a;
    }
  }

  /** A report has one status, so the counts of two different statuses never
      add up to more than the reports there are. */
  lemma {:induction false} CountsDisjoint(rs: seq<Report>, s: string, t: string)
    requires s != t
    ensures Count(rs, s) + Count(rs, t) <= |rs|
  {
    if rs != [] {
      CountsDisjoint(rs[..|rs| - 1], s, t);
    }
  }

  /** The count is positive exactly when some report has the status. */
  lemma {:induction false} CountPositive(rs: seq<Report>, status: string)
    ensures Count(rs, status) > 0 <==> exists i | 0 <= i < |rs| :: rs[i].status == Some(status)
  {
    if rs != [] {
      var init := rs[..|rs| - 1];
      CountPositive(init, status);
      if exists i | 0 <= i < |init| :: init[i].status == Some(status) {
        var i :| 0 <= i < |init| && init[i].status == Some(status);
        assert rs[i] == init[i];
      }
      if exists i | 0 <= i < |rs| :: rs[i].status == Some(status) {
        var i :| 0 <= i < |rs| && rs[i].status == Some(status);
        if i < |init| {
          assert init[i] == rs[i];
        }
      }
    }
  }

  /** The reports created in the calendar month `month` (0-11) of `year`. */
  function ThisMonth(rs: seq<Report>, year: int, month: int): (n: nat)
    ensures n <= |rs|
    ensures n == |rs| <==> forall i | 0 <= i < |rs| :: rs[i].createdAt.year == year && rs[i].createdAt.month == month
  {
    if rs == [] then 0
    else
      var last := rs[|rs| - 1];
      var init := rs[..|rs| - 1];
      assert forall i | 0 <= i < |init| :: init[i] == rs[i];
      ThisMonth(init, year, month) + (if last.createdAt.year == year && last.createdAt.month == month then 1 else 0)
  }

  /** `summary?.field || count`: a truthy summary value wins, else the count. */
  function Fallback(summary: Option<DashboardSummary>, field: DashboardSummary -> int, count: nat): int {
    if summary.Some? && field(summary.value) != 0 then field(summary.value) else count
  }

  /** The four numbers shown above the table. */
  datatype Stats = Stats(total: int, thisMonth: nat, pending: int, completed: int)

  function Total(s: DashboardSummary): int { s.total }
  function Pending(s: DashboardSummary): int { s.pending }
  function Resolved(s: DashboardSummary): int { s.resolved }

  /** The statistics at an instant whose calendar month is `month` of `year`. */
  function Statistics(summary: Option<DashboardSummary>, rs: seq<Report>, year: int, month: int): (st: Stats)
    ensures st.thisMonth == ThisMonth(rs, year, month)
    ensures summary.Some? && summary.value.total != 0 ==> st.total == summary.value.total
    ensures summary.Some? && summary.value.pending != 0 ==> st.pending == summary.value.pending
    ensures summary.Some? && summary.value.resolved != 0 ==> st.completed == summary.value.resolved
    ensures (summary.None? || summary.value.total == 0) ==> st.total == |rs|
    ensures (summary.None? || summary.value.pending == 0) ==> st.pending == Count(rs, "PENDING")
    ensures (summary.None? || summary.value.resolved == 0) ==> st.completed == Count(rs, "RESOLVED")
  {
    Stats(Fallback(summary, Total, |rs|), ThisMonth(rs, year, month),
          Fallback(summary, Pending, Count(rs, "PENDING")), Fallback(summary, Resolved, Count(rs, "RESOLVED")))
  }

  /** Without a summary (or with an all-zero one) the statistics are counts
      over the shown reports, and they are consistent: pending and completed
      together, and this month's, never exceed the total. */
  lemma CountedStatisticsConsistent(summary: Option<DashboardSummary>, rs: seq<Report>, year: int, month: int)
    requires summary.None? || (summary.value.total == 0 && summary.value.pending == 0 && summary.value.resolved == 0)
    ensures var st := Statistics(summary, rs, year, month);
      && st.pending + st.completed <= st.total
      && st.thisMonth <= st.total
      && (st.pending > 0 <==> exists i | 0 <= i < |rs| :: rs[i].status == Some("PENDING"))
  {
    CountsDisjoint(rs, "PENDING", "RESOLVED");
    CountPositive(rs, "PENDING");
  }

  // ----- row labels -----

  /** `getReportTitle(report)`: the first suspected chemical, else the
      toxicity likelihood when it is a non-empty text, else a fixed title. */
  function Title(r: Report): (title: string)
    ensures r.suspectedChemicals.Some? && |r.suspectedChemicals.value| > 0 ==>
      title == r.suspectedChemicals.value[0] + " Exposure Analysis"
    ensures !(r.suspectedChemicals.Some? && |r.suspectedChemicals.value| > 0) ==>
      if r.toxicityLikelihood.Some? && r.toxicityLikelihood.value != "" then
        title == r.toxicityLikelihood.value + " Toxicity Assessment"
      else title == "Medical Report"
  {
    if r.suspectedChemicals.Some? && |r.suspectedChemicals.value| > 0 then
      r.suspectedChemicals.value[0] + " Exposure Analysis"
    else if r.toxicityLikelihood.Some? && r.toxicityLikelihood.value != "" then
      r.toxicityLikelihood.value + " Toxicity Assessment"
    else "Medical Report"
  }

  /** The title reads only the chemicals and the likelihood: a report that
      changes status or symptoms keeps its title. */
  lemma TitleIgnoresStatusAndSymptoms(r: Report, status: Option<string>, symptoms: Option<seq<string>>)
    ensures Title(r.(status := status, symptoms := symptoms)) == Title(r)
    ensures Title(r) == "Medical Report" || EndsWith(Title(r), " Exposure Analysis") || EndsWith(Title(r), " Toxicity Assessment")
  {
  }

  /** `getReportType(report)` */
  function ReportType(r: Report): (kind: string)
    ensures kind == "Symptom Analysis" <==> r.symptoms.Some? && |r.symptoms.value| > 0
    ensures kind != "Symptom Analysis" ==> kind == "Comprehensive Analysis"
  {
    if r.symptoms.Some? && |r.symptoms.value| > 0 then "Symptom Analysis" else "Comprehensive Analysis"
  }

  /** `report.user_id?.substring(0, 8) || 'Unknown'`: the first eight
      characters of the user id, or "Unknown" when there is no id. */
  function PatientLabel(userId: string): (shown: string)
    ensures userId == "" ==> shown == "Unknown"
    ensures userId != "" ==> StartsWith(userId, shown) && |shown| == if |userId| < 8 then |userId| else 8
  {
    if userId == "" then "Unknown"
    else
      if |userId| < 8 then userId else userId[..8]
  }

  const Labels: map<string, string> :=
    map["PENDING" := "Pending", "INVESTIGATING" := "Investigating", "RESOLVED" := "Completed", "FALSE_ALARM" := "False Alarm"]

  const Colors: map<string, string> :=
    map["PENDING" := "bg-yellow-100 text-yellow-800", "INVESTIGATING" := "bg-blue-100 text-blue-800",
        "RESOLVED" := "bg-green-100 text-green-800", "FALSE_ALARM" := "bg-gray-100 text-gray-800"]

  /** The badge text of `getStatusBadge(status)`: the label of a known status,
      else the status itself. */
  function StatusLabel(status: string): (badge: string)
    ensures status in Labels ==> badge == Labels[status]
    ensures status !in Labels ==> badge == status
  {
    if status in Labels && Labels[status] != "" then Labels[status] else status
  }

  /** The badge colour of `getStatusBadge(status)`, gray for an unknown status. */
  function StatusColor(status: string): (cls: string)
    ensures status in Colors ==> cls == Colors[status]
    ensures status !in Colors ==> cls == "bg-gray-100 text-gray-800"
  {
    if status in Colors && Colors[status] != "" then Colors[status] else "bg-gray-100 text-gray-800"
  }

  /** The four known statuses get four different labels, none of them the
      raw status; a resolved report reads "Completed". */
  lemma StatusLabelsDistinct(s: string, t: string)
    requires s in Labels && t in Labels && s != t
    ensures StatusLabel(s) != StatusLabel(t)
    ensures StatusLabel(s) != s
    ensures StatusLabel("RESOLVED") == "Completed"
  {
  }

  // ----- fetchData -----

  /** The page's state. */
  class Page {
    var reports: seq<Report>
    var summary: Option<DashboardSummary>
    var loading: bool

    constructor ()
      ensures reports == [] && summary == None && loading
    {
      reports := [];
      summary := None;
      loading := true;
    }

    /** `fetchData` with the session's token and the two replies. With no
        token it returns at once and `loading` keeps its value. Otherwise the
        summary is taken from an ok reply; the reports request is made only
        when the summary request returned, and the normalised list replaces
        the reports only when it is one; any throw is swallowed; `loading`
        ends false. */
    method FetchData(token: Option<string>, summaryReply: Reply<Option<DashboardSummary>>, reportsReply: Reply<Body>)
      modifies this
      ensures token.None? || token.value == "" ==>
        reports == old(reports) && summary == old(summary) && loading == old(loading)
      ensures token.Some? && token.value != "" ==> !loading
      ensures summary == (if token.Some? && token.value != "" && summaryReply.Parsed? then summaryReply.body else old(summary))
      ensures reports != old(reports) ==>
        && token.Some? && token.value != "" && Returned(summaryReply) && reportsReply.Parsed?
        && ReportList(reportsReply.body) == Ok(reports)
      ensures (token.Some? && token.value != "" && Returned(summaryReply) && reportsReply.Parsed?
               && ReportList(reportsReply.body).Ok?) ==> reports == ReportList(reportsReply.body).value
    {
      if token.None? || token.value == "" {
        return;
      }
      loading := true;
      match summaryReply {
        case Unreachable =>
          loading := false;
          return;
        case Unparsable =>
          loading := false;
          return;
        case NotOk =>
        case Parsed(body) =>
          summary := body;
      }
      if reportsReply.Parsed? {
        var list := ReportList(reportsReply.body);
        if list.Ok? {
          reports := list.value;
        }
      }
      loading := false;
    }

    /** The statistics the page shows in the given calendar month. */
    function Shown(year: int, month: int): (st: Stats)
      reads this
      ensures st.thisMonth <= |reports|
    {
      Statistics(summary, reports, year, month)
    }
  }
}
