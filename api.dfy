/** The API service: the Bearer header, the report list normalisations, the
    grouping of reports into patients, and the status handling of `makeRequest`.
    Server replies are inputs; `fetch` itself is not modelled. */
module Api {
  import opened Wrappers
  import opened Text
  import opened Sorting
  import opened Browser
  import Auth

  // ----- records -----

  /** A `created_at` text with what `new Date(text)` makes of it: the epoch
      milliseconds of `getTime()` and the calendar year and month (0-11). */
  datatype Timestamp = Timestamp(text: string, millis: int, year: int, month: int)

  /** The fields of a report that the service and the report pages read.
      A missing `user_id` is the empty string: both are falsy. */
  datatype Report = Report(
    id: string,
    userId: string,
    createdAt: Timestamp,
    status: Option<string>,
    toxicityLikelihood: Option<string>,
    suspectedChemicals: Option<seq<string>>,
    symptoms: Option<seq<string>>)

  /** A parsed JSON body, as far as the normalisations look into it: an array
      of reports, an object with or without a `reports` property, `null`, or
      another value (string, number, boolean) with its truthiness. */
  datatype Body = Reports(items: seq<Report>) | Object(reports: Option<Body>) | Null | Scalar(truthy: bool)

  /** A call that returns a value or throws. `TypeError` and `SyntaxError` are
      raised by the engine (a property read on `null`, a call of a missing
      `forEach`, a body that is not JSON); their message text is the engine's. */
  datatype Result<T> = Ok(value: T) | Raised(message: string) | TypeError | SyntaxError

  // ----- getAuthHeaders -----

  /** The Authorization value: "Bearer " and the stored token as a template
      literal prints it, so a missing token is sent as the text "null". */
  function AuthorizationHeader(storage: map<string, Stored>): (h: string)
    ensures StartsWith(h, "Bearer ")
    ensures Auth.AccessTokenKey in storage ==> h[7..] == AsString(storage[Auth.AccessTokenKey])
    ensures Auth.AccessTokenKey !in storage ==> h[7..] == "null"
  {
    var token := GetItem(storage, Auth.AccessTokenKey);
    "Bearer " + (match token case Some(t) => t case None => "null")
  }

  /** `getAuthHeaders()`: the header list. */
  function AuthHeaders(storage: map<string, Stored>): (hs: seq<(string, string)>)
    ensures |hs| == 2 && hs[0].0 == "Authorization" && hs[1] == ("Content-Type", "application/json")
    ensures hs[0].1 == AuthorizationHeader(storage)
  {
    [("Authorization", AuthorizationHeader(storage)), ("Content-Type", "application/json")]
  }

  /** After a login the header carries the token just stored; after a logout
      (or a 401) it carries the text "null". */
  lemma HeaderFollowsSession(storage: map<string, Stored>, token: string, user: Accounts.User)
    ensures AuthorizationHeader(Auth.Committed(storage, token, user)) == "Bearer " + token
    ensures AuthorizationHeader(Auth.Cleared(storage)) == "Bearer null"
  {
    assert Auth.Committed(storage, token, user)[Auth.AccessTokenKey] == Text(token);
    assert Auth.AccessTokenKey !in Auth.Cleared(storage);
  }

  // ----- getAllReports and the list normalisation -----

  /** What `getAllReports` returns for a parsed body: the array itself, else
      `data.reports` when that is an array, else the body unchanged; reading
      `.reports` on `null` throws. */
  function AllReportsBody(data: Body): (r: Result<Body>)
    ensures data.Reports? ==> r == Ok(data)
    ensures data.Null? ==> r == TypeError
    ensures data.Object? && data.reports.Some? && data.reports.value.Reports? ==> r == Ok(data.reports.value)
    ensures r.Ok? && !data.Reports? && !(data.Object? && data.reports.Some? && data.reports.value.Reports?)
            ==> r.value == data
  {
    match data
    case Reports(_) => Ok(data)
    case Null => TypeError
    case Object(Some(Reports(items))) => Ok(Reports(items))
    case _ => Ok(data)
  }

  /** JavaScript truthiness of a body. */
  predicate Truthy(b: Body) {
    match b
    case Reports(_) => true
    case Object(_) => true
    case Null => false
    case Scalar(t) => t
  }

  /** `Array.isArray(b) ? b : (b.reports || [])` and the `forEach` over it: the
      array itself, else a `reports` array, else nothing when `reports` is
      absent or falsy; a truthy non-array `reports` has no `forEach`. */
  function ReportList(b: Body): (r: Result<seq<Report>>)
    ensures b.Reports? ==> r == Ok(b.items)
    ensures b.Object? && b.reports.Some? && b.reports.value.Reports? ==> r == Ok(b.reports.value.items)
    ensures b.Object? && (b.reports.None? || !Truthy(b.reports.value)) ==> r == Ok([])
    ensures b.Scalar? ==> r == Ok([])
    ensures r.Ok? || r.TypeError?
  {
    match b
    case Reports(items) => Ok(items)
    case Null => TypeError
    case Scalar(_) => Ok([])
    case Object(None) => Ok([])
    case Object(Some(inner)) =>
      match inner
      case Reports(items) => Ok(items)
      case _ => if Truthy(inner) then TypeError else Ok([])
  }

  /** Running the list normalisation on what `getAllReports` returns gives the
      list it would give on the raw body: `getAllReports` only unwraps. */
  lemma NormalisationsAgree(data: Body)
    requires data != Null
    ensures AllReportsBody(data).Ok?
    ensures ReportList(AllReportsBody(data).value) == ReportList(data)
  {
  }

  // ----- getPatientsFromReports -----

  function Newest(r: Report): int {
    r.createdAt.millis
  }

  /** The reports of one user, in input order. */
  function ReportsOf(rs: seq<Report>, id: string): (mine: seq<Report>)
    ensures |mine| <= |rs|
    ensures forall i | 0 <= i < |mine| :: mine[i].userId == id
  {
    if rs == [] then []
    else
      var last := rs[|rs| - 1];
      ReportsOf(rs[..|rs| - 1], id) + (if last.userId == id then [last] else [])
  }

  /** Each report occurs among a user's reports as often as in the input if it carries that user's id, else never. */
  lemma {:induction false} ReportsOfCounts(rs: seq<Report>, id: string)
    ensures forall r :: multiset(ReportsOf(rs, id))[r] == (if r.userId == id then multiset(rs)[r] else 0)
  {
    if rs != [] {
      var init, last := rs[..|rs| - 1], rs[|rs| - 1];
      ReportsOfCounts(init, id);
      assert rs == init + [last];
      var tail := if last.userId == id then [last] else [];
      assert multiset(rs) == multiset(init) + multiset{last};
      assert multiset(ReportsOf(rs, id)) == multiset(ReportsOf(init, id)) + multiset(tail);
    }
  }

  /** A user's reports are exactly the input reports carrying that user's id, with their multiplicities. */
  lemma ReportsOfMembers(rs: seq<Report>, id: string)
    ensures multiset(ReportsOf(rs, id)) <= multiset(rs)
    ensures forall r | r in rs && r.userId == id :: r in ReportsOf(rs, id)
    ensures forall r :: multiset(ReportsOf(rs, id))[r] == (if r.userId == id then multiset(rs)[r] else 0)
  {
    ReportsOfCounts(rs, id);
  }

  /** The keys of the grouping map: the non-empty user ids in order of first appearance. */
  function UserIds(rs: seq<Report>): (ids: seq<string>)
  {
    if rs == [] then []
    else
      var ids := UserIds(rs[..|rs| - 1]);
      var u := rs[|rs| - 1].userId;
      if u == "" || u in ids then ids else ids + [u]
  }

  /** The keys are pairwise distinct, and an id is a key exactly when it is
      non-empty and some report carries it. */
  lemma {:induction false} UserIdsExact(rs: seq<Report>)
    ensures Distinct(UserIds(rs))
    ensures forall k :: k in UserIds(rs) <==> k != "" && |ReportsOf(rs, k)| > 0
  {
    if rs != [] {
      UserIdsExact(rs[..|rs| - 1]);
    }
  }

  /** Every key has at least one report. */
  lemma KeysHaveReports(rs: seq<Report>)
    ensures forall i | 0 <= i < |UserIds(rs)| :: |ReportsOf(rs, UserIds(rs)[i])| > 0
  {
    UserIdsExact(rs);
    forall i | 0 <= i < |UserIds(rs)| ensures |ReportsOf(rs, UserIds(rs)[i])| > 0 {
      assert UserIds(rs)[i] in UserIds(rs);
    }
  }

  /** A `PatientInfo`. */
  datatype PatientInfo = PatientInfo(
    userId: string, totalReports: nat, recentReports: seq<Report>, latestReportDate: Timestamp)

  function Latest(p: PatientInfo): int {
    p.latestReportDate.millis
  }

  /** The entry of one user: the count, the first five of the reports sorted
      newest first, and the newest report's date. */
  function Summary(id: string, mine: seq<Report>): (p: PatientInfo)
    requires |mine| > 0
  {
    var sorted := SortNewestFirst(mine, Newest);
    PatientInfo(id, |mine|, sorted[..if |sorted| < 5 then |sorted| else 5], sorted[0].createdAt)
  }

  /** One entry per key of the grouping map, in key order. */
  function Unsorted(rs: seq<Report>): (ps: seq<PatientInfo>)
    ensures |ps| == |UserIds(rs)|
    ensures forall i | 0 <= i < |ps| :: ps[i].userId == UserIds(rs)[i]
  {
    var ids := UserIds(rs);
    KeysHaveReports(rs);
    seq(|ids|, i requires 0 <= i < |ids| => Summary(ids[i], ReportsOf(rs, ids[i])))
  }

  /** The patients, sorted by their newest report, newest first. */
  function Patients(rs: seq<Report>): seq<PatientInfo> {
    SortNewestFirst(Unsorted(rs), Latest)
  }

  /** What `getPatientsFromReports` returns or throws for the reply of `getAllReports`. */
  function PatientsResult(ok: bool, data: Body): Result<seq<PatientInfo>> {
    if !ok then Raised("Failed to fetch reports")
    else
      match AllReportsBody(data)
      case Ok(response) =>
        (match ReportList(response)
         case Ok(rs) => Ok(Patients(rs))
         case _ => TypeError)
      case _ => TypeError
  }

  /** The `forEach` that fills the `Map<string, Report[]>`. */
  method GroupByUser(reports: seq<Report>) returns (keys: seq<string>, groups: map<string, seq<Report>>)
    ensures keys == UserIds(reports)
    ensures forall k :: k in groups <==> k in keys
    ensures forall k | k in keys :: groups[k] == ReportsOf(reports, k)
  {
    keys := [];
    groups := map[];
    var i := 0;
    while i < |reports|
      invariant 0 <= i <= |reports|
      invariant keys == UserIds(reports[..i])
      invariant forall k :: k in groups <==> k in keys
      invariant forall k | k in keys :: groups[k] == ReportsOf(reports[..i], k)
      invariant "" !in keys
    {
      var report := reports[i];
      PrefixStep(reports, i);
      if report.userId != "" {
        if report.userId !in groups {
          NoKeyNoReports(reports[..i], report.userId);
          groups := groups[report.userId := []];
          keys := keys + [report.userId];
        }
        groups := groups[report.userId := groups[report.userId] + [report]];
      }
      i := i + 1;
    }
    assert reports[..|reports|] == reports;
  }

  /** `getPatientsFromReports()`, given the status and parsed body of the `/reports/all` reply. */
  method GetPatientsFromReports(ok: bool, data: Body) returns (r: Result<seq<PatientInfo>>)
    ensures r == PatientsResult(ok, data)
  {
    if !ok {
      return Raised("Failed to fetch reports");
    }
    var response := AllReportsBody(data);
    if !response.Ok? {
      return TypeError;
    }
    var listed := ReportList(response.value);
    if !listed.Ok? {
      return TypeError;
    }
    var patients := Summaries(listed.value);
    r := Ok(SortNewestFirst(patients, Latest));
  }

  /** The grouping and `Array.from(patientMap.entries()).map(...)`. */
  method Summaries(reports: seq<Report>) returns (patients: seq<PatientInfo>)
    ensures patients == Unsorted(reports)
  {
    var keys, groups := GroupByUser(reports);
    ghost var all := Unsorted(reports);
    patients := [];
    var j := 0;
    while j < |keys|
      invariant 0 <= j <= |keys| && patients == all[..j]
    {
      SummaryAt(reports, j);
      assert keys[j] in keys;
      var userReports := groups[keys[j]];
      PrefixGrows(all, j);
      patients := patients + [Summary(keys[j], userReports)];
      j := j + 1;
    }
    assert all[..|keys|] == all;
  }

  /** A prefix one longer is the prefix and the next element. */
  lemma PrefixGrows<T>(s: seq<T>, j: int)
    requires 0 <= j < |s|
    ensures s[..j + 1] == s[..j] + [s[j]]
  {
  }

  /** Extending the prefix by one report extends each user's reports by that
      report if it is theirs, and the keys by its id if that is new and non-empty. */
  lemma PrefixStep(rs: seq<Report>, i: int)
    requires 0 <= i < |rs|
    ensures forall k :: ReportsOf(rs[..i + 1], k) == ReportsOf(rs[..i], k) + (if rs[i].userId == k then [rs[i]] else [])
    ensures var u := rs[i].userId;
      UserIds(rs[..i + 1]) == if u == "" || u in UserIds(rs[..i]) then UserIds(rs[..i]) else UserIds(rs[..i]) + [u]
  {
    assert rs[..i + 1][..i] == rs[..i];
  }

  /** A non-empty id that is not yet a key has no reports so far. */
  lemma NoKeyNoReports(rs: seq<Report>, k: string)
    requires k != "" && k !in UserIds(rs)
    ensures ReportsOf(rs, k) == []
  {
    UserIdsExact(rs);
  }

  /** A non-empty id with reports is a key. */
  lemma IdIsKey(rs: seq<Report>, k: string)
    requires k != "" && |ReportsOf(rs, k)| > 0
    ensures k in UserIds(rs)
  {
    UserIdsExact(rs);
  }

  /** The `j`-th key has reports, and the `j`-th entry summarises them. */
  lemma SummaryAt(rs: seq<Report>, j: int)
    requires 0 <= j < |UserIds(rs)|
    ensures var k := UserIds(rs)[j];
      |ReportsOf(rs, k)| > 0 && Unsorted(rs)[j] == Summary(k, ReportsOf(rs, k))
  {
    KeysHaveReports(rs);
  }

  /** Each entry has its own user id, non-empty and carried by some report. */
  lemma PatientsOncePerUser(rs: seq<Report>)
    ensures var ps := Patients(rs);
      && |ps| == |UserIds(rs)|
      && NewestFirst(ps, Latest)
      && (forall i, j | 0 <= i < j < |ps| :: ps[i].userId != ps[j].userId)
      && (forall i | 0 <= i < |ps| :: ps[i].userId != "" && |ReportsOf(rs, ps[i].userId)| > 0)
  {
    var us := Unsorted(rs);
    var ps := Patients(rs);
    SortedPermutation(us, Latest);
    assert forall i, j | 0 <= i < j < |ps| :: ps[i].userId != ps[j].userId by {
      UserIdsExact(rs);
      PermutationKeepsDistinctIds(us, ps);
    }
    assert forall i | 0 <= i < |ps| :: ps[i].userId != "" && |ReportsOf(rs, ps[i].userId)| > 0 by {
      UserIdsExact(rs);
      forall i | 0 <= i < |ps| ensures ps[i].userId in UserIds(rs) {
        assert ps[i] in multiset(us);
        var j :| 0 <= j < |us| && us[j] == ps[i];
      }
    }
  }

  /** Every report with a user id is represented by an entry. */
  lemma PatientsCoverReports(rs: seq<Report>)
    ensures var ps := Patients(rs);
      forall r | r in rs && r.userId != "" :: exists i | 0 <= i < |ps| :: ps[i].userId == r.userId
  {
    forall r | r in rs && r.userId != "" ensures exists i | 0 <= i < |Patients(rs)| :: Patients(rs)[i].userId == r.userId {
      CoveredBy(rs, r);
    }
  }

  lemma CoveredBy(rs: seq<Report>, r: Report)
    requires r in rs && r.userId != ""
    ensures exists i | 0 <= i < |Patients(rs)| :: Patients(rs)[i].userId == r.userId
  {
    var us := Unsorted(rs);
    var ps := Patients(rs);
    var ids := UserIds(rs);
    ReportsOfMembers(rs, r.userId);
    assert r in ReportsOf(rs, r.userId);
    IdIsKey(rs, r.userId);
    var j :| 0 <= j < |ids| && ids[j] == r.userId;
    SortedPermutation(us, Latest);
    assert us[j] in multiset(ps);
    var i :| 0 <= i < |ps| && ps[i] == us[j];
  }

  /** A reordering keeps the ids of the entries pairwise distinct. */
  lemma PermutationKeepsDistinctIds(xs: seq<PatientInfo>, ys: seq<PatientInfo>)
    requires multiset(xs) == multiset(ys)
    requires forall i, j | 0 <= i < j < |xs| :: xs[i].userId != xs[j].userId
    ensures forall i, j | 0 <= i < j < |ys| :: ys[i].userId != ys[j].userId
  {
    forall i, j | 0 <= i < j < |ys| ensures ys[i].userId != ys[j].userId {
      if ys[i] == ys[j] {
        AtMostOnce(xs, ys[i]);
        TwoPositions(ys, i, j);
      } else {
        assert ys[i] in multiset(xs) && ys[j] in multiset(xs);
        var a :| 0 <= a < |xs| && xs[a] == ys[i];
        var b :| 0 <= b < |xs| && xs[b] == ys[j];
      }
    }
  }

  lemma {:induction false} AtMostOnce(xs: seq<PatientInfo>, x: PatientInfo)
    requires forall i, j | 0 <= i < j < |xs| :: xs[i].userId != xs[j].userId
    ensures multiset(xs)[x] <= 1
  {
    if xs != [] {
      assert xs == [xs[0]] + xs[1..];
      AtMostOnce(xs[1..], x);
      if x == xs[0] {
        assert x !in xs[1..];
      }
    }
  }

  lemma TwoPositions(ys: seq<PatientInfo>, i: int, j: int)
    requires 0 <= i < j < |ys| && ys[i] == ys[j]
    ensures multiset(ys)[ys[i]] >= 2
  {
    assert ys == ys[..j] + ys[j..];
    assert ys[i] in ys[..j];
    assert ys[j] in ys[j..];
  }

  /** Each entry counts all of its user's reports, keeps at most five of them,
      newest first, and dates itself by the newest one. */
  lemma PatientEntries(rs: seq<Report>, p: PatientInfo)
    requires p in Patients(rs)
    ensures var mine := ReportsOf(rs, p.userId);
      && |mine| > 0
      && p.totalReports == |mine|
      && |p.recentReports| == (if |mine| < 5 then |mine| else 5)
      && NewestFirst(p.recentReports, Newest)
      && multiset(p.recentReports) <= multiset(mine)
      && (forall r, s | r in p.recentReports && s in multiset(mine) - multiset(p.recentReports) :: Newest(s) <= Newest(r))
      && (forall r | r in mine :: Newest(r) <= p.latestReportDate.millis)
      && (exists r | r in mine :: r.createdAt == p.latestReportDate)
  {
    var us := Unsorted(rs);
    SortedPermutation(us, Latest);
    assert p in multiset(us);
    var i :| 0 <= i < |us| && us[i] == p;
    var ids := UserIds(rs);
    UserIdsExact(rs);
    assert ids[i] in ids;
    SummaryFacts(ids[i], ReportsOf(rs, ids[i]));
  }

  lemma SummaryFacts(id: string, mine: seq<Report>)
    requires |mine| > 0
    ensures var p := Summary(id, mine);
      && p.userId == id
      && p.totalReports == |mine|
      && |p.recentReports| == (if |mine| < 5 then |mine| else 5)
      && NewestFirst(p.recentReports, Newest)
      && multiset(p.recentReports) <= multiset(mine)
      && (forall r, s | r in p.recentReports && s in multiset(mine) - multiset(p.recentReports) :: Newest(s) <= Newest(r))
      && (forall r | r in mine :: Newest(r) <= p.latestReportDate.millis)
      && (exists r | r in mine :: r.createdAt == p.latestReportDate)
  {
    var sorted := SortNewestFirst(mine, Newest);
    SortedPermutation(mine, Newest);
    var n := if |sorted| < 5 then |sorted| else 5;
    var p := Summary(id, mine);
    assert p.recentReports == sorted[..n] && p.latestReportDate == sorted[0].createdAt;
    assert multiset(p.recentReports) <= multiset(mine) by {
      assert sorted == sorted[..n] + sorted[n..];
    }
    assert NewestFirst(p.recentReports, Newest);
    assert forall r | r in mine :: Newest(r) <= p.latestReportDate.millis by {
      HeadIsNewest(mine, Newest);
      forall r | r in mine ensures Newest(r) <= p.latestReportDate.millis {
        var k :| 0 <= k < |mine| && mine[k] == r;
      }
    }
    assert exists r | r in mine :: r.createdAt == p.latestReportDate by {
      assert sorted[0] in multiset(mine);
    }
    RecentAreNewest(id, mine);
  }

  /** The kept reports are the newest: none left out is newer than one kept. */
  lemma RecentAreNewest(id: string, mine: seq<Report>)
    requires |mine| > 0
    ensures var p := Summary(id, mine);
      forall r, s | r in p.recentReports && s in multiset(mine) - multiset(p.recentReports) :: Newest(s) <= Newest(r)
  {
    var sorted := SortNewestFirst(mine, Newest);
    SortedPermutation(mine, Newest);
    var n := if |sorted| < 5 then |sorted| else 5;
    assert Summary(id, mine).recentReports == sorted[..n];
    PrefixHoldsNewest(sorted, Newest, n);
  }

  // ----- makeRequest -----

  /** The reply `fetch` gives: a network failure, or a status with the parsed
      body (`None` when it is not JSON) and its `detail` text (`None` when absent). */
  datatype HttpReply = NetworkFailure(message: string) | Response(status: int, body: Option<Body>, detail: Option<string>)

  predicate IsOk(status: int) {
    200 <= status <= 299
  }

  /** A 401 whose body parses: the only reply that ends the session. */
  predicate ExpiresSession(reply: HttpReply) {
    reply.Response? && reply.body.Some? && !IsOk(reply.status) && reply.status == 401
  }

  /** What `makeRequest` returns or rethrows. The error body is parsed before the
      status is looked at, so a failed reply that is not JSON throws that parse
      error whatever its status. Past the 401 branch the body's `detail` is read,
      which throws a TypeError on a `null` body. */
  function RequestOutcome(reply: HttpReply): (r: Result<Body>)
    ensures r.Ok? <==> reply.Response? && IsOk(reply.status) && reply.body.Some?
    ensures r.Ok? ==> r.value == reply.body.value
    ensures ExpiresSession(reply) ==> r == Raised("Session expired")
    ensures reply.Response? && reply.body.Some? && reply.body.value != Null && reply.status == 422
            ==> r == Raised("Invalid input data")
    ensures reply.Response? && reply.body == Some(Null) && !IsOk(reply.status) && reply.status != 401 ==> r == TypeError
    ensures reply.Response? && reply.body.Some? && reply.body.value != Null && !IsOk(reply.status)
            && reply.status != 401 && reply.status != 422
            ==> r == Raised(if reply.detail.Some? && reply.detail.value != "" then reply.detail.value else "Request failed")
    ensures reply.Response? && reply.body.None? ==> r == SyntaxError
  {
    match reply
    case NetworkFailure(m) => Raised(m)
    case Response(status, body, detail) =>
      if body.None? then SyntaxError
      else if IsOk(status) then Ok(body.value)
      else if status == 401 then Raised("Session expired")
      else if body.value == Null then TypeError
      else if status == 422 then Raised("Invalid input data")
      else Raised(if detail.Some? && detail.value != "" then detail.value else "Request failed")
  }

  /** `makeRequest(url, options)` for the given reply. On a 401 it removes both
      session keys and sends the browser to /login; nothing else touches the window. */
  method MakeRequest(w: Window, reply: HttpReply) returns (r: Result<Body>)
    modifies w
    ensures r == RequestOutcome(reply)
    ensures ExpiresSession(reply) ==>
      && w.localStorage == Auth.Cleared(old(w.localStorage))
      && w.hrefs == old(w.hrefs) + ["/login"]
      && w.pushes == old(w.pushes)
      && Auth.HydrationOf(w.localStorage) == Auth.NoSession
    ensures !ExpiresSession(reply) ==> unchanged(w)
  {
    match reply {
      case NetworkFailure(m) =>
        return Raised(m);
      case Response(status, body, detail) =>
        if !IsOk(status) {
          if body.None? {
            return SyntaxError;
          }
          if status == 401 {
            w.localStorage := w.localStorage - {Auth.AccessTokenKey};
            w.localStorage := w.localStorage - {Auth.UserKey};
            w.hrefs := w.hrefs + ["/login"];
            Auth.ClearThenHydrate(old(w.localStorage));
            return Raised("Session expired");
          }
          if body.value == Null {
            return TypeError;
          }
          if status == 422 {
            return Raised("Invalid input data");
          }
          return Raised(if detail.Some? && detail.value != "" then detail.value else "Request failed");
        }
        if body.None? {
          return SyntaxError;
        }
        return Ok(body.value);
    }
  }
}
