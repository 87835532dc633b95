/** The results page: the processing-session log loaded newest first, single
    and bulk deletion, relative time stamps and status colours. */
module ResultsPage {
  import opened Wrappers
  import opened Text
  import opened Sorting
  import opened MapsPage

  function Stamp(s: ProcessingSession): int {
    s.timestamp
  }

  /** `sessions.filter(s => s.id !== id)`: the others, in their order. */
  function WithoutId(sessions: seq<ProcessingSession>, id: string): (r: seq<ProcessingSession>)
    ensures |r| <= |sessions|
    ensures forall i | 0 <= i < |r| :: r[i].id != id
  {
    if sessions == [] then []
    else (if sessions[0].id == id then [] else [sessions[0]]) + WithoutId(sessions[1..], id)
  }

  /** Deletion keeps exactly the records with another id. */
  lemma {:induction false} WithoutIdMembers(sessions: seq<ProcessingSession>, id: string)
    ensures forall s | s in sessions && s.id != id :: s in WithoutId(sessions, id)
    ensures forall s | s in WithoutId(sessions, id) :: s in sessions
  {
    if sessions != [] {
      WithoutIdMembers(sessions[1..], id);
      assert sessions == [sessions[0]] + sessions[1..];
    }
  }

  /** Deleting twice is deleting once. */
  lemma {:induction false} WithoutIdIdempotent(sessions: seq<ProcessingSession>, id: string)
    ensures WithoutId(WithoutId(sessions, id), id) == WithoutId(sessions, id)
  {
    if sessions != [] {
      WithoutIdIdempotent(sessions[1..], id);
      WithoutIdAppend(if sessions[0].id == id then [] else [sessions[0]], WithoutId(sessions[1..], id), id);
      if sessions[0].id != id {
        assert WithoutId([sessions[0]], id) == [sessions[0]] by {
          assert [sessions[0]][1..] == [];
        }
      }
    }
  }

  /** Deletion keeps the relative order: it distributes over concatenation. */
  lemma {:induction false} WithoutIdAppend(a: seq<ProcessingSession>, b: seq<ProcessingSession>, id: string)
    ensures WithoutId(a + b, id) == WithoutId(a, id) + WithoutId(b, id)
  {
    if a == [] {
      assert a + b == b;
    } else {
      assert (a + b)[1..] == a[1..] + b;
      WithoutIdAppend(a[1..], b, id);
    }
  }

  /** Deleting from a list sorted newest first leaves it sorted. */
  lemma {:induction false} WithoutIdKeepsOrder(sessions: seq<ProcessingSession>, id: string)
    requires NewestFirst(sessions, Stamp)
    ensures NewestFirst(WithoutId(sessions, id), Stamp)
  {
    if sessions != [] {
      var rest := sessions[1..];
      assert NewestFirst(rest, Stamp) by {
        assert forall i | 0 <= i < |rest| :: rest[i] == sessions[i + 1];
      }
      WithoutIdKeepsOrder(rest, id);
      var tail := WithoutId(rest, id);
      if sessions[0].id != id {
        if tail != [] {
          WithoutIdMembers(rest, id);
          assert tail[0] in rest;
          var k :| 0 <= k < |rest| && rest[k] == tail[0];
          assert rest[k] == sessions[k + 1];
        }
        PrependSorted(sessions[0], tail, Stamp);
      } else {
        assert WithoutId(sessions, id) == tail;
      }
    }
  }

  /** `getStatusColor(status)` */
  function StatusColor(status: string): (cls: string)
    ensures status == "completed" ==> cls == "text-green-600 bg-green-100"
    ensures status == "processing" ==> cls == "text-yellow-600 bg-yellow-100"
    ensures status == "failed" ==> cls == "text-red-600 bg-red-100"
    ensures status !in {"completed", "processing", "failed"} ==> cls == "text-gray-600 bg-gray-100"
  {
    if status == "completed" then "text-green-600 bg-green-100"
    else if status == "processing" then "text-yellow-600 bg-yellow-100"
    else if status == "failed" then "text-red-600 bg-red-100"
    else "text-gray-600 bg-gray-100"
  }

  /** The three known statuses get three different colours, none of them the default. */
  lemma StatusColorsDistinct(s: string, t: string)
    requires s in {"completed", "processing", "failed"}
    ensures s != t ==> StatusColor(s) != StatusColor(t)
  {
  }

  const Minute := 60000
  const Hour := 3600000
  const Day := 86400000

  /** `formatTimestamp(timestamp)` at the instant `now` (epoch milliseconds).
      `Math.floor` of a quotient by a positive constant is Dafny's `/`. */
  function FormatTimestamp(now: int, timestamp: int): (text: string)
    ensures now - timestamp < Minute <==> text == "Just now"
  {
    var diff := now - timestamp;
    var minutes := diff / Minute;
    var hours := diff / Hour;
    var days := diff / Day;
    if minutes < 1 then "Just now"
    else
      var t := if minutes < 60 then Decimal(minutes) + "m ago"
               else if hours < 24 then Decimal(hours) + "h ago"
               else Decimal(days) + "d ago";
      assert IsDigit(t[0]) && !IsDigit("Just now"[0]);
      t
  }

  /** The printed count is the whole number of the bucket's unit elapsed, and
      the bucket is the largest unit that fits: a count of minutes is 1..59, a
      count of hours 1..23, a count of days at least 1. */
  lemma FormatTimestampBuckets(now: int, timestamp: int)
    ensures var d := now - timestamp; var text := FormatTimestamp(now, timestamp);
      && (Minute <= d < Hour ==>
            exists n: nat | 1 <= n < 60 && n * Minute <= d < (n + 1) * Minute :: text == Decimal(n) + "m ago")
      && (Hour <= d < Day ==>
            exists n: nat | 1 <= n < 24 && n * Hour <= d < (n + 1) * Hour :: text == Decimal(n) + "h ago")
      && (Day <= d ==>
            exists n: nat | 1 <= n && n * Day <= d < (n + 1) * Day :: text == Decimal(n) + "d ago")
  {
    var d := now - timestamp;
    if Minute <= d < Hour {
      var n := d / Minute;
      assert FormatTimestamp(now, timestamp) == Decimal(n) + "m ago";
    } else if Hour <= d < Day {
      var n := d / Hour;
      assert d / Minute >= 60;
      assert FormatTimestamp(now, timestamp) == Decimal(n) + "h ago";
    } else if Day <= d {
      var n := d / Day;
      assert d / Minute >= 60 && d / Hour >= 24;
      assert FormatTimestamp(now, timestamp) == Decimal(n) + "d ago";
    }
  }

  /** The page's state; `stored` is the storage entry the maps page writes. */
  class Page {
    var sessions: seq<ProcessingSession>
    var selected: Option<ProcessingSession>
    var loading: bool
    var stored: StoredLog

    constructor (log: StoredLog)
      ensures sessions == [] && selected == None && loading && stored == log
    {
      sessions := [];
      selected := None;
      loading := true;
      stored := log;
    }

    /** The list shown is newest first. */
    ghost predicate Sorted()
      reads this
    {
      NewestFirst(sessions, Stamp)
    }

    /** `loadSessions`: a stored list is shown sorted newest first; a missing
        entry leaves the list as it was, and a parse error is swallowed. In
        every case loading ends. */
    method LoadSessions()
      modifies this
      ensures stored == old(stored) && selected == old(selected) && !loading
      ensures old(stored).Log? ==> sessions == SortNewestFirst(old(stored).sessions, Stamp)
      ensures old(stored).Log? ==> Sorted() && multiset(sessions) == multiset(old(stored).sessions)
      ensures !old(stored).Log? ==> sessions == old(sessions)
    {
      match stored {
        case Log(ss) =>
          SortedPermutation(ss, Stamp);
          sessions := SortNewestFirst(ss, Stamp);
        case Missing =>
        case Corrupt =>
      }
      loading := false;
    }

    /** `deleteSession(id)`: the record goes from the list and from storage;
        the selection is cleared only when it is the deleted record. */
    method DeleteSession(id: string)
      modifies this
      ensures sessions == WithoutId(old(sessions), id)
      ensures stored == Log(sessions)
      ensures selected == (if old(selected).Some? && old(selected).value.id == id then None else old(selected))
      ensures loading == old(loading)
      ensures old(Sorted()) ==> Sorted()
    {
      if Sorted() {
        WithoutIdKeepsOrder(sessions, id);
      }
      sessions := WithoutId(sessions, id);
      stored := Log(sessions);
      if selected.Some? && selected.value.id == id {
        selected := None;
      }
    }

    /** `clearAllSessions`: the list, the storage entry and the selection are gone. */
    method ClearAllSessions()
      modifies this
      ensures sessions == [] && stored == Missing && selected == None && loading == old(loading)
      ensures Sorted()
    {
      sessions := [];
      stored := Missing;
      selected := None;
    }
  }

  /** A run on the maps page shows up on the results page: after a reload, a
      fresh run's final record is in the list, and the list is sorted. */
  lemma RunShowsInResults(existing: seq<ProcessingSession>, s: ProcessingSession, outcome: RunOutcome, elapsed: int)
    requires forall i | 0 <= i < |existing| :: existing[i].id != s.id
    ensures var shown := SortNewestFirst(LogAfterRun(existing, s, outcome, elapsed), Stamp);
      && Finished(s, outcome, elapsed) in shown
      && |shown| == |existing| + 1
      && NewestFirst(shown, Stamp)
  {
    RunPrependsOneRecord(existing, s, outcome, elapsed);
    var log := LogAfterRun(existing, s, outcome, elapsed);
    SortedPermutation(log, Stamp);
    assert Finished(s, outcome, elapsed) in multiset(log) by {
      assert log[0] == Finished(s, outcome, elapsed);
    }
  }
}
