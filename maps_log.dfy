/** The detection map page: each detection run is logged as a processing
    session in the browser's storage, first as "processing", then replaced by
    id with its completed or failed form. */
module MapsPage {
  import opened Wrappers
  import opened Detection

  /** The statistics copied into a completed session. */
  datatype RunResults = RunResults(
    sites: seq<Site>, totalArea: real, activeSites: nat, inactiveSites: nat,
    rehabilitatedSites: nat, averageConfidence: Option<real>)

  /** A logged run. `timestamp` is the run's start in epoch milliseconds;
      `status` is the text "processing", "completed" or "failed" (the results
      page reads whatever text is stored). */
  datatype ProcessingSession = ProcessingSession(
    id: string,
    timestamp: int,
    status: string,
    methodLabel: string,
    region: Option<string>,
    results: Option<RunResults>,
    processingTime: Option<int>,
    error: Option<string>)

  /** The storage entry 'galamsey-processing-sessions': absent (or empty), a
      JSON array of sessions, or text that does not parse as an array. */
  datatype StoredLog = Missing | Log(sessions: seq<ProcessingSession>) | Corrupt

  /** What a thrown value carries: an `Error` with its message, or anything else. */
  datatype Thrown = ErrorObject(message: string) | OtherValue

  /** The service call's result: a detection result or a thrown value. */
  datatype RunOutcome = Detected(result: DetectionResult) | Failed(thrown: Thrown)

  const AllRegions := "all"

  /** The region passed to the service: none for the 'all' selection. */
  function RegionArg(selectedRegion: string): (r: Option<string>)
    ensures r.None? <==> selectedRegion == AllRegions
    ensures r.Some? ==> r.value == selectedRegion
  {
    if selectedRegion == AllRegions then None else Some(selectedRegion)
  }

  /** The session's method label: the detection method, the region in
      parentheses unless it is 'all', and " - Refresh" for a refresh. */
  function MethodLabel(detectionMethod: string, selectedRegion: string, refresh: bool): (text: string)
    ensures refresh ==> text == MethodLabel(detectionMethod, selectedRegion, false) + " - Refresh"
    ensures !refresh && selectedRegion == AllRegions ==> text == detectionMethod
    ensures !refresh && selectedRegion != AllRegions ==> text == detectionMethod + " (" + selectedRegion + ")"
  {
    detectionMethod + (if selectedRegion != AllRegions then " (" + selectedRegion + ")" else "")
      + (if refresh then " - Refresh" else "")
  }

  /** The "processing" record a run starts with. */
  function NewSession(id: string, started: int, detectionMethod: string, selectedRegion: string, refresh: bool): ProcessingSession {
    ProcessingSession(id, started, "processing", MethodLabel(detectionMethod, selectedRegion, refresh),
                      RegionArg(selectedRegion), None, None, None)
  }

  /** `Math.round(elapsed / 1000)`: the nearest whole second, halves rounded up. */
  function ProcessingTime(elapsed: int): (secs: int)
    ensures 1000 * secs - 500 <= elapsed < 1000 * secs + 500
  {
    (elapsed + 500) / 1000
  }

  /** `error instanceof Error ? error.message : 'Unknown error occurred'` */
  function ErrorText(t: Thrown): string {
    match t
    case ErrorObject(m) => m
    case OtherValue => "Unknown error occurred"
  }

  /** The record that replaces the "processing" one when the run ends. */
  function Finished(s: ProcessingSession, outcome: RunOutcome, elapsed: int): (f: ProcessingSession)
    ensures f.id == s.id && f.timestamp == s.timestamp && f.methodLabel == s.methodLabel && f.region == s.region
    ensures outcome.Detected? ==>
      var r := outcome.result;
      && f.status == "completed"
      && f.results == Some(RunResults(r.sites, r.totalArea, r.activeSites, r.inactiveSites,
                                      r.rehabilitatedSites, r.averageConfidence))
      && f.processingTime == Some(ProcessingTime(elapsed))
      && f.error == s.error
    ensures outcome.Failed? ==>
      f == s.(status := "failed", error := Some(ErrorText(outcome.thrown)))
  {
    match outcome
    case Detected(r) =>
      s.(status := "completed",
         results := Some(RunResults(r.sites, r.totalArea, r.activeSites, r.inactiveSites,
                                    r.rehabilitatedSites, r.averageConfidence)),
         processingTime := Some(ProcessingTime(elapsed)))
    case Failed(t) =>
      s.(status := "failed", error := Some(ErrorText(t)))
  }

  /** `sessions.map(s => s.id === id ? replacement : s)` */
  function ReplaceById(sessions: seq<ProcessingSession>, id: string, replacement: ProcessingSession): (r: seq<ProcessingSession>)
    ensures |r| == |sessions|
    ensures forall i | 0 <= i < |r| :: r[i] == (if sessions[i].id == id then replacement else sessions[i])
  {
    if sessions == [] then []
    else [if sessions[0].id == id then replacement else sessions[0]] + ReplaceById(sessions[1..], id, replacement)
  }

  /** `JSON.parse(localStorage.getItem(key) || '[]')` as a list, or `None`
      where parsing (or spreading the parsed value) throws. */
  function Existing(stored: StoredLog): (r: Option<seq<ProcessingSession>>)
    ensures r.None? <==> stored.Corrupt?
  {
    match stored
    case Missing => Some([])
    case Log(ss) => Some(ss)
    case Corrupt => None
  }

  /** The log a run leaves behind: its record put in front, then replaced by its final form. */
  function LogAfterRun(existing: seq<ProcessingSession>, s: ProcessingSession, outcome: RunOutcome, elapsed: int): seq<ProcessingSession> {
    ReplaceById([s] + existing, s.id, Finished(s, outcome, elapsed))
  }

  /** With a fresh id, a run adds exactly one record, in front, in its final
      form, and leaves every older record as it was. */
  lemma RunPrependsOneRecord(existing: seq<ProcessingSession>, s: ProcessingSession, outcome: RunOutcome, elapsed: int)
    requires forall i | 0 <= i < |existing| :: existing[i].id != s.id
    ensures LogAfterRun(existing, s, outcome, elapsed) == [Finished(s, outcome, elapsed)] + existing
  {
  }

  /** Replacing by an id no record has changes nothing, and replacing twice
      with the same record is replacing once. */
  lemma ReplaceByIdLaws(sessions: seq<ProcessingSession>, id: string, rec: ProcessingSession)
    ensures (forall i | 0 <= i < |sessions| :: sessions[i].id != id) ==> ReplaceById(sessions, id, rec) == sessions
    ensures rec.id == id ==> ReplaceById(ReplaceById(sessions, id, rec), id, rec) == ReplaceById(sessions, id, rec)
  {
  }

  /** The result shown after a failed first load. */
  function EmptyResult(lastProcessed: string): (r: DetectionResult)
    ensures r.sites == [] && r.totalArea == 0.0 && r.activeSites == 0 && r.inactiveSites == 0
    ensures r.rehabilitatedSites == 0 && r.averageConfidence == Some(0.0) && r.lastProcessed == lastProcessed
  {
    DetectionResult([], 0.0, 0, 0, 0, Some(0.0), lastProcessed)
  }

  /** The page's state; `log` is the storage entry the results page reads. */
  class Page {
    var detectionResult: Option<DetectionResult>
    var loading: bool
    var selectedRegion: string
    var detectionMethod: string
    var log: StoredLog
    /** The region arguments the service was called with, in order. */
    var serviceCalls: seq<Option<string>>

    constructor (stored: StoredLog)
      ensures detectionResult == None && loading && selectedRegion == AllRegions
      ensures detectionMethod == "combined" && log == stored && serviceCalls == []
    {
      detectionResult := None;
      loading := true;
      selectedRegion := AllRegions;
      detectionMethod := "combined";
      log := stored;
      serviceCalls := [];
    }

    /** `fetchGalamseyData`, run by the effect. `sessionId` is the random id,
        `started` and `finished` the clock before and after the call,
        `outcome` what the service gave and `now` the ISO time of a fallback.
        `parsed` is false when the stored log does not parse: the handler
        then rejects before its `try`, with `loading` left true. */
    method FetchGalamseyData(sessionId: string, started: int, finished: int, outcome: RunOutcome, now: string)
      returns (parsed: bool)
      modifies this
      ensures selectedRegion == old(selectedRegion) && detectionMethod == old(detectionMethod)
      ensures parsed <==> !old(log).Corrupt?
      ensures !parsed ==> loading && log == old(log) && detectionResult == old(detectionResult)
                          && serviceCalls == old(serviceCalls)
      ensures parsed ==>
        && log == Log(LogAfterRun(Existing(old(log)).value,
                                  NewSession(sessionId, started, detectionMethod, selectedRegion, false),
                                  outcome, finished - started))
        && serviceCalls == old(serviceCalls) + [RegionArg(selectedRegion)]
        && detectionResult == Some(if outcome.Detected? then outcome.result else EmptyResult(now))
        && !loading
    {
      loading := true;
      var s := NewSession(sessionId, started, detectionMethod, selectedRegion, false);
      var existing := Existing(log);
      if existing.None? {
        return false;
      }
      var updated := [s] + existing.value;
      log := Log(updated);
      serviceCalls := serviceCalls + [RegionArg(selectedRegion)];
      match outcome {
        case Detected(result) =>
          detectionResult := Some(result);
        case Failed(_) =>
          detectionResult := Some(EmptyResult(now));
      }
      log := Log(ReplaceById(updated, sessionId, Finished(s, outcome, finished - started)));
      loading := false;
      return true;
    }

    /** `handleRefresh`: as the first load, with " - Refresh" in the label,
        and a failure leaves the shown result as it was. */
    method HandleRefresh(sessionId: string, started: int, finished: int, outcome: RunOutcome)
      returns (parsed: bool)
      modifies this
      ensures selectedRegion == old(selectedRegion) && detectionMethod == old(detectionMethod)
      ensures parsed <==> !old(log).Corrupt?
      ensures !parsed ==> loading && log == old(log) && detectionResult == old(detectionResult)
                          && serviceCalls == old(serviceCalls)
      ensures parsed ==>
        && log == Log(LogAfterRun(Existing(old(log)).value,
                                  NewSession(sessionId, started, detectionMethod, selectedRegion, true),
                                  outcome, finished - started))
        && serviceCalls == old(serviceCalls) + [RegionArg(selectedRegion)]
        && detectionResult == (if outcome.Detected? then Some(outcome.result) else old(detectionResult))
        && !loading
    {
      loading := true;
      var s := NewSession(sessionId, started, detectionMethod, selectedRegion, true);
      var existing := Existing(log);
      if existing.None? {
        return false;
      }
      var updated := [s] + existing.value;
      log := Log(updated);
      serviceCalls := serviceCalls + [RegionArg(selectedRegion)];
      if outcome.Detected? {
        detectionResult := Some(outcome.result);
      }
      log := Log(ReplaceById(updated, sessionId, Finished(s, outcome, finished - started)));
      loading := false;
      return true;
    }
  }

  /** A first load with the detection service's own result on a page with no
      log: one completed record, carrying the pipeline's five sites. */
  method FirstLoadLogsPipeline(sessionId: string, started: int, finished: int, now: string)
    returns (p: Page)
    ensures p.log.Log? && |p.log.sessions| == 1
    ensures var rec := p.log.sessions[0];
      && rec.status == "completed" && rec.id == sessionId && rec.methodLabel == "combined"
      && rec.region == None && rec.results.Some? && |rec.results.value.sites| == 5
      && rec.processingTime == Some(ProcessingTime(finished - started))
    ensures p.serviceCalls == [None] && !p.loading
  {
    p := new Page(Missing);
    var r := DetectGalamseySites(None, now);
    MockRun(now);
    assert |Ids(r.sites)| == 5;
    var parsed := p.FetchGalamseyData(sessionId, started, finished, Detected(r), now);
  }
}
