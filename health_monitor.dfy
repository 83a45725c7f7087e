/**
  * `HealthMonitorService`: probing a source's model list, keeping one health
  * record per probe, and the summaries read back from those records. The
  * probe itself (an HTTP request and a stopwatch) is an input: what it came
  * to and the milliseconds measured. The clock is an input too.
  */
module HealthMonitor {
  import opened Options
  import opened Seqs
  import opened PyStr
  import opened Records
  import ApiAggregator

  /** The `status` strings of results and records. */
  datatype Status = Healthy | Unhealthy | Timeout | NotFound

  function StatusName(s: Status): string {
    match s
    case Healthy => "healthy"
    case Unhealthy => "unhealthy"
    case Timeout => "timeout"
    case NotFound => "not_found"
  }

  /**
    * What the probe came to: a response with its status code, a timeout, or
    * another exception with its text; each with the elapsed milliseconds
    * `int((time.time() - start_time) * 1000)`.
    */
  datatype Probe =
    | Answered(statusCode: int, elapsed: nat)
    | TimedOut(elapsed: nat)
    | Crashed(message: string, elapsed: nat)

  /** A row of `health_checks`. */
  datatype HealthRecord = HealthRecord(
    providerId: string,
    status: Status,
    responseTime: Option<nat>,
    errorMessage: Option<string>,
    checkedAt: int)

  /** The dict `check_api_source_health` returns; `checkedAt` is absent for an unknown source. */
  datatype CheckResult = CheckResult(
    sourceId: string,
    status: Status,
    responseTime: Option<nat>,
    error: Option<string>,
    checkedAt: Option<int>)

  /** "API源不存在": no such source. */
  const SourceNotFound: string := "API\U{6e90}\U{4e0d}\U{5b58}\U{5728}"

  /** "请求超时": the request timed out. */
  const RequestTimedOut: string := "\U{8bf7}\U{6c42}\U{8d85}\U{65f6}"

  /** The probe's request: the model-list URL of the source and its bearer token. */
  function ProbeRequest(s: Source): (r: (string, string))
    ensures EndsWith(r.0, "/v1/models")
    ensures r.0 == ApiAggregator.CatalogueUrl(s.baseUrl)
    ensures var u := RStrip(s.baseUrl, {'/'});
      r.0 == (if EndsWith(u, "/v1") then u else u + "/v1") + "/models"
    ensures r.1 == "Bearer " + s.apiKey
  {
    (ApiAggregator.CatalogueUrl(s.baseUrl), "Bearer " + s.apiKey)
  }

  // ---------------------------------------------------------------------------
  // check_api_source_health
  // ---------------------------------------------------------------------------

  /** The status and error message a probe gives. */
  function Classify(p: Probe): (r: (Status, Option<string>))
    ensures r.0 == Healthy <==> p.Answered? && p.statusCode == 200
    ensures r.0 == Timeout <==> p.TimedOut?
    ensures r.0 != NotFound
    ensures r.1.None? <==> r.0 == Healthy
  {
    match p
    case Answered(code, _) => if code == 200 then (Healthy, None) else (Unhealthy, Some("HTTP " + IntToString(code)))
    case TimedOut(_) => (Timeout, Some(RequestTimedOut))
    case Crashed(message, _) => (Unhealthy, Some(message))
  }

  /** The error text of an unhealthy probe: `"HTTP {code}"` for a status, the exception's text otherwise. */
  lemma {:induction false} ClassifyErrors(p: Probe)
    ensures p.Answered? && p.statusCode != 200 ==> Classify(p) == (Unhealthy, Some("HTTP " + IntToString(p.statusCode)))
    ensures p.TimedOut? ==> Classify(p).1 == Some(RequestTimedOut)
    ensures p.Crashed? ==> Classify(p) == (Unhealthy, Some(p.message))
  {
  }

  /**
    * The records after `check_api_source_health` and its result. An unknown
    * source gives `not_found` and stores nothing; otherwise one record is
    * appended whose response time is dropped for a timeout, while the
    * returned dict keeps it.
    */
  function CheckHealth(sources: seq<Source>, checks: seq<HealthRecord>, sourceId: string, probe: Probe, now: int)
    : (seq<HealthRecord>, CheckResult)
  {
    match SourceIndex(sources, sourceId)
    case None => (checks, CheckResult(sourceId, NotFound, None, Some(SourceNotFound), None))
    case Some(_) =>
      var (status, error) := Classify(probe);
      var record := HealthRecord(sourceId, status, if status != Timeout then Some(probe.elapsed) else None, error, now);
      (checks + [record], CheckResult(sourceId, status, Some(probe.elapsed), error, Some(now)))
  }

  /**
    * An unknown source appends nothing and reports `not_found` without a
    * response time; a known one appends exactly one record for that source,
    * with status healthy, unhealthy or timeout, whose response time is
    * missing exactly for a timeout, and reports the same status.
    */
  lemma {:induction false} CheckHealthEffect(sources: seq<Source>, checks: seq<HealthRecord>, sourceId: string, probe: Probe, now: int)
    ensures var (after, result) := CheckHealth(sources, checks, sourceId, probe, now);
      && result.sourceId == sourceId
      && ((forall j :: 0 <= j < |sources| ==> sources[j].id != sourceId) ==>
            after == checks && result.status == NotFound && result.responseTime.None?)
      && ((exists j :: 0 <= j < |sources| && sources[j].id == sourceId) ==>
            && |after| == |checks| + 1 && after[..|checks|] == checks
            && after[|checks|].providerId == sourceId && after[|checks|].checkedAt == now
            && after[|checks|].status in {Healthy, Unhealthy, Timeout}
            && (after[|checks|].responseTime.None? <==> after[|checks|].status == Timeout)
            && result.status == after[|checks|].status && result.error == after[|checks|].errorMessage
            && result.responseTime == Some(probe.elapsed))
  {
    var (after, result) := CheckHealth(sources, checks, sourceId, probe, now);
    if SourceIndex(sources, sourceId).Some? {
      assert after[..|checks|] == checks;
    }
  }

  // ---------------------------------------------------------------------------
  // check_all_sources
  // ---------------------------------------------------------------------------

  datatype Summary = Summary(total: nat, healthy: nat, unhealthy: nat, timeout: nat)

  predicate HealthyResult(r: CheckResult) { r.status == Healthy }
  predicate UnhealthyResult(r: CheckResult) { r.status == Unhealthy }
  predicate TimeoutResult(r: CheckResult) { r.status == Timeout }

  /** The summary of a list of results. */
  function SummaryOf(results: seq<CheckResult>): Summary {
    Summary(|results|, Count(results, HealthyResult), Count(results, UnhealthyResult), Count(results, TimeoutResult))
  }

  /** The three counts never exceed the total, and reach it when no result is `not_found`. */
  lemma {:induction false} SummaryCounts(results: seq<CheckResult>)
    ensures var s := SummaryOf(results);
      && s.healthy + s.unhealthy + s.timeout <= s.total
      && ((forall k :: 0 <= k < |results| ==> results[k].status != NotFound) ==>
            s.healthy + s.unhealthy + s.timeout == s.total)
  {
    if results != [] {
      SummaryCounts(results[..|results| - 1]);
    }
  }

  /** The records after `check_all_sources` and its results: every enabled source, in table order. */
  function CheckAll(sources: seq<Source>, checks: seq<HealthRecord>, probes: seq<Probe>, now: int)
    : (r: (seq<HealthRecord>, seq<CheckResult>))
    requires |probes| == |EnabledSources(sources)|
  {
    CheckEach(sources, checks, EnabledSources(sources), probes, now)
  }

  /** The sources `targets` checked one after the other, each with its probe. */
  function CheckEach(sources: seq<Source>, checks: seq<HealthRecord>, targets: seq<Source>, probes: seq<Probe>, now: int)
    : (r: (seq<HealthRecord>, seq<CheckResult>))
    requires |probes| == |targets|
    ensures |r.1| == |targets|
  {
    if targets == [] then (checks, [])
    else
      var n := |targets| - 1;
      var prev := CheckEach(sources, checks, targets[..n], probes[..n], now);
      var step := CheckHealth(sources, prev.0, targets[n].id, probes[n], now);
      (step.0, prev.1 + [step.1])
  }

  /** Checking the first `k + 1` targets is checking the first `k`, then target `k`. */
  lemma {:induction false} CheckEachPrefix(sources: seq<Source>, checks: seq<HealthRecord>, targets: seq<Source>,
                                           probes: seq<Probe>, k: nat, now: int)
    requires |probes| == |targets| && k < |targets|
    ensures var prev := CheckEach(sources, checks, targets[..k], probes[..k], now);
      var step := CheckHealth(sources, prev.0, targets[k].id, probes[k], now);
      CheckEach(sources, checks, targets[..k + 1], probes[..k + 1], now) == (step.0, prev.1 + [step.1])
  {
    assert targets[..k + 1][..k] == targets[..k];
    assert probes[..k + 1][..k] == probes[..k];
  }

  /** `after` is `checks` plus one record per target, and `results` one result per target, in order. */
  ghost predicate CheckedInOrder(checks: seq<HealthRecord>, targets: seq<Source>,
                                 after: seq<HealthRecord>, results: seq<CheckResult>)
  {
    && |after| == |checks| + |targets| && |results| == |targets| && after[..|checks|] == checks
    && (forall k :: 0 <= k < |targets| ==>
          results[k].sourceId == targets[k].id && results[k].status != NotFound &&
          after[|checks| + k].providerId == targets[k].id && after[|checks| + k].status == results[k].status)
  }

  lemma {:induction false} CheckedInOrderSnoc(checks: seq<HealthRecord>, targets: seq<Source>,
                                              before: seq<HealthRecord>, results: seq<CheckResult>,
                                              after: seq<HealthRecord>, r: CheckResult)
    requires targets != [] && CheckedInOrder(checks, targets[..|targets| - 1], before, results)
    requires |after| == |before| + 1 && after[..|before|] == before
    requires var t := targets[|targets| - 1];
      after[|before|].providerId == t.id && r.sourceId == t.id && r.status != NotFound && after[|before|].status == r.status
    ensures CheckedInOrder(checks, targets, after, results + [r])
  {
    var init, rs := targets[..|targets| - 1], results + [r];
    assert forall k :: 0 <= k < |before| ==> after[k] == before[k];
    assert after[..|checks|] == before[..|checks|];
    forall k | 0 <= k < |targets|
      ensures rs[k].sourceId == targets[k].id && rs[k].status != NotFound &&
              after[|checks| + k].providerId == targets[k].id && after[|checks| + k].status == rs[k].status
    {
      if k < |init| {
        assert init[k] == targets[k] && rs[k] == results[k] && after[|checks| + k] == before[|checks| + k];
      }
    }
  }

  /**
    * Checking sources of the table gives one result and one new record per
    * source, none of them `not_found`, in the sources' order.
    */
  lemma {:induction false} CheckEachEffect(sources: seq<Source>, checks: seq<HealthRecord>, targets: seq<Source>,
                                           probes: seq<Probe>, now: int)
    requires |probes| == |targets| && forall k :: 0 <= k < |targets| ==> targets[k] in sources
    ensures var (after, results) := CheckEach(sources, checks, targets, probes, now);
      && |after| == |checks| + |targets| && after[..|checks|] == checks
      && (forall k :: 0 <= k < |targets| ==>
            results[k].sourceId == targets[k].id && results[k].status != NotFound &&
            after[|checks| + k].providerId == targets[k].id && after[|checks| + k].status == results[k].status)
  {
    var r := CheckEach(sources, checks, targets, probes, now);
    if targets == [] {
      assert CheckedInOrder(checks, targets, r.0, r.1);
    } else {
      var n := |targets| - 1;
      var init := targets[..n];
      assert forall k :: 0 <= k < n ==> init[k] in sources;
      CheckEachEffect(sources, checks, init, probes[..n], now);
      var prev := CheckEach(sources, checks, init, probes[..n], now);
      var step := CheckHealth(sources, prev.0, targets[n].id, probes[n], now);
      assert r == (step.0, prev.1 + [step.1]);
      var j :| 0 <= j < |sources| && sources[j] == targets[n];
      assert sources[j].id == targets[n].id;
      CheckHealthEffect(sources, prev.0, targets[n].id, probes[n], now);
      assert CheckedInOrder(checks, init, prev.0, prev.1);
      assert |step.0| == |prev.0| + 1 && step.0[..|prev.0|] == prev.0;
      assert step.0[|prev.0|].providerId == targets[n].id && step.1.sourceId == targets[n].id;
      assert step.1.status != NotFound && step.0[|prev.0|].status == step.1.status;
      CheckedInOrderSnoc(checks, targets, prev.0, prev.1, step.0, step.1);
    }
    assert CheckedInOrder(checks, targets, r.0, r.1);
  }

  /**
    * `check_all_sources`: no enabled source gives no results and an all-zero
    * summary; otherwise one result per enabled source, `total` counts them,
    * and healthy, unhealthy and timeout add up to it.
    */
  lemma {:induction false} CheckAllSummary(sources: seq<Source>, checks: seq<HealthRecord>, probes: seq<Probe>, now: int)
    requires |probes| == |EnabledSources(sources)|
    ensures var (after, results) := CheckAll(sources, checks, probes, now);
      var s := SummaryOf(results);
      && (EnabledSources(sources) == [] ==> results == [] && after == checks && s == Summary(0, 0, 0, 0))
      && s.total == |results| == |EnabledSources(sources)|
      && |after| == |checks| + |results|
      && s.healthy + s.unhealthy + s.timeout == s.total
  {
    var targets := EnabledSources(sources);
    CheckEachEffect(sources, checks, targets, probes, now);
    SummaryCounts(CheckAll(sources, checks, probes, now).1);
  }

  // ---------------------------------------------------------------------------
  // get_health_statistics
  // ---------------------------------------------------------------------------

  /** The latest `checked_at` among a provider's records, if it has any. */
  function MaxCheckedAt(checks: seq<HealthRecord>, providerId: string): (r: Option<int>)
    ensures r.None? <==> forall k :: 0 <= k < |checks| ==> checks[k].providerId != providerId
    ensures r.Some? ==> exists k :: 0 <= k < |checks| && checks[k].providerId == providerId && checks[k].checkedAt == r.value
    ensures r.Some? ==> forall k :: 0 <= k < |checks| && checks[k].providerId == providerId ==> checks[k].checkedAt <= r.value
  {
    if checks == [] then None
    else
      var n := |checks| - 1;
      var init := MaxCheckedAt(checks[..n], providerId);
      var last := checks[n];
      if last.providerId != providerId then init
      else if init.None? || init.value < last.checkedAt then Some(last.checkedAt)
      else init
  }

  /** A record is a latest check when its time is its provider's latest time. */
  predicate IsLatest(checks: seq<HealthRecord>, r: HealthRecord) {
    MaxCheckedAt(checks, r.providerId) == Some(r.checkedAt)
  }

  /** The records of `part` that are latest checks among `checks`, in table order. */
  function LatestIn(checks: seq<HealthRecord>, part: seq<HealthRecord>): (r: seq<HealthRecord>)
    ensures forall k :: 0 <= k < |r| ==> r[k] in part && IsLatest(checks, r[k])
    ensures forall x :: x in part && IsLatest(checks, x) ==> x in r
    ensures |r| <= |part|
  {
    if part == [] then []
    else
      var n := |part| - 1;
      var init := LatestIn(checks, part[..n]);
      assert forall x :: x in part ==> x in part[..n] || x == part[n];
      if IsLatest(checks, part[n]) then init + [part[n]] else init
  }

  /** The join of `health_checks` with each provider's latest time. */
  function LatestChecks(checks: seq<HealthRecord>): seq<HealthRecord> {
    LatestIn(checks, checks)
  }

  /** Every provider with a record has a latest check, and that check is no older than any of its records. */
  lemma {:induction false} LatestCovers(checks: seq<HealthRecord>, k: nat)
    requires k < |checks|
    ensures exists r :: r in LatestChecks(checks) && r.providerId == checks[k].providerId && r.checkedAt >= checks[k].checkedAt
  {
    var p := checks[k].providerId;
    var m := MaxCheckedAt(checks, p);
    var j :| 0 <= j < |checks| && checks[j].providerId == p && checks[j].checkedAt == m.value;
    assert IsLatest(checks, checks[j]);
  }

  predicate IsOnline(r: HealthRecord) { r.status == Healthy }
  /** `status in ["unhealthy", "timeout"]`. */
  predicate IsOffline(r: HealthRecord) { r.status == Unhealthy || r.status == Timeout }

  /** An entry of `failed_sources`. */
  datatype FailedSource = FailedSource(providerId: string, status: Status, error: Option<string>, checkedAt: int)

  /** The offline records of a list, as `failed_sources` entries, in order. */
  function FailedOf(latest: seq<HealthRecord>): seq<FailedSource> {
    if latest == [] then []
    else
      var n := |latest| - 1;
      var r := latest[n];
      FailedOf(latest[..n]) + (if IsOffline(r) then [FailedSource(r.providerId, r.status, r.errorMessage, r.checkedAt)] else [])
  }

  /** The response times present in a list of records, in order. */
  function ResponseTimes(latest: seq<HealthRecord>): (r: seq<nat>)
    ensures |r| <= |latest|
    ensures |r| == Count(latest, HasResponseTime)
  {
    if latest == [] then []
    else
      var n := |latest| - 1;
      ResponseTimes(latest[..n]) + (if latest[n].responseTime.Some? then [latest[n].responseTime.value] else [])
  }

  predicate HasResponseTime(r: HealthRecord) { r.responseTime.Some? }

  function Sum(xs: seq<nat>): nat {
    if xs == [] then 0 else Sum(xs[..|xs| - 1]) + xs[|xs| - 1]
  }

  /** `int(sum(xs) / len(xs)) if xs else 0`; the times are non-negative, so truncation is the floor. */
  function Average(xs: seq<nat>): nat {
    if xs == [] then 0 else Sum(xs) / |xs|
  }

  /** The latest time over a list of records. */
  function LastTime(latest: seq<HealthRecord>): (r: Option<int>)
    ensures r.None? <==> latest == []
    ensures r.Some? ==> (exists k :: 0 <= k < |latest| && latest[k].checkedAt == r.value)
    ensures r.Some? ==> forall k :: 0 <= k < |latest| ==> latest[k].checkedAt <= r.value
  {
    if latest == [] then None
    else
      var n := |latest| - 1;
      var init := LastTime(latest[..n]);
      if init.None? || init.value < latest[n].checkedAt then Some(latest[n].checkedAt) else init
  }

  datatype HealthStatistics = HealthStatistics(
    totalSources: nat,
    enabledSources: nat,
    onlineSources: nat,
    offlineSources: nat,
    avgResponseTime: nat,
    lastCheckTime: Option<int>,
    failedSources: seq<FailedSource>)

  /** What `get_health_statistics` reports. */
  function HealthStatisticsOf(sources: seq<Source>, checks: seq<HealthRecord>): HealthStatistics {
    var latest := LatestChecks(checks);
    HealthStatistics(
      |sources|,
      Count(sources, (s: Source) => s.enabled),
      Count(latest, IsOnline),
      Count(latest, IsOffline),
      Average(ResponseTimes(latest)),
      LastTime(latest),
      FailedOf(latest))
  }

  /** The failure list lists exactly the offline records, so its length is the offline count. */
  lemma {:induction false} FailedAreOffline(latest: seq<HealthRecord>)
    ensures |FailedOf(latest)| == Count(latest, IsOffline)
    ensures forall f :: f in FailedOf(latest) <==>
      exists r :: r in latest && IsOffline(r) && f == FailedSource(r.providerId, r.status, r.errorMessage, r.checkedAt)
  {
    if latest != [] {
      var n := |latest| - 1;
      FailedAreOffline(latest[..n]);
      assert forall x :: x in latest <==> x in latest[..n] || x == latest[n];
    }
  }

  /** Online plus offline never exceed the latest checks. */
  lemma {:induction false} OnlineOfflineBound(latest: seq<HealthRecord>)
    ensures Count(latest, IsOnline) + Count(latest, IsOffline) <= |latest|
  {
    if latest != [] {
      OnlineOfflineBound(latest[..|latest| - 1]);
    }
  }

  /** The average is the floor of the mean: `avg * n <= sum < (avg + 1) * n`. */
  lemma {:induction false} AverageIsFloorMean(xs: seq<nat>)
    ensures xs == [] ==> Average(xs) == 0
    ensures xs != [] ==> Average(xs) * |xs| <= Sum(xs) < (Average(xs) + 1) * |xs|
  {
  }

  /**
    * `get_health_statistics`: online and offline count the latest checks by
    * status and together stay within them; `failed_sources` has one entry
    * per offline latest check; the average response time is the sum of the
    * latest checks' response times divided (rounding down) by how many have
    * one, or 0 when none has.
    */
  lemma {:induction false} HealthStatisticsFacts(sources: seq<Source>, checks: seq<HealthRecord>)
    ensures var st, latest := HealthStatisticsOf(sources, checks), LatestChecks(checks);
      && st.onlineSources + st.offlineSources <= |latest|
      && |st.failedSources| == st.offlineSources
      && (ResponseTimes(latest) == [] ==> st.avgResponseTime == 0)
      && (ResponseTimes(latest) != [] ==>
            st.avgResponseTime == Sum(ResponseTimes(latest)) / |ResponseTimes(latest)|)
  {
    var latest := LatestChecks(checks);
    var st := HealthStatisticsOf(sources, checks);
    var xs := ResponseTimes(latest);
    assert st.onlineSources == Count(latest, IsOnline) && st.offlineSources == Count(latest, IsOffline);
    assert st.failedSources == FailedOf(latest) && st.avgResponseTime == Average(xs);
    OnlineOfflineBound(latest);
    FailedAreOffline(latest);
  }

  /** The last check time is the time of the newest record overall, and absent when there are none. */
  lemma {:induction false} LastCheckIsNewest(sources: seq<Source>, checks: seq<HealthRecord>)
    ensures var last := HealthStatisticsOf(sources, checks).lastCheckTime;
      && (checks == [] <==> last.None?)
      && (checks != [] ==>
            && (exists k :: 0 <= k < |checks| && checks[k].checkedAt == last.value)
            && forall k :: 0 <= k < |checks| ==> checks[k].checkedAt <= last.value)
  {
    var latest := LatestChecks(checks);
    assert HealthStatisticsOf(sources, checks).lastCheckTime == LastTime(latest);
    if checks != [] {
      LatestCovers(checks, 0);
      var t := LastTime(latest).value;
      forall k | 0 <= k < |checks| ensures checks[k].checkedAt <= t {
        LatestCovers(checks, k);
      }
      var j :| 0 <= j < |latest| && latest[j].checkedAt == t;
      assert latest[j] in checks;
    }
  }

  // ---------------------------------------------------------------------------
  // get_provider_health_history
  // ---------------------------------------------------------------------------

  /** One provider's records, in table order. */
  function ProviderChecks(checks: seq<HealthRecord>, providerId: string): (r: seq<HealthRecord>)
    ensures forall k :: 0 <= k < |r| ==> r[k].providerId == providerId
    ensures multiset(r) <= multiset(checks)
    ensures forall x :: x in checks && x.providerId == providerId ==> x in r
  {
    if checks == [] then []
    else
      var n := |checks| - 1;
      assert checks == checks[..n] + [checks[n]];
      var init := ProviderChecks(checks[..n], providerId);
      assert forall x :: x in checks ==> x in checks[..n] || x == checks[n];
      if checks[n].providerId == providerId then init + [checks[n]] else init
  }

  /** Newest first: `checked_at` never increases along the list. */
  predicate NewestFirst(s: seq<HealthRecord>) {
    forall i, j :: 0 <= i < j < |s| ==> s[i].checkedAt >= s[j].checkedAt
  }

  /** Puts `x` into a list after the leading records that are at least as new. */
  function InsertByTime(x: HealthRecord, s: seq<HealthRecord>): (r: seq<HealthRecord>)
    ensures |r| == |s| + 1
  {
    if s == [] then [x]
    else if s[0].checkedAt >= x.checkedAt then [s[0]] + InsertByTime(x, s[1..])
    else [x] + s
  }

  /** Inserting adds `x` and loses nothing. */
  lemma {:induction false} InsertKeeps(x: HealthRecord, s: seq<HealthRecord>)
    ensures multiset(InsertByTime(x, s)) == multiset(s) + multiset{x}
  {
    if s != [] && s[0].checkedAt >= x.checkedAt {
      InsertKeeps(x, s[1..]);
      assert s == [s[0]] + s[1..];
    }
  }

  /** A bound on the times of `x` and of `s` bounds every time after the insertion. */
  lemma {:induction false} InsertBelow(x: HealthRecord, s: seq<HealthRecord>, b: int)
    requires x.checkedAt <= b && forall k :: 0 <= k < |s| ==> s[k].checkedAt <= b
    ensures forall k :: 0 <= k < |s| + 1 ==> InsertByTime(x, s)[k].checkedAt <= b
  {
    if s != [] && s[0].checkedAt >= x.checkedAt {
      var t := s[1..];
      assert forall k :: 0 <= k < |t| ==> t[k] == s[k + 1];
      InsertBelow(x, t, b);
    }
  }

  /** The tail of a newest-first list is newest first and no newer than its head. */
  lemma {:induction false} NewestFirstTail(s: seq<HealthRecord>)
    requires NewestFirst(s) && s != []
    ensures NewestFirst(s[1..])
    ensures forall k :: 0 <= k < |s| - 1 ==> s[1..][k].checkedAt <= s[0].checkedAt
  {
    var t := s[1..];
    forall i, j | 0 <= i < j < |t| ensures t[i].checkedAt >= t[j].checkedAt {
      assert t[i] == s[i + 1] && t[j] == s[j + 1];
    }
    forall k | 0 <= k < |t| ensures t[k].checkedAt <= s[0].checkedAt {
      assert t[k] == s[k + 1];
    }
  }

  /** Inserting into a newest-first list keeps it newest first. */
  lemma {:induction false} InsertSorted(x: HealthRecord, s: seq<HealthRecord>)
    requires NewestFirst(s)
    ensures NewestFirst(InsertByTime(x, s))
  {
    if s != [] {
      var t := s[1..];
      if s[0].checkedAt >= x.checkedAt {
        NewestFirstTail(s);
        InsertSorted(x, t);
        InsertBelow(x, t, s[0].checkedAt);
        var rest := InsertByTime(x, t);
        var r := [s[0]] + rest;
        forall i, j | 0 <= i < j < |r| ensures r[i].checkedAt >= r[j].checkedAt {
          assert r[j] == rest[j - 1];
          if i > 0 {
            assert r[i] == rest[i - 1];
          }
        }
      } else {
        var r := [x] + s;
        forall i, j | 0 <= i < j < |r| ensures r[i].checkedAt >= r[j].checkedAt {
          assert r[j] == s[j - 1];
          if i > 0 {
            assert r[i] == s[i - 1];
          } else if j > 1 {
            assert s[0].checkedAt >= s[j - 1].checkedAt;
          }
        }
      }
    }
  }

  /** `order_by(desc(checked_at))`, keeping table order among equal times. */
  function ByTimeDesc(s: seq<HealthRecord>): (r: seq<HealthRecord>)
    ensures NewestFirst(r)
    ensures multiset(r) == multiset(s)
  {
    if s == [] then []
    else
      var n := |s| - 1;
      var prev := ByTimeDesc(s[..n]);
      assert s == s[..n] + [s[n]];
      InsertKeeps(s[n], prev);
      InsertSorted(s[n], prev);
      InsertByTime(s[n], prev)
  }

  /** `get_provider_health_history`: the provider's records, newest first, at most `limit`. */
  function History(checks: seq<HealthRecord>, providerId: string, limit: nat): seq<HealthRecord> {
    var sorted := ByTimeDesc(ProviderChecks(checks, providerId));
    if |sorted| <= limit then sorted else sorted[..limit]
  }

  /** A prefix of a newest-first list is newest first and holds every element newer than its oldest. */
  lemma {:induction false} NewestPrefix(sorted: seq<HealthRecord>, n: nat)
    requires NewestFirst(sorted) && 0 < n <= |sorted|
    ensures multiset(sorted[..n]) <= multiset(sorted)
    ensures forall y :: y in sorted && y.checkedAt > sorted[n - 1].checkedAt ==> y in sorted[..n]
  {
    assert sorted == sorted[..n] + sorted[n..];
    assert multiset(sorted) == multiset(sorted[..n]) + multiset(sorted[n..]);
    forall y | y in sorted && y.checkedAt > sorted[n - 1].checkedAt ensures y in sorted[..n] {
      var k :| 0 <= k < |sorted| && sorted[k] == y;
      if k >= n {
        assert sorted[n - 1].checkedAt >= sorted[k].checkedAt;
      }
    }
  }

  /**
    * Cutting a newest-first ordering of one provider's records `mine` to
    * `limit` records keeps only that provider's records, newest first, as
    * many as there are up to `limit`, and drops no record newer than the
    * oldest one kept.
    */
  lemma {:induction false} TruncateNewest(mine: seq<HealthRecord>, sorted: seq<HealthRecord>, limit: nat, providerId: string)
    requires NewestFirst(sorted) && multiset(sorted) == multiset(mine)
    requires forall k :: 0 <= k < |mine| ==> mine[k].providerId == providerId
    ensures var h := if |sorted| <= limit then sorted else sorted[..limit];
      && (forall k :: 0 <= k < |h| ==> h[k].providerId == providerId)
      && multiset(h) <= multiset(mine)
      && NewestFirst(h)
      && |h| == (if |mine| <= limit then |mine| else limit)
      && (forall y :: y in mine && h != [] && y.checkedAt > h[|h| - 1].checkedAt ==> y in h)
  {
    var h := if |sorted| <= limit then sorted else sorted[..limit];
    assert |sorted| == |mine| by {
      assert |multiset(sorted)| == |multiset(mine)|;
    }
    assert h == sorted[..|h|];
    if h != [] {
      NewestPrefix(sorted, |h|);
      forall y | y in mine ensures y in sorted {
        assert y in multiset(mine);
      }
      forall k | 0 <= k < |h| ensures h[k].providerId == providerId {
        assert h[k] in multiset(h);
        assert h[k] in multiset(mine);
        var j :| 0 <= j < |mine| && mine[j] == h[k];
      }
    }
  }

  /**
    * The history holds only the provider's records, newest first, as many
    * as it has up to `limit`; and any record of the provider newer than the
    * oldest one returned is among those returned.
    */
  lemma {:induction false} HistoryFacts(checks: seq<HealthRecord>, providerId: string, limit: nat)
    ensures var h, mine := History(checks, providerId, limit), ProviderChecks(checks, providerId);
      && (forall k :: 0 <= k < |h| ==> h[k].providerId == providerId)
      && multiset(h) <= multiset(mine)
      && NewestFirst(h)
      && |h| == (if |mine| <= limit then |mine| else limit)
      && (forall y :: y in checks && y.providerId == providerId && h != [] && y.checkedAt > h[|h| - 1].checkedAt ==> y in h)
  {
    var mine := ProviderChecks(checks, providerId);
    var sorted := ByTimeDesc(mine);
    var h := History(checks, providerId, limit);
    assert h == if |sorted| <= limit then sorted else sorted[..limit];
    TruncateNewest(mine, sorted, limit, providerId);
    assert forall y :: y in checks && y.providerId == providerId ==> y in mine;
  }

  /** One element of the returned history. */
  datatype HistoryEntry = HistoryEntry(status: Status, responseTime: Option<nat>, error: Option<string>, checkedAt: int)

  function EntryOf(r: HealthRecord): HistoryEntry {
    HistoryEntry(r.status, r.responseTime, r.errorMessage, r.checkedAt)
  }

  // ---------------------------------------------------------------------------
  // The service over its tables
  // ---------------------------------------------------------------------------

  /** The service: its settings, the sources it reads and the health records it appends to. */
  class Monitor {
    const timeout: int
    const maxConcurrent: int
    var sources: seq<Source>
    var checks: seq<HealthRecord>

    /** The service as constructed without settings: a 30-second timeout, at most 10 probes at a time. */
    constructor(sources: seq<Source>, checks: seq<HealthRecord>)
      ensures timeout == 30 && maxConcurrent == 10
      ensures this.sources == sources && this.checks == checks
    {
      timeout := 30;
      maxConcurrent := 10;
      this.sources := sources;
      this.checks := checks;
    }

    /** `check_api_source_health`, given what probing the source's model list came to. */
    method CheckApiSourceHealth(sourceId: string, probe: Probe, now: int) returns (result: CheckResult)
      modifies this
      ensures (checks, result) == CheckHealth(old(sources), old(checks), sourceId, probe, now)
      ensures sources == old(sources)
    {
      var found := SourceIndex(sources, sourceId);
      if found.None? {
        return CheckResult(sourceId, NotFound, None, Some(SourceNotFound), None);
      }
      var responseTime := probe.elapsed;
      var status, error;
      match probe {
        case Answered(code, _) =>
          if code == 200 {
            status, error := Healthy, None;
          } else {
            status, error := Unhealthy, Some("HTTP " + IntToString(code));
          }
        case TimedOut(_) =>
          status, error := Timeout, Some(RequestTimedOut);
        case Crashed(message, _) =>
          status, error := Unhealthy, Some(message);
      }
      var record := HealthRecord(sourceId, status, if status != Timeout then Some(responseTime) else None, error, now);
      checks := checks + [record];
      result := CheckResult(sourceId, status, Some(responseTime), error, Some(now));
    }

    /** `check_all_sources`, one probe outcome per enabled source, in table order. */
    method CheckAllSources(probes: seq<Probe>, now: int) returns (results: seq<CheckResult>, summary: Summary)
      requires |probes| == |EnabledSources(sources)|
      modifies this
      ensures (checks, results) == CheckAll(old(sources), old(checks), probes, now)
      ensures summary == SummaryOf(results)
      ensures sources == old(sources)
    {
      var targets := EnabledSources(sources);
      if targets == [] {
        return [], Summary(0, 0, 0, 0);
      }
      results := [];
      var k := 0;
      while k < |targets|
        invariant 0 <= k <= |targets| && sources == old(sources)
        invariant (checks, results) == CheckEach(sources, old(checks), targets[..k], probes[..k], now)
      {
        CheckEachPrefix(sources, old(checks), targets, probes, k, now);
        ghost var before := (checks, results);
        var result := CheckApiSourceHealth(targets[k].id, probes[k], now);
        assert (checks, result) == CheckHealth(sources, before.0, targets[k].id, probes[k], now);
        results := results + [result];
        k := k + 1;
      }
      assert targets[..k] == targets && probes[..k] == probes;
      summary := Summary(|results|, Count(results, HealthyResult), Count(results, UnhealthyResult),
                         Count(results, TimeoutResult));
    }

    /** `get_health_statistics`. */
    method GetHealthStatistics() returns (statistics: HealthStatistics)
      ensures statistics == HealthStatisticsOf(sources, checks)
    {
      statistics := HealthStatisticsOf(sources, checks);
    }

    /** `get_provider_health_history`. */
    method GetProviderHealthHistory(providerId: string, limit: nat) returns (history: seq<HistoryEntry>)
      ensures |history| == |History(checks, providerId, limit)|
      ensures forall k :: 0 <= k < |history| ==> history[k] == EntryOf(History(checks, providerId, limit)[k])
    {
      var found := History(checks, providerId, limit);
      history := seq(|found|, k requires 0 <= k < |found| => EntryOf(found[k]));
    }
  }
}
