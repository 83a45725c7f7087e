/**
  * `APIAggregatorService`: fetching the model catalogue of one upstream
  * endpoint with retries and exponential back-off, fetching many of them into
  * one result table with a summary, and the service's own copy of the
  * model-name canonicaliser.
  *
  * The network is a parameter: `respond(k)` is what the `k`-th request of a
  * fetch (counting from `retry_count == 0`) comes back with. Sleeping is
  * recorded as the list of back-off delays, in seconds, in the order slept.
  */
module ApiAggregator {
  import opened PyStr
  import opened Options
  import opened Json
  import opened Normalization

  // ---------------------------------------------------------------------------
  // The service's own canonicaliser
  // ---------------------------------------------------------------------------

  /** `APIAggregatorService.normalize_model_name`: the date and year rules without `IGNORECASE`. */
  function AggregatorNormalize(name: string): string {
    if name == "" then ""
    else
      var s := DropNamespace(Strip(name, Whitespace));
      var s1 := ApplyRule(DateCompact, s, false);
      var s2 := ApplyRule(DateIso, s1, false);
      var s3 := ApplyRule(PreviewSuffix, s2, true);
      var s4 := ApplyRule(LatestSuffix, s3, true);
      var s5 := ApplyRule(YearSuffix, s4, false);
      Tidy(s5)
  }

  /** A pattern made of digits and non-letters matches the same text with or without `IGNORECASE`. */
  predicate CaseFree(p: seq<Atom>) {
    forall k :: 0 <= k < |p| ==> p[k] == Digit || (p[k].Lit? && !IsUpper(p[k].c) && !('a' <= p[k].c <= 'z'))
  }

  lemma {:induction false} CaseFreeRule(r: Rule, s: string)
    requires CaseFree(r.pattern)
    ensures ApplyRule(r, s, true) == ApplyRule(r, s, false)
  {
    forall k | 0 <= k < |r.pattern| && |r.pattern| <= |s|
      ensures AtomMatches(r.pattern[k], s[|s| - |r.pattern| + k], true)
          <==> AtomMatches(r.pattern[k], s[|s| - |r.pattern| + k], false)
    {
      var ch := s[|s| - |r.pattern| + k];
      if r.pattern[k].Lit? {
        var c := r.pattern[k].c;
        assert LowerChar(c) == c;
        assert LowerChar(ch) == c ==> ch == c;
      }
    }
    assert SuffixMatches(s, r.pattern, true) <==> SuffixMatches(s, r.pattern, false);
  }

  /** The three digit rules the copy applies case-sensitively contain no letters. */
  lemma {:induction false} DigitRulesCaseFree()
    ensures CaseFree(DateCompact.pattern) && CaseFree(DateIso.pattern) && CaseFree(YearSuffix.pattern)
  {
    forall k | 0 <= k < |DateIso.pattern| ensures DateIso.pattern[k] == Digit || DateIso.pattern[k] == Lit('-') {
    }
  }

  /** Five rules in a row, one after the other. */
  lemma {:induction false} ApplyFiveRules(r0: Rule, r1: Rule, r2: Rule, r3: Rule, r4: Rule, s: string, ic: bool)
    ensures ApplyRules([r0, r1, r2, r3, r4], s, ic)
         == ApplyRule(r4, ApplyRule(r3, ApplyRule(r2, ApplyRule(r1, ApplyRule(r0, s, ic), ic), ic), ic), ic)
  {
    var s1 := ApplyRule(r0, s, ic);
    var s2 := ApplyRule(r1, s1, ic);
    var s3 := ApplyRule(r2, s2, ic);
    var s4 := ApplyRule(r3, s3, ic);
    assert [r0, r1, r2, r3, r4][1..] == [r1, r2, r3, r4];
    assert [r1, r2, r3, r4][1..] == [r2, r3, r4];
    assert [r2, r3, r4][1..] == [r3, r4];
    assert [r3, r4][1..] == [r4];
    assert [r4][1..] == [];
    calc {
      ApplyRules([r0, r1, r2, r3, r4], s, ic);
      ApplyRules([r1, r2, r3, r4], s1, ic);
      ApplyRules([r2, r3, r4], s2, ic);
      ApplyRules([r3, r4], s3, ic);
      ApplyRules([r4], s4, ic);
      ApplyRules([], ApplyRule(r4, s4, ic), ic);
    }
  }

  /**
    * The copy agrees with the module-level `normalize_model_name` on every input:
    * the rules it applies case-sensitively contain no letters.
    */
  lemma {:induction false} AggregatorNormalizeAgrees(name: string)
    ensures AggregatorNormalize(name) == NormalizeModelName(name)
  {
    if name != "" {
      var s := DropNamespace(Strip(name, Whitespace));
      DigitRulesCaseFree();
      var s1 := ApplyRule(DateCompact, s, false);
      CaseFreeRule(DateCompact, s);
      var s2 := ApplyRule(DateIso, s1, false);
      CaseFreeRule(DateIso, s1);
      var s3 := ApplyRule(PreviewSuffix, s2, true);
      var s4 := ApplyRule(LatestSuffix, s3, true);
      CaseFreeRule(YearSuffix, s4);
      ApplyFiveRules(DateCompact, DateIso, PreviewSuffix, LatestSuffix, YearSuffix, s, true);
      assert NewNormalizer(None).rules == [DateCompact, DateIso, PreviewSuffix, LatestSuffix, YearSuffix];
    }
  }

  // ---------------------------------------------------------------------------
  // fetch_models
  // ---------------------------------------------------------------------------

  /** `max_retries` and `backoff_factor` of the service. */
  datatype RetryPolicy = RetryPolicy(maxRetries: nat, backoffFactor: nat)

  const DefaultPolicy: RetryPolicy := RetryPolicy(3, 2)

  /** The body of an HTTP response: JSON, or text `response.json()` rejects with the given message. */
  datatype Body = Parsed(value: Json) | Unparseable(reason: string)

  /** What one request comes back with. */
  datatype Attempt =
    | Reply(status: int, body: Body)
    | TimedOut                     // httpx.TimeoutException
    | Raised(reason: string)       // any other exception of the client, with its text

  /** Why a fetch failed; `Message` gives the text the service returns. */
  datatype FetchError =
    | RateLimitExhausted
    | RequestTimeout
    | HttpError(status: int)
    | Unknown(reason: string)

  /** The `(success, models, error)` triple: `models` on success, the error otherwise. */
  datatype FetchOutcome = Fetched(models: Json) | Failed(error: FetchError)

  /** A fetch: its outcome, the back-off delays slept, and the number of requests sent. */
  datatype FetchRun = FetchRun(outcome: FetchOutcome, waits: seq<nat>, requests: nat)

  function Message(e: FetchError): string {
    match e
    case RateLimitExhausted =>
      "\U{8d85}\U{8fc7}\U{6700}\U{5927}\U{91cd}\U{8bd5}\U{6b21}\U{6570}\U{ff08}\U{901f}\U{7387}\U{9650}\U{5236}\U{ff09}"
    case RequestTimeout => "\U{8bf7}\U{6c42}\U{8d85}\U{65f6}"
    case HttpError(status) => "HTTP\U{9519}\U{8bef}: " + IntToString(status)
    case Unknown(reason) => "\U{672a}\U{77e5}\U{9519}\U{8bef}: " + reason
  }

  function Pow(b: nat, e: nat): nat {
    if e == 0 then 1 else b * Pow(b, e - 1)
  }

  /** The request URL: the base URL with `/v1` ensured, then `/models`. */
  function CatalogueUrl(baseUrl: string): (url: string)
    ensures EndsWith(url, "/v1/models")
    ensures var u := RStrip(baseUrl, {'/'});
      url == (if EndsWith(u, "/v1") then u else u + "/v1") + "/models"
  {
    var u := EnsureV1(baseUrl);
    assert u[|u| - 3..] == "/v1";
    assert (u + "/models")[|u| + 7 - 10..] == u[|u| - 3..] + "/models";
    u + "/models"
  }

  /**
    * The model list inside a decoded body: `body["data"]`, else `body["models"]`,
    * else (also for `{"object": "list"}` without `"data"`) an empty list; a bare
    * list is the model list itself, and any other value gives an empty list.
    */
  function ModelsFromBody(data: Json): (models: Json)
    ensures data.JArr? ==> models == data
    ensures data.JObj? && HasKey(data.fields, "data") ==> Lookup(data.fields, "data") == Some(models)
    ensures data.JObj? && !HasKey(data.fields, "data") && HasKey(data.fields, "models")
         ==> Lookup(data.fields, "models") == Some(models)
    ensures !data.JArr? && !(data.JObj? && (HasKey(data.fields, "data") || HasKey(data.fields, "models")))
         ==> models == JArr([])
  {
    match data
    case JObj(m) =>
      if HasKey(m, "data") then Lookup(m, "data").value
      else if HasKey(m, "models") then Lookup(m, "models").value
      else if HasKey(m, "object") && Get(m, "object", JNull) == JStr("list") then Get(m, "data", JArr([]))
      else JArr([])
    case JArr(_) => data
    case _ => JArr([])
  }

  predicate IsSuccess(status: int) { 200 <= status < 300 }

  /** Does the service sleep and try again after this reply, budget permitting? */
  predicate Retryable(a: Attempt) {
    match a
    case TimedOut => true
    case Raised(_) => false
    case Reply(status, _) => status == 429 || (!IsSuccess(status) && 500 <= status < 600)
  }

  /** The outcome of a request the service does not retry. */
  function Settle(a: Attempt): (o: FetchOutcome)
    ensures o.Fetched? <==> a.Reply? && IsSuccess(a.status) && a.body.Parsed? && HasLen(ModelsFromBody(a.body.value))
    ensures o == Failed(RateLimitExhausted) <==> a.Reply? && a.status == 429
    ensures o == Failed(RequestTimeout) <==> a.TimedOut?
    ensures a.Reply? && a.status != 429 && !IsSuccess(a.status) ==> o == Failed(HttpError(a.status))
    ensures o.Fetched? ==> o.models == ModelsFromBody(a.body.value)
    ensures a.Raised? ==> o == Failed(Unknown(a.reason))
    ensures a.Reply? && IsSuccess(a.status) && a.body.Unparseable? ==> o == Failed(Unknown(a.body.reason))
    ensures a.Reply? && IsSuccess(a.status) && a.body.Parsed? && !HasLen(ModelsFromBody(a.body.value))
         ==> o == Failed(Unknown("object of type '" + TypeName(ModelsFromBody(a.body.value)) + "' has no len()"))
  {
    match a
    case TimedOut => Failed(RequestTimeout)
    case Raised(reason) => Failed(Unknown(reason))
    case Reply(status, body) =>
      if status == 429 then Failed(RateLimitExhausted)
      else if !IsSuccess(status) then Failed(HttpError(status))
      else match body
        case Unparseable(reason) => Failed(Unknown(reason))
        case Parsed(data) =>
          var models := ModelsFromBody(data);
          // the success log line takes len(models), which raises for other values
          if HasLen(models) then Fetched(models)
          else Failed(Unknown("object of type '" + TypeName(models) + "' has no len()"))
  }

  /** The requests a fetch starting at `retryCount` may still retry. */
  function Budget(p: RetryPolicy, retryCount: nat): nat {
    if retryCount < p.maxRetries then p.maxRetries - retryCount else 0
  }

  /**
    * A run that starts at `retryCount`: one request more than waits, at most
    * the budget of waits, the `k`-th wait `backoff_factor ** (retry_count + k)`,
    * every request before the last retryable, the last one not retryable
    * unless the budget ran out, and the outcome settled by the last reply.
    */
  predicate RunFits(p: RetryPolicy, respond: nat -> Attempt, retryCount: nat, r: FetchRun) {
    && r.requests == |r.waits| + 1 && |r.waits| <= Budget(p, retryCount)
    && (forall k :: 0 <= k < |r.waits| ==> r.waits[k] == Pow(p.backoffFactor, retryCount + k))
    && (forall k :: retryCount <= k < retryCount + |r.waits| ==> Retryable(respond(k)))
    && (|r.waits| < Budget(p, retryCount) ==> !Retryable(respond(retryCount + |r.waits|)))
    && r.outcome == Settle(respond(retryCount + |r.waits|))
  }

  /**
    * `fetch_models(base_url, api_key, retry_count)`. A 429, a timeout or a 5xx
    * status is retried after `backoff_factor ** retry_count` seconds while
    * `retry_count < max_retries`; anything else settles the fetch.
    */
  function Fetch(p: RetryPolicy, respond: nat -> Attempt, retryCount: nat): (r: FetchRun)
    ensures RunFits(p, respond, retryCount, r)
    decreases Budget(p, retryCount)
  {
    var a := respond(retryCount);
    if Retryable(a) && retryCount < p.maxRetries then
      var rest := Fetch(p, respond, retryCount + 1);
      RetryStep(p, respond, retryCount, rest);
      FetchRun(rest.outcome, [Pow(p.backoffFactor, retryCount)] + rest.waits, rest.requests + 1)
    else
      FetchRun(Settle(a), [], 1)
  }

  /** A retried first request puts its wait in front of the rest of the run. */
  lemma {:induction false} RetryStep(p: RetryPolicy, respond: nat -> Attempt, retryCount: nat, rest: FetchRun)
    requires Retryable(respond(retryCount)) && retryCount < p.maxRetries
    requires RunFits(p, respond, retryCount + 1, rest)
    ensures RunFits(p, respond, retryCount,
                    FetchRun(rest.outcome, [Pow(p.backoffFactor, retryCount)] + rest.waits, rest.requests + 1))
  {
    var waits := [Pow(p.backoffFactor, retryCount)] + rest.waits;
    var n := |rest.waits|;
    assert Budget(p, retryCount) == Budget(p, retryCount + 1) + 1;
    assert retryCount + |waits| == retryCount + 1 + n;
    forall k | 0 <= k < |waits| ensures waits[k] == Pow(p.backoffFactor, retryCount + k) {
      if k > 0 {
        assert waits[k] == rest.waits[k - 1];
        assert retryCount + 1 + (k - 1) == retryCount + k;
      }
    }
    forall k | retryCount <= k < retryCount + |waits| ensures Retryable(respond(k)) {
      if k > retryCount {
        assert retryCount + 1 <= k < retryCount + 1 + n;
      }
    }
  }

  /** With the service's defaults a fetch sends at most four requests and sleeps 1, 2, 4 seconds at most. */
  lemma {:induction false} DefaultBackoff(respond: nat -> Attempt)
    ensures Fetch(DefaultPolicy, respond, 0).requests <= 4
    ensures Fetch(DefaultPolicy, respond, 0).waits <= [1, 2, 4]
  {
    var r := Fetch(DefaultPolicy, respond, 0);
    assert Pow(2, 0) == 1 && Pow(2, 1) == 2 && Pow(2, 2) == 4;
    assert forall k :: 0 <= k < |r.waits| ==> r.waits[k] == [1, 2, 4][k];
  }

  /** The first reply that is not retried decides the outcome; in particular a 2xx list is returned at once. */
  lemma {:induction false} FirstAnswerSettles(p: RetryPolicy, respond: nat -> Attempt, retryCount: nat)
    requires !Retryable(respond(retryCount))
    ensures Fetch(p, respond, retryCount) == FetchRun(Settle(respond(retryCount)), [], 1)
  {
  }

  /** A server that always times out costs `max_retries + 1` requests and ends in a timeout error. */
  lemma {:induction false} AlwaysTimingOut(p: RetryPolicy, respond: nat -> Attempt, retryCount: nat)
    requires forall k :: respond(k) == TimedOut
    ensures Fetch(p, respond, retryCount).requests == Budget(p, retryCount) + 1
    ensures Fetch(p, respond, retryCount).outcome == Failed(RequestTimeout)
    decreases Budget(p, retryCount)
  {
    if retryCount < p.maxRetries {
      AlwaysTimingOut(p, respond, retryCount + 1);
    }
  }

  /** A fetch fails with `RateLimitExhausted` only after it used its whole budget on 429s. */
  lemma {:induction false} RateLimitNeedsFullBudget(p: RetryPolicy, respond: nat -> Attempt, retryCount: nat)
    requires Fetch(p, respond, retryCount).outcome == Failed(RateLimitExhausted)
    ensures |Fetch(p, respond, retryCount).waits| == Budget(p, retryCount)
    ensures respond(retryCount + Budget(p, retryCount)).Reply?
    ensures respond(retryCount + Budget(p, retryCount)).status == 429
  {
    var r := Fetch(p, respond, retryCount);
    var n := |r.waits|;
    var a := respond(retryCount + n);
    assert a.Reply? && a.status == 429;
    if n < Budget(p, retryCount) {
      assert false;
    }
  }

  // ---------------------------------------------------------------------------
  // batch_fetch_models
  // ---------------------------------------------------------------------------

  /** One entry of `api_sources`: `source.get('id')`, `source.get('base_url')`, `source.get('api_key')`. */
  datatype FetchSource = FetchSource(id: Option<string>, baseUrl: Option<string>, apiKey: Option<string>)

  /** An entry of `results`: `success`, `models` (`[]` on failure), `error` and `model_count`. */
  datatype SourceResult = SourceResult(success: bool, models: Json, error: Option<FetchError>, modelCount: nat)

  datatype Summary = Summary(total: nat, success: nat, failed: nat)

  /** The dict stored for a source whose fetch ended with `o`. */
  function ResultOf(o: FetchOutcome): (r: SourceResult)
    ensures r.success <==> o.Fetched?
    ensures r.success ==> r.error == None && r.models == o.models
    ensures !r.success ==> r.error == Some(o.error) && r.models == JArr([]) && r.modelCount == 0
    ensures r.success && Truthy(o.models) && HasLen(o.models) ==> r.modelCount == Len(o.models)
  {
    match o
    case Fetched(models) =>
      SourceResult(true, models, None, if Truthy(models) && HasLen(models) then Len(models) else 0)
    case Failed(e) => SourceResult(false, JArr([]), Some(e), 0)
  }

  /**
    * The `results` table after the first `|sources|` tasks, run one after the
    * other: a source without a base URL raises before its fetch and leaves no
    * entry; otherwise a later source with the same id overwrites an earlier one.
    */
  function BatchResults(p: RetryPolicy, sources: seq<FetchSource>, network: nat -> nat -> Attempt)
    : (results: map<Option<string>, SourceResult>)
    ensures |results| <= |sources|
  {
    if sources == [] then map[]
    else
      var i := |sources| - 1;
      var earlier := BatchResults(p, sources[..i], network);
      var s := sources[i];
      assert sources == sources[..i] + [s];
      match s.baseUrl
      case None => earlier
      case Some(_) =>
        earlier[s.id := ResultOf(Fetch(p, network(i), 0).outcome)]
  }

  /** Every entry of the table comes from a source with that id and a base URL. */
  lemma {:induction false} BatchKeySource(p: RetryPolicy, sources: seq<FetchSource>, network: nat -> nat -> Attempt,
                                          id: Option<string>) returns (i: nat)
    requires id in BatchResults(p, sources, network)
    ensures i < |sources| && sources[i].id == id && sources[i].baseUrl.Some?
  {
    var n := |sources| - 1;
    var init := sources[..n];
    if sources[n].baseUrl.Some? && sources[n].id == id {
      i := n;
    } else {
      i := BatchKeySource(p, init, network, id);
      assert init[i] == sources[i];
    }
  }

  /** `sum(1 for r in results.values() if r["success"])`. */
  function SuccessCount(results: map<Option<string>, SourceResult>): (n: nat)
    ensures n <= |results|
  {
    var ok := set id | id in results && results[id].success;
    assert ok <= results.Keys;
    SubsetCard(ok, results.Keys);
    |ok|
  }

  lemma {:induction false} SubsetCard<T>(a: set<T>, b: set<T>)
    requires a <= b
    ensures |a| <= |b|
  {
    if a != {} {
      var x :| x in a;
      SubsetCard(a - {x}, b - {x});
    }
  }

  /** The successful ids among `ids`. */
  ghost function Succeeded(results: map<Option<string>, SourceResult>, ids: set<Option<string>>): set<Option<string>> {
    set id | id in ids && id in results && results[id].success
  }

  /** Counting one more id adds one exactly when it succeeded. */
  lemma {:induction false} SucceededAdd(results: map<Option<string>, SourceResult>, ids: set<Option<string>>, id: Option<string>)
    requires id in results && id !in ids
    ensures |Succeeded(results, ids + {id})| == |Succeeded(results, ids)| + (if results[id].success then 1 else 0)
  {
    if results[id].success {
      assert Succeeded(results, ids + {id}) == Succeeded(results, ids) + {id};
    } else {
      assert Succeeded(results, ids + {id}) == Succeeded(results, ids);
    }
  }

  /** Moving one element from `pending` to `counted` keeps their union and their disjointness. */
  lemma {:induction false} MoveOne<T>(pending: set<T>, counted: set<T>, x: T)
    requires x in pending && pending !! counted
    ensures (pending - {x}) + (counted + {x}) == pending + counted && (pending - {x}) !! (counted + {x})
  {
    forall y | y in pending + counted ensures y in (pending - {x}) + (counted + {x}) {
      if y != x && y in pending {
        assert y in pending - {x};
      }
    }
  }

  /** The counting loop over `results.values()`. */
  method CountSuccesses(results: map<Option<string>, SourceResult>) returns (count: nat)
    ensures count == SuccessCount(results)
  {
    count := 0;
    var pending := results.Keys;
    ghost var counted: set<Option<string>> := {};
    while pending != {}
      invariant pending + counted == results.Keys && pending !! counted
      invariant count == |Succeeded(results, counted)|
      decreases |pending|
    {
      var id :| id in pending;
      SucceededAdd(results, counted, id);
      MoveOne(pending, counted, id);
      if results[id].success {
        count := count + 1;
      }
      pending := pending - {id};
      counted := counted + {id};
    }
    assert Succeeded(results, counted) == set id | id in results && results[id].success;
  }

  /**
    * `batch_fetch_models(api_sources)`, with the tasks run in list order;
    * `network(i)` answers the requests of the `i`-th source.
    */
  method BatchFetchModels(p: RetryPolicy, sources: seq<FetchSource>, network: nat -> nat -> Attempt)
    returns (results: map<Option<string>, SourceResult>, summary: Summary)
    ensures results == BatchResults(p, sources, network)
    ensures summary.total == |sources|
    ensures summary.success == SuccessCount(results)
    ensures summary.failed == |results| - SuccessCount(results)
  {
    results := map[];
    var i := 0;
    while i < |sources|
      invariant 0 <= i <= |sources|
      invariant results == BatchResults(p, sources[..i], network)
    {
      assert sources[..i + 1][..i] == sources[..i];
      var source := sources[i];
      if source.baseUrl.Some? {
        var run := Fetch(p, network(i), 0);
        results := results[source.id := ResultOf(run.outcome)];
      }
      i := i + 1;
    }
    assert sources[..|sources|] == sources;

    var successCount := CountSuccesses(results);
    summary := Summary(|sources|, successCount, |results| - successCount);
  }

  /** With distinct ids and every base URL present, every source has its entry: `success + failed == total`. */
  lemma {:induction false} BatchCoversSources(p: RetryPolicy, sources: seq<FetchSource>, network: nat -> nat -> Attempt)
    requires forall i, j :: 0 <= i < j < |sources| ==> sources[i].id != sources[j].id
    requires forall i :: 0 <= i < |sources| ==> sources[i].baseUrl.Some?
    ensures |BatchResults(p, sources, network)| == |sources|
    ensures forall i :: 0 <= i < |sources| ==>
      sources[i].id in BatchResults(p, sources, network)
      && BatchResults(p, sources, network)[sources[i].id] == ResultOf(Fetch(p, network(i), 0).outcome)
  {
    if sources != [] {
      var n := |sources| - 1;
      var init := sources[..n];
      BatchCoversSources(p, init, network);
      var earlier := BatchResults(p, init, network);
      assert forall j :: 0 <= j < n ==> init[j] == sources[j];
      if sources[n].id in earlier {
        var j := BatchKeySource(p, init, network, sources[n].id);
        assert false;
      }
    }
  }

  /** The entry of an id is the fetch of the last source with that id that has a base URL. */
  lemma {:induction false} BatchLastWins(p: RetryPolicy, sources: seq<FetchSource>, network: nat -> nat -> Attempt, i: nat)
    requires i < |sources| && sources[i].baseUrl.Some?
    requires forall j :: i < j < |sources| && sources[j].id == sources[i].id ==> sources[j].baseUrl.None?
    ensures sources[i].id in BatchResults(p, sources, network)
    ensures BatchResults(p, sources, network)[sources[i].id] == ResultOf(Fetch(p, network(i), 0).outcome)
  {
    var n := |sources| - 1;
    if i < n {
      var init := sources[..n];
      assert forall j :: 0 <= j < n ==> init[j] == sources[j];
      BatchLastWins(p, init, network, i);
    }
  }
}
