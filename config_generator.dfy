/**
  * The routing configuration built from a snapshot of providers and models:
  * the gpt-load document (one provider entry and one group per model of an
  * enabled provider, aggregate groups for names served more than once, the
  * redirect table) and the uni-api document (one entry per unified name).
  *
  * The generating methods follow the service's loops; each is proved equal to
  * a specification function, and the lemmas below state what those functions
  * guarantee.
  */
module ConfigGenerator {
  import opened Options
  import opened Seqs
  import opened PyStr
  import opened Records

  const DefaultGptLoadUrl: string := "http://localhost:3001"
  const DefaultConfigDir: string := "/app/config"

  datatype ProviderEntry = ProviderEntry(
    name: string, baseUrl: string, apiKey: string, models: seq<string>, enabled: bool)

  datatype Group = Group(
    name: string, providers: seq<string>, strategy: string, mapping: seq<(string, string)>)

  datatype AggregateGroup = AggregateGroup(name: string, subGroups: seq<string>, loadBalance: string)

  /** `model_redirects` keeps its keys in insertion order; each key occurs once. */
  datatype GptLoadConfig = GptLoadConfig(
    providers: seq<ProviderEntry>,
    groups: seq<Group>,
    aggregates: seq<AggregateGroup>,
    redirects: seq<(string, string)>)

  /** The document returned when no provider is enabled. */
  const EmptyGptLoad: GptLoadConfig := GptLoadConfig([], [], [], [])

  // ---------------------------------------------------------------------------
  // Units: one model of one enabled provider, in loop order
  // ---------------------------------------------------------------------------

  /** One model `model` of provider `provider`, at position `index` among that provider's models. */
  datatype Unit = Unit(provider: Source, index: nat, model: ModelRecord)

  /** `models_by_provider.get(pid, [])`: the models of provider `pid`, in table order. */
  function ModelsOf(ms: seq<ModelRecord>, pid: string): (r: seq<ModelRecord>)
    ensures |r| <= |ms|
    ensures forall m :: m in r <==> m in ms && m.providerId == pid
  {
    if ms == [] then []
    else
      var init := ModelsOf(ms[..|ms| - 1], pid);
      var last := ms[|ms| - 1];
      assert forall m :: m in ms <==> m in ms[..|ms| - 1] || m == last;
      if last.providerId == pid then init + [last] else init
  }

  /** `defaultdict(list).get(key, [])`. */
  function Bucket<V>(m: map<string, seq<V>>, key: string): seq<V> {
    if key in m then m[key] else []
  }

  /** The inner loop `for idx, model in enumerate(provider_models)`. */
  function ProviderUnits(p: Source, pms: seq<ModelRecord>): (us: seq<Unit>)
    ensures |us| == |pms|
    ensures forall i :: 0 <= i < |pms| ==> us[i] == Unit(p, i, pms[i])
  {
    seq(|pms|, i requires 0 <= i < |pms| => Unit(p, i, pms[i]))
  }

  /** The units the nested loops visit: providers in order, each provider's models in order. */
  function Units(eps: seq<Source>, ems: seq<ModelRecord>): seq<Unit> {
    if eps == [] then []
    else
      var p := eps[|eps| - 1];
      Units(eps[..|eps| - 1], ems) + ProviderUnits(p, ModelsOf(ems, p.id))
  }

  /** Each unit is a model of an enabled provider, at its position among that provider's models. */
  lemma {:induction false} UnitsSound(eps: seq<Source>, ems: seq<ModelRecord>)
    ensures forall u :: u in Units(eps, ems) ==>
      u.provider in eps && u.index < |ModelsOf(ems, u.provider.id)| &&
      u.model == ModelsOf(ems, u.provider.id)[u.index]
  {
    if eps != [] {
      var init := eps[..|eps| - 1];
      UnitsSound(init, ems);
      assert forall q :: q in init ==> q in eps;
    }
  }

  /** Each model of each enabled provider is a unit. */
  lemma {:induction false} UnitsComplete(eps: seq<Source>, ems: seq<ModelRecord>)
    ensures forall p, k :: p in eps && 0 <= k < |ModelsOf(ems, p.id)| ==>
      Unit(p, k, ModelsOf(ems, p.id)[k]) in Units(eps, ems)
  {
    if eps != [] {
      var init, p := eps[..|eps| - 1], eps[|eps| - 1];
      UnitsComplete(init, ems);
      var pu := ProviderUnits(p, ModelsOf(ems, p.id));
      assert forall q :: q in eps ==> q in init || q == p;
      assert forall k :: 0 <= k < |pu| ==> (Units(init, ems) + pu)[|Units(init, ems)| + k] == pu[k];
    }
  }

  function EntryName(u: Unit): string {
    u.provider.name + "-" + NatToString(u.index)
  }

  function GroupName(u: Unit): string {
    EntryName(u) + "-" + Unified(u.model)
  }

  function AggregateName(name: string): string {
    "Aggr-" + name
  }

  function EntryOf(u: Unit): ProviderEntry {
    ProviderEntry(EntryName(u), RStrip(u.provider.baseUrl, {'/'}), u.provider.apiKey,
                  [u.model.originalName], true)
  }

  function GroupOf(u: Unit): Group {
    Group(GroupName(u), [EntryName(u)], "fixed_priority", [(Unified(u.model), u.model.originalName)])
  }

  function EntriesOf(us: seq<Unit>): (r: seq<ProviderEntry>)
    ensures |r| == |us| && forall i :: 0 <= i < |us| ==> r[i] == EntryOf(us[i])
  {
    seq(|us|, i requires 0 <= i < |us| => EntryOf(us[i]))
  }

  function GroupsOf(us: seq<Unit>): (r: seq<Group>)
    ensures |r| == |us| && forall i :: 0 <= i < |us| ==> r[i] == GroupOf(us[i])
  {
    seq(|us|, i requires 0 <= i < |us| => GroupOf(us[i]))
  }

  /** The unified names of the units, in loop order. */
  function Names(us: seq<Unit>): (r: seq<string>)
    ensures |r| == |us| && forall i :: 0 <= i < |us| ==> r[i] == Unified(us[i].model)
  {
    seq(|us|, i requires 0 <= i < |us| => Unified(us[i].model))
  }

  /** `models_by_unified_name[name]`: the group names of the units serving `name`, in discovery order. */
  function Members(us: seq<Unit>, name: string): (r: seq<string>)
    ensures |r| <= |us|
  {
    if us == [] then []
    else
      var u := us[|us| - 1];
      Members(us[..|us| - 1], name) + (if Unified(u.model) == name then [GroupName(u)] else [])
  }

  /** The group of every unit serving `name` is among its members, and only those. */
  lemma {:induction false} MembersAre(us: seq<Unit>, name: string)
    ensures forall g :: g in Members(us, name) <==>
      exists i :: 0 <= i < |us| && Unified(us[i].model) == name && g == GroupName(us[i])
  {
    if us != [] {
      var init := us[..|us| - 1];
      MembersAre(init, name);
      assert forall i :: 0 <= i < |init| ==> init[i] == us[i];
    }
  }

  /** Every name that some unit serves has at least one group. */
  lemma {:induction false} MembersOfServedName(us: seq<Unit>, name: string)
    requires name in Names(us)
    ensures Members(us, name) != []
  {
    var i :| 0 <= i < |us| && Names(us)[i] == name;
    MembersAre(us, name);
    assert GroupName(us[i]) in Members(us, name);
  }

  function AggregateOf(us: seq<Unit>, name: string): AggregateGroup {
    AggregateGroup(AggregateName(name), Members(us, name), "round_robin")
  }

  /** The aggregate groups, for the names (in the given order) served by two or more groups. */
  function AggregatesOver(us: seq<Unit>, names: seq<string>): (r: seq<AggregateGroup>)
    ensures forall n :: n in names && |Members(us, n)| > 1 ==> AggregateOf(us, n) in r
    ensures forall a :: a in r ==>
      |a.name| >= 5 && a.name[5..] in names && |Members(us, a.name[5..])| > 1 && a == AggregateOf(us, a.name[5..])
  {
    if names == [] then []
    else
      var init := AggregatesOver(us, names[..|names| - 1]);
      var n := names[|names| - 1];
      assert forall m :: m in names <==> m in names[..|names| - 1] || m == n;
      assert AggregateName(n)[5..] == n;
      if |Members(us, n)| > 1 then init + [AggregateOf(us, n)] else init
  }

  /** `model_redirects[name]`: the aggregate when there are several groups, else the only group. */
  function Target(us: seq<Unit>, name: string): string
    requires name in Names(us)
  {
    MembersOfServedName(us, name);
    var gs := Members(us, name);
    if |gs| > 1 then AggregateName(name) else gs[0]
  }

  function RedirectsOver(us: seq<Unit>, names: seq<string>): (r: seq<(string, string)>)
    requires forall n :: n in names ==> n in Names(us)
    ensures |r| == |names| && forall k :: 0 <= k < |names| ==> r[k] == (names[k], Target(us, names[k]))
  {
    seq(|names|, k requires 0 <= k < |names| => (names[k], Target(us, names[k])))
  }

  /** The gpt-load document built from the units of the enabled providers. */
  function GptLoadOf(us: seq<Unit>): GptLoadConfig {
    var order := Dedup(Names(us));
    GptLoadConfig(EntriesOf(us), GroupsOf(us), AggregatesOver(us, order), RedirectsOver(us, order))
  }

  /** The gpt-load document `generate_gptload_config` returns for the given tables. */
  function GptLoadSpec(ps: seq<Source>, ms: seq<ModelRecord>): GptLoadConfig {
    var eps := EnabledSources(ps);
    if eps == [] then EmptyGptLoad
    else GptLoadOf(Units(eps, EnabledModels(ms)))
  }

  // ---------------------------------------------------------------------------
  // generate_gptload_config
  // ---------------------------------------------------------------------------

  lemma {:induction false} UnitsSnoc(eps: seq<Source>, i: nat, ems: seq<ModelRecord>)
    requires i < |eps|
    ensures Units(eps[..i + 1], ems) == Units(eps[..i], ems) + ProviderUnits(eps[i], ModelsOf(ems, eps[i].id))
  {
    assert eps[..i + 1][..i] == eps[..i];
  }

  lemma {:induction false} MembersSnoc(us: seq<Unit>, u: Unit, name: string)
    ensures Members(us + [u], name) ==
      Members(us, name) + (if Unified(u.model) == name then [GroupName(u)] else [])
  {
    assert (us + [u])[..|us|] == us;
  }

  lemma {:induction false} EntriesSnoc(us: seq<Unit>, u: Unit)
    ensures EntriesOf(us + [u]) == EntriesOf(us) + [EntryOf(u)]
    ensures GroupsOf(us + [u]) == GroupsOf(us) + [GroupOf(u)]
  {
  }

  lemma {:induction false} AggregatesSnoc(us: seq<Unit>, names: seq<string>, k: nat)
    requires k < |names|
    ensures AggregatesOver(us, names[..k + 1]) ==
      AggregatesOver(us, names[..k]) + (if |Members(us, names[k])| > 1 then [AggregateOf(us, names[k])] else [])
  {
    assert names[..k + 1][..k] == names[..k];
  }

  lemma {:induction false} RedirectsSnoc(us: seq<Unit>, names: seq<string>, k: nat)
    requires k < |names| && forall n :: n in names ==> n in Names(us)
    ensures forall n :: n in names[..k + 1] ==> n in Names(us)
    ensures RedirectsOver(us, names[..k + 1]) == RedirectsOver(us, names[..k]) + [(names[k], Target(us, names[k]))]
  {
  }

  lemma {:induction false} NamesSnoc(us: seq<Unit>, u: Unit)
    ensures Names(us + [u]) == Names(us) + [Unified(u.model)]
  {
  }

  lemma {:induction false} DedupSnoc(s: seq<string>, x: string)
    ensures Dedup(s + [x]) == if x in Dedup(s) then Dedup(s) else Dedup(s) + [x]
  {
    assert (s + [x])[..|s|] == s;
  }

  /** The `models_by_provider` loop. */
  method GroupByProvider(models: seq<ModelRecord>) returns (byProvider: map<string, seq<ModelRecord>>)
    ensures forall pid :: Bucket(byProvider, pid) == ModelsOf(models, pid)
  {
    byProvider := map[];
    var k := 0;
    while k < |models|
      invariant 0 <= k <= |models|
      invariant forall pid :: Bucket(byProvider, pid) == ModelsOf(models[..k], pid)
    {
      var m := models[k];
      assert models[..k + 1][..k] == models[..k];
      byProvider := byProvider[m.providerId := Bucket(byProvider, m.providerId) + [m]];
      k := k + 1;
    }
    assert models[..k] == models;
  }

  /** The inner loop: one provider entry and one group per model of `provider`, appended in order. */
  method AppendProviderUnits(entries: seq<ProviderEntry>, groups: seq<Group>, provider: Source,
                             pms: seq<ModelRecord>, ghost done: seq<Unit>)
    returns (entries': seq<ProviderEntry>, groups': seq<Group>)
    requires entries == EntriesOf(done) && groups == GroupsOf(done)
    ensures entries' == EntriesOf(done + ProviderUnits(provider, pms))
    ensures groups' == GroupsOf(done + ProviderUnits(provider, pms))
  {
    entries', groups' := entries, groups;
    var idx := 0;
    while idx < |pms|
      invariant 0 <= idx <= |pms|
      invariant entries' == EntriesOf(done + ProviderUnits(provider, pms)[..idx])
      invariant groups' == GroupsOf(done + ProviderUnits(provider, pms)[..idx])
    {
      var u := Unit(provider, idx, pms[idx]);
      ghost var cur := done + ProviderUnits(provider, pms)[..idx];
      assert ProviderUnits(provider, pms)[..idx + 1] == ProviderUnits(provider, pms)[..idx] + [u];
      assert done + ProviderUnits(provider, pms)[..idx + 1] == cur + [u];
      EntriesSnoc(cur, u);
      entries' := entries' + [EntryOf(u)];
      groups' := groups' + [GroupOf(u)];
      idx := idx + 1;
    }
    assert ProviderUnits(provider, pms)[..idx] == ProviderUnits(provider, pms);
  }

  /** The loop that appends one provider entry and one group per model of each provider. */
  method BuildEntries(providers: seq<Source>, byProvider: map<string, seq<ModelRecord>>, ghost models: seq<ModelRecord>)
    returns (entries: seq<ProviderEntry>, groups: seq<Group>)
    requires forall pid :: Bucket(byProvider, pid) == ModelsOf(models, pid)
    ensures entries == EntriesOf(Units(providers, models))
    ensures groups == GroupsOf(Units(providers, models))
  {
    entries, groups := [], [];
    var i := 0;
    while i < |providers|
      invariant 0 <= i <= |providers|
      invariant entries == EntriesOf(Units(providers[..i], models))
      invariant groups == GroupsOf(Units(providers[..i], models))
    {
      var provider := providers[i];
      var pms := Bucket(byProvider, provider.id);
      UnitsSnoc(providers, i, models);
      if pms != [] {
        entries, groups := AppendProviderUnits(entries, groups, provider, pms, Units(providers[..i], models));
      } else {
        assert Units(providers[..i], models) + ProviderUnits(provider, pms) == Units(providers[..i], models);
      }
      i := i + 1;
    }
    assert providers[..i] == providers;
  }

  /** `byName` and its key order `order` are `models_by_unified_name` after visiting `seen`. */
  ghost predicate GroupedByName(seen: seq<Unit>, byName: map<string, seq<string>>, order: seq<string>) {
    && order == Dedup(Names(seen))
    && (forall n :: Bucket(byName, n) == Members(seen, n))
    && (forall n :: n in byName <==> n in order)
  }

  lemma {:induction false} OrderStep(seen: seq<Unit>, u: Unit, order: seq<string>, order': seq<string>)
    requires order == Dedup(Names(seen))
    requires order' == if Unified(u.model) !in order then order + [Unified(u.model)] else order
    ensures order' == Dedup(Names(seen + [u]))
  {
    NamesSnoc(seen, u);
    DedupSnoc(Names(seen), Unified(u.model));
  }

  lemma {:induction false} BucketStep(seen: seq<Unit>, u: Unit, byName: map<string, seq<string>>, byName': map<string, seq<string>>)
    requires forall n :: Bucket(byName, n) == Members(seen, n)
    requires byName' == byName[Unified(u.model) := Bucket(byName, Unified(u.model)) + [GroupName(u)]]
    ensures forall n :: Bucket(byName', n) == Members(seen + [u], n)
  {
    forall n ensures Members(seen + [u], n) == Members(seen, n) + (if Unified(u.model) == n then [GroupName(u)] else []) {
      MembersSnoc(seen, u, n);
    }
  }

  /** One step of the `models_by_unified_name` loop. */
  lemma {:induction false} ByNameStep(seen: seq<Unit>, u: Unit, byName: map<string, seq<string>>, order: seq<string>,
                   byName': map<string, seq<string>>, order': seq<string>)
    requires GroupedByName(seen, byName, order)
    requires order' == if Unified(u.model) !in order then order + [Unified(u.model)] else order
    requires byName' == byName[Unified(u.model) := Bucket(byName, Unified(u.model)) + [GroupName(u)]]
    ensures GroupedByName(seen + [u], byName', order')
  {
    OrderStep(seen, u, order, order');
    BucketStep(seen, u, byName, byName');
    assert forall n :: n in byName' <==> n in order';
  }

  /** The inner loop of `models_by_unified_name` over one provider's models. */
  method GroupProviderModels(provider: Source, pms: seq<ModelRecord>,
                             byName0: map<string, seq<string>>, order0: seq<string>, ghost start: seq<Unit>)
    returns (byName: map<string, seq<string>>, order: seq<string>)
    requires GroupedByName(start, byName0, order0)
    ensures GroupedByName(start + ProviderUnits(provider, pms), byName, order)
  {
    byName, order := byName0, order0;
    ghost var seen := start;
    var idx := 0;
    while idx < |pms|
      invariant 0 <= idx <= |pms|
      invariant seen == start + ProviderUnits(provider, pms)[..idx]
      invariant GroupedByName(seen, byName, order)
    {
      var model := pms[idx];
      var unified := Unified(model);
      var groupName := provider.name + "-" + NatToString(idx) + "-" + unified;
      ghost var u := Unit(provider, idx, model);
      assert groupName == GroupName(u);
      assert ProviderUnits(provider, pms)[..idx + 1] == ProviderUnits(provider, pms)[..idx] + [u];
      var order' := order;
      if unified !in order {
        order' := order + [unified];
      }
      var byName' := byName[unified := Bucket(byName, unified) + [groupName]];
      ByNameStep(seen, u, byName, order, byName', order');
      byName, order := byName', order';
      seen := seen + [u];
      idx := idx + 1;
    }
    assert ProviderUnits(provider, pms)[..idx] == ProviderUnits(provider, pms);
  }

  /** The `models_by_unified_name` loop; `order` is the dict's key order. */
  method GroupByUnifiedName(providers: seq<Source>, byProvider: map<string, seq<ModelRecord>>, ghost models: seq<ModelRecord>)
    returns (byName: map<string, seq<string>>, order: seq<string>)
    requires forall pid :: Bucket(byProvider, pid) == ModelsOf(models, pid)
    ensures GroupedByName(Units(providers, models), byName, order)
  {
    byName, order := map[], [];
    var i := 0;
    while i < |providers|
      invariant 0 <= i <= |providers|
      invariant GroupedByName(Units(providers[..i], models), byName, order)
    {
      var provider := providers[i];
      var pms := Bucket(byProvider, provider.id);
      UnitsSnoc(providers, i, models);
      byName, order := GroupProviderModels(provider, pms, byName, order, Units(providers[..i], models));
      i := i + 1;
    }
    assert providers[..i] == providers;
  }

  /** The loop over `models_by_unified_name.items()` that builds aggregates and redirects. */
  method BuildRedirects(byName: map<string, seq<string>>, order: seq<string>, ghost us: seq<Unit>)
    returns (aggregates: seq<AggregateGroup>, redirects: seq<(string, string)>)
    requires GroupedByName(us, byName, order)
    ensures aggregates == AggregatesOver(us, order)
    ensures redirects == RedirectsOver(us, order)
  {
    aggregates, redirects := [], [];
    var k := 0;
    while k < |order|
      invariant 0 <= k <= |order|
      invariant aggregates == AggregatesOver(us, order[..k])
      invariant redirects == RedirectsOver(us, order[..k])
    {
      var name := order[k];
      var groupNames := byName[name];
      assert Bucket(byName, name) == Members(us, name);
      MembersOfServedName(us, name);
      AggregatesSnoc(us, order, k);
      RedirectsSnoc(us, order, k);
      if |groupNames| > 1 {
        var aggName := "Aggr-" + name;
        aggregates := aggregates + [AggregateGroup(aggName, groupNames, "round_robin")];
        redirects := redirects + [(name, aggName)];
      } else {
        redirects := redirects + [(name, groupNames[0])];
      }
      k := k + 1;
    }
    assert order[..k] == order;
  }

  /** `generate_gptload_config`: the same maps and loops, on the enabled rows of the tables. */
  method GenerateGptLoadConfig(ps: seq<Source>, ms: seq<ModelRecord>) returns (config: GptLoadConfig)
    ensures config == GptLoadSpec(ps, ms)
  {
    var providers := EnabledSources(ps);
    if providers == [] {
      return EmptyGptLoad;
    }
    var models := EnabledModels(ms);
    var byProvider := GroupByProvider(models);
    var entries, groups := BuildEntries(providers, byProvider, models);
    var byName, order := GroupByUnifiedName(providers, byProvider, models);
    var aggregates, redirects := BuildRedirects(byName, order, Units(providers, models));
    config := GptLoadConfig(entries, groups, aggregates, redirects);
  }

  // ---------------------------------------------------------------------------
  // generate_uniapi_config
  // ---------------------------------------------------------------------------

  datatype UniApiEntry = UniApiEntry(provider: string, baseUrl: string, api: string, model: seq<string>)

  datatype UniApiConfig = UniApiConfig(providers: seq<UniApiEntry>, port: int, bind: string)

  const UniApiPort: int := 8000
  const UniApiBind: string := "0.0.0.0"

  /** The uni-api entry for unified name `name`: a provider routed to gpt-load's proxy. */
  function UniApiEntryOf(gptLoadUrl: string, name: string): UniApiEntry {
    UniApiEntry("gptload-" + name, gptLoadUrl + "/proxy/" + name, "openai", [name])
  }

  /** The unified names of the models, in table order. */
  function ModelNames(ms: seq<ModelRecord>): (r: seq<string>)
    ensures |r| == |ms| && forall i :: 0 <= i < |ms| ==> r[i] == Unified(ms[i])
  {
    seq(|ms|, i requires 0 <= i < |ms| => Unified(ms[i]))
  }

  function UniApiEntries(gptLoadUrl: string, names: seq<string>): (r: seq<UniApiEntry>)
    ensures |r| == |names| && forall k :: 0 <= k < |names| ==> r[k] == UniApiEntryOf(gptLoadUrl, names[k])
  {
    seq(|names|, k requires 0 <= k < |names| => UniApiEntryOf(gptLoadUrl, names[k]))
  }

  /** The uni-api document `generate_uniapi_config` returns. */
  function UniApiSpec(gptLoadUrl: string, ms: seq<ModelRecord>): UniApiConfig {
    UniApiConfig(UniApiEntries(gptLoadUrl, Dedup(ModelNames(EnabledModels(ms)))), UniApiPort, UniApiBind)
  }

  lemma {:induction false} ModelNamesPrefix(ms: seq<ModelRecord>, k: nat)
    requires k < |ms|
    ensures ModelNames(ms[..k + 1]) == ModelNames(ms[..k]) + [Unified(ms[k])]
  {
  }

  lemma {:induction false} UniApiEntriesPrefix(gptLoadUrl: string, names: seq<string>, k: nat)
    requires k < |names|
    ensures UniApiEntries(gptLoadUrl, names[..k + 1]) ==
      UniApiEntries(gptLoadUrl, names[..k]) + [UniApiEntryOf(gptLoadUrl, names[k])]
  {
  }

  /** What the `unified_models` loop keeps after the first `k` models. */
  ghost predicate FirstByName(models: seq<ModelRecord>, k: nat, unifiedModels: map<string, ModelRecord>, keys: seq<string>)
    requires k <= |models|
  {
    && keys == Dedup(ModelNames(models[..k]))
    && (forall n :: n in unifiedModels <==> n in keys)
    && (forall n :: n in unifiedModels ==> unifiedModels[n] in models && Unified(unifiedModels[n]) == n)
  }

  /** One turn of the `unified_models` loop keeps `FirstByName`. */
  lemma {:induction false} FirstByNameStep(models: seq<ModelRecord>, k: nat, unifiedModels: map<string, ModelRecord>, keys: seq<string>)
    requires k < |models| && FirstByName(models, k, unifiedModels, keys)
    ensures var u := Unified(models[k]);
      if u in unifiedModels then FirstByName(models, k + 1, unifiedModels, keys)
      else FirstByName(models, k + 1, unifiedModels[u := models[k]], keys + [u])
  {
    var u := Unified(models[k]);
    var names := ModelNames(models[..k]);
    ModelNamesPrefix(models, k);
    assert ModelNames(models[..k + 1]) == names + [u];
    DedupSnoc(names, u);
    assert u in unifiedModels <==> u in Dedup(names);
    if u in unifiedModels {
      assert keys == Dedup(ModelNames(models[..k + 1]));
      assert FirstByName(models, k + 1, unifiedModels, keys);
    } else {
      var um, ks := unifiedModels[u := models[k]], keys + [u];
      assert ks == Dedup(ModelNames(models[..k + 1]));
      assert forall n :: n in um <==> n in ks;
      assert models[k] in models;
      assert forall n :: n in um ==> um[n] in models && Unified(um[n]) == n;
      assert FirstByName(models, k + 1, um, ks);
    }
  }

  /** The `unified_models` loop: the first model of each unified name, keys in insertion order. */
  method DedupByUnifiedName(models: seq<ModelRecord>) returns (unifiedModels: map<string, ModelRecord>, keys: seq<string>)
    ensures keys == Dedup(ModelNames(models))
    ensures forall n :: n in unifiedModels <==> n in keys
    ensures forall n :: n in unifiedModels ==> unifiedModels[n] in models && Unified(unifiedModels[n]) == n
  {
    unifiedModels, keys := map[], [];
    var k := 0;
    while k < |models|
      invariant 0 <= k <= |models|
      invariant FirstByName(models, k, unifiedModels, keys)
    {
      var model := models[k];
      var unified := Unified(model);
      FirstByNameStep(models, k, unifiedModels, keys);
      if unified !in unifiedModels {
        unifiedModels := unifiedModels[unified := model];
        keys := keys + [unified];
      }
      k := k + 1;
    }
    assert models[..k] == models;
  }

  /** `generate_uniapi_config`: deduplicate by unified name in a dict, then one entry per key. */
  method GenerateUniApiConfig(gptLoadUrl: string, ms: seq<ModelRecord>) returns (config: UniApiConfig)
    ensures config == UniApiSpec(gptLoadUrl, ms)
  {
    var models := EnabledModels(ms);
    var unifiedModels, keys := DedupByUnifiedName(models);
    var entries: seq<UniApiEntry> := [];
    var k := 0;
    while k < |keys|
      invariant 0 <= k <= |keys|
      invariant entries == UniApiEntries(gptLoadUrl, keys[..k])
    {
      var name := keys[k];
      UniApiEntriesPrefix(gptLoadUrl, keys, k);
      entries := entries + [UniApiEntry("gptload-" + name, gptLoadUrl + "/proxy/" + name, "openai", [name])];
      k := k + 1;
    }
    assert keys[..k] == keys;
    config := UniApiConfig(entries, 8000, "0.0.0.0");
  }
}
