/**
  * What the generated gpt-load document guarantees: one provider entry and one
  * group per model of an enabled provider, a redirect for every unified name
  * and for nothing else, aggregates exactly for the names served more than
  * once, and a dispatch that reaches every group exactly once.
  */
module ConfigProperties {
  import opened Seqs
  import opened PyStr
  import opened Records
  import opened ConfigGenerator

  // ---------------------------------------------------------------------------
  // Counting the units
  // ---------------------------------------------------------------------------

  ghost function SourceIds(ps: seq<Source>): set<string> {
    set p | p in ps :: p.id
  }

  /** The models whose provider id is in `ids`, in table order. */
  function ModelsOfAny(ms: seq<ModelRecord>, ids: set<string>): (r: seq<ModelRecord>)
    ensures forall m :: m in r <==> m in ms && m.providerId in ids
  {
    if ms == [] then []
    else
      var last := ms[|ms| - 1];
      assert forall m :: m in ms <==> m in ms[..|ms| - 1] || m == last;
      ModelsOfAny(ms[..|ms| - 1], ids) + (if last.providerId in ids then [last] else [])
  }

  lemma {:induction false} ModelsOfAnyAdd(ms: seq<ModelRecord>, ids: set<string>, pid: string)
    requires pid !in ids
    ensures |ModelsOfAny(ms, ids + {pid})| == |ModelsOfAny(ms, ids)| + |ModelsOf(ms, pid)|
  {
    if ms != [] {
      ModelsOfAnyAdd(ms[..|ms| - 1], ids, pid);
    }
  }

  lemma {:induction false} ModelsOfNone(ms: seq<ModelRecord>)
    ensures ModelsOfAny(ms, {}) == []
  {
    if ms != [] {
      ModelsOfNone(ms[..|ms| - 1]);
    }
  }

  lemma {:induction false} UnitsCount(eps: seq<Source>, ems: seq<ModelRecord>)
    requires DistinctSourceIds(eps)
    ensures |Units(eps, ems)| == |ModelsOfAny(ems, SourceIds(eps))|
  {
    if eps == [] {
      assert SourceIds(eps) == {};
      ModelsOfNone(ems);
    } else {
      var init, p := eps[..|eps| - 1], eps[|eps| - 1];
      assert DistinctSourceIds(init);
      UnitsCount(init, ems);
      assert SourceIds(eps) == SourceIds(init) + {p.id} by {
        assert forall q :: q in eps <==> q in init || q == p;
      }
      assert p.id !in SourceIds(init) by {
        forall q | q in init ensures q.id != p.id {
          var j :| 0 <= j < |init| && init[j] == q;
          assert eps[j] == q;
        }
      }
      ModelsOfAnyAdd(ems, SourceIds(init), p.id);
    }
  }

  lemma {:induction false} EnabledSourcesDistinct(ps: seq<Source>)
    requires DistinctSourceIds(ps)
    ensures DistinctSourceIds(EnabledSources(ps))
  {
    if ps != [] {
      var init := ps[..|ps| - 1];
      assert DistinctSourceIds(init);
      EnabledSourcesDistinct(init);
      var e := EnabledSources(init);
      forall q | q in e ensures q.id != ps[|ps| - 1].id {
        var j :| 0 <= j < |init| && init[j] == q;
        assert ps[j] == q;
      }
    }
  }

  /**
    * There are exactly as many provider entries and groups as enabled models
    * whose provider is an enabled provider (provider ids are primary keys).
    */
  lemma {:induction false} OneEntryPerModel(ps: seq<Source>, ms: seq<ModelRecord>)
    requires DistinctSourceIds(ps)
    ensures var c := GptLoadSpec(ps, ms);
      |c.providers| == |c.groups| == |ModelsOfAny(EnabledModels(ms), SourceIds(EnabledSources(ps)))|
  {
    var eps := EnabledSources(ps);
    EnabledSourcesDistinct(ps);
    UnitsCount(eps, EnabledModels(ms));
    if eps == [] {
      assert SourceIds(eps) == {};
      ModelsOfNone(EnabledModels(ms));
    }
  }

  lemma {:induction false} NoneEnabled(ps: seq<Source>)
    requires forall p :: p in ps ==> !p.enabled
    ensures EnabledSources(ps) == []
  {
    if ps != [] {
      assert forall p :: p in ps[..|ps| - 1] ==> p in ps;
      NoneEnabled(ps[..|ps| - 1]);
      assert ps[|ps| - 1] in ps;
    }
  }

  /** With no enabled provider the document is empty in every part. */
  lemma {:induction false} NoProvidersEmpty(ps: seq<Source>, ms: seq<ModelRecord>)
    requires forall p :: p in ps ==> !p.enabled
    ensures GptLoadSpec(ps, ms) == GptLoadConfig([], [], [], [])
  {
    NoneEnabled(ps);
  }

  // ---------------------------------------------------------------------------
  // Entries and groups
  // ---------------------------------------------------------------------------

  /**
    * Entry `i` and group `i` come from the `k`-th enabled model `m` of an
    * enabled provider `p`: the entry is named `{p.name}-{k}`, points at the
    * provider's URL without trailing `/`, with key and original model name;
    * the group `{p.name}-{k}-{unified}` maps the unified name to the original.
    */
  lemma {:induction false} EntryDescribesModel(ps: seq<Source>, ms: seq<ModelRecord>, i: nat)
    returns (p: Source, k: nat, m: ModelRecord)
    requires i < |GptLoadSpec(ps, ms).providers|
    ensures p in ps && p.enabled && m in ms && m.enabled && m.providerId == p.id
    ensures k < |ModelsOf(EnabledModels(ms), p.id)| && m == ModelsOf(EnabledModels(ms), p.id)[k]
    ensures var c := GptLoadSpec(ps, ms);
      var name := p.name + "-" + NatToString(k);
      var url := c.providers[i].baseUrl;
      i < |c.groups| &&
      c.providers[i] == ProviderEntry(name, url, p.apiKey, [m.originalName], true) &&
      url == RStrip(p.baseUrl, {'/'}) && (url == [] || url[|url| - 1] != '/') &&
      c.groups[i] == Group(name + "-" + Unified(m), [name], "fixed_priority", [(Unified(m), m.originalName)])
  {
    var eps, ems := EnabledSources(ps), EnabledModels(ms);
    var us := Units(eps, ems);
    UnitsSound(eps, ems);
    var u := us[i];
    assert u in us;
    p, k, m := u.provider, u.index, u.model;
    assert m in ModelsOf(ems, p.id);
  }

  /** Conversely, every enabled model of every enabled provider has its entry and group. */
  lemma {:induction false} ModelHasEntry(ps: seq<Source>, ms: seq<ModelRecord>, p: Source, k: nat) returns (i: nat)
    requires p in ps && p.enabled && k < |ModelsOf(EnabledModels(ms), p.id)|
    ensures var c := GptLoadSpec(ps, ms);
      var m := ModelsOf(EnabledModels(ms), p.id)[k];
      i < |c.providers| && i < |c.groups| &&
      c.providers[i].name == p.name + "-" + NatToString(k) &&
      c.providers[i].models == [m.originalName] &&
      c.groups[i].mapping == [(Unified(m), m.originalName)]
  {
    var eps, ems := EnabledSources(ps), EnabledModels(ms);
    assert p in eps;
    UnitsComplete(eps, ems);
    var us := Units(eps, ems);
    var u := Unit(p, k, ModelsOf(ems, p.id)[k]);
    assert u in us;
    i :| 0 <= i < |us| && us[i] == u;
  }

  // ---------------------------------------------------------------------------
  // Redirects
  // ---------------------------------------------------------------------------

  function RedirectKeys(c: GptLoadConfig): (ks: seq<string>)
    ensures |ks| == |c.redirects| && forall k :: 0 <= k < |ks| ==> ks[k] == c.redirects[k].0
  {
    seq(|c.redirects|, k requires 0 <= k < |c.redirects| => c.redirects[k].0)
  }

  /** A unified name is included when an enabled model of an enabled provider carries it. */
  ghost predicate Served(ps: seq<Source>, ms: seq<ModelRecord>, name: string) {
    exists p, m :: p in ps && p.enabled && m in ms && m.enabled && m.providerId == p.id && Unified(m) == name
  }

  lemma {:induction false} UnitNameServed(ps: seq<Source>, ms: seq<ModelRecord>, n: string)
    requires n in Names(Units(EnabledSources(ps), EnabledModels(ms)))
    ensures Served(ps, ms, n)
  {
    var eps, ems := EnabledSources(ps), EnabledModels(ms);
    var us := Units(eps, ems);
    UnitsSound(eps, ems);
    var i :| 0 <= i < |us| && Names(us)[i] == n;
    var u := us[i];
    assert u in us;
    assert u.model in ModelsOf(ems, u.provider.id);
  }

  lemma {:induction false} ServedUnitName(ps: seq<Source>, ms: seq<ModelRecord>, n: string)
    requires Served(ps, ms, n)
    ensures n in Names(Units(EnabledSources(ps), EnabledModels(ms)))
  {
    var eps, ems := EnabledSources(ps), EnabledModels(ms);
    var us := Units(eps, ems);
    var p, m :| p in ps && p.enabled && m in ms && m.enabled && m.providerId == p.id && Unified(m) == n;
    assert p in eps && m in ems;
    var pms := ModelsOf(ems, p.id);
    assert m in pms;
    var k :| 0 <= k < |pms| && pms[k] == m;
    UnitsComplete(eps, ems);
    var u := Unit(p, k, m);
    assert u in us;
    var i :| 0 <= i < |us| && us[i] == u;
    assert Names(us)[i] == n;
  }

  /** The redirect keys are exactly the included unified names, each once. */
  lemma {:induction false} RedirectKeysAreServedNames(ps: seq<Source>, ms: seq<ModelRecord>)
    ensures Distinct(RedirectKeys(GptLoadSpec(ps, ms)))
    ensures forall n :: n in RedirectKeys(GptLoadSpec(ps, ms)) <==> Served(ps, ms, n)
  {
    var c := GptLoadSpec(ps, ms);
    var eps, ems := EnabledSources(ps), EnabledModels(ms);
    var us := Units(eps, ems);
    if eps == [] {
      assert RedirectKeys(c) == [];
      forall n | Served(ps, ms, n) ensures false {
        ServedUnitName(ps, ms, n);
      }
    } else {
      assert RedirectKeys(c) == Dedup(Names(us));
      forall n ensures n in Names(us) <==> Served(ps, ms, n) {
        if n in Names(us) {
          UnitNameServed(ps, ms, n);
        }
        if Served(ps, ms, n) {
          ServedUnitName(ps, ms, n);
        }
      }
    }
  }

  function GroupNames(groups: seq<Group>): (r: seq<string>)
    ensures |r| == |groups| && forall i :: 0 <= i < |groups| ==> r[i] == groups[i].name
  {
    seq(|groups|, i requires 0 <= i < |groups| => groups[i].name)
  }

  /** The names of the groups whose model mapping is for `name`, in document order. */
  function ServedBy(groups: seq<Group>, name: string): (r: seq<string>)
    ensures forall g :: g in r ==> g in GroupNames(groups)
  {
    if groups == [] then []
    else
      var init, last := groups[..|groups| - 1], groups[|groups| - 1];
      var r := ServedBy(init, name);
      assert forall g :: g in GroupNames(init) ==> g in GroupNames(groups) by {
        forall g | g in GroupNames(init) ensures g in GroupNames(groups) {
          var j :| 0 <= j < |init| && GroupNames(init)[j] == g;
          assert GroupNames(groups)[j] == g;
        }
      }
      assert last.name == GroupNames(groups)[|groups| - 1];
      r + (if last.mapping != [] && last.mapping[0].0 == name then [last.name] else [])
  }

  lemma {:induction false} ServedByIsMembers(us: seq<Unit>, name: string)
    ensures ServedBy(GroupsOf(us), name) == Members(us, name)
  {
    if us != [] {
      var init := us[..|us| - 1];
      assert GroupsOf(us)[..|us| - 1] == GroupsOf(init);
      ServedByIsMembers(init, name);
    }
  }

  function AggregateNames(aggs: seq<AggregateGroup>): (r: seq<string>)
    ensures |r| == |aggs| && forall i :: 0 <= i < |aggs| ==> r[i] == aggs[i].name
  {
    seq(|aggs|, i requires 0 <= i < |aggs| => aggs[i].name)
  }

  /** The rule for one redirect key `n`, on the units. */
  lemma {:induction false} RedirectRule(us: seq<Unit>, n: string)
    requires n in Names(us)
    ensures var gs := ServedBy(GroupsOf(us), n);
      var aggs := AggregatesOver(us, Dedup(Names(us)));
      var t := Target(us, n);
      gs != [] &&
      (|gs| > 1 ==> t == "Aggr-" + n && AggregateGroup("Aggr-" + n, gs, "round_robin") in aggs) &&
      (|gs| == 1 ==> t == gs[0] && "Aggr-" + n !in AggregateNames(aggs))
  {
    var aggs := AggregatesOver(us, Dedup(Names(us)));
    ServedByIsMembers(us, n);
    MembersOfServedName(us, n);
    assert forall j :: 0 <= j < |aggs| ==> aggs[j] in aggs;
  }

  /**
    * The aggregation rule, read off the document alone: a name served by two
    * or more groups redirects to `Aggr-{name}`, an aggregate of exactly those
    * groups in document order; a name served by one group redirects to it and
    * has no aggregate.
    */
  lemma {:induction false} AggregationRule(ps: seq<Source>, ms: seq<ModelRecord>)
    ensures var c := GptLoadSpec(ps, ms);
      forall k :: 0 <= k < |c.redirects| ==>
        var n := c.redirects[k].0;
        var gs := ServedBy(c.groups, n);
        gs != [] &&
        (|gs| > 1 ==> c.redirects[k].1 == "Aggr-" + n && AggregateGroup("Aggr-" + n, gs, "round_robin") in c.aggregates) &&
        (|gs| == 1 ==> c.redirects[k].1 == gs[0] && "Aggr-" + n !in AggregateNames(c.aggregates))
  {
    var c := GptLoadSpec(ps, ms);
    var eps, ems := EnabledSources(ps), EnabledModels(ms);
    if eps != [] {
      var us := Units(eps, ems);
      var order := Dedup(Names(us));
      forall k | 0 <= k < |c.redirects|
        ensures var n := c.redirects[k].0;
          var gs := ServedBy(c.groups, n);
          gs != [] &&
          (|gs| > 1 ==> c.redirects[k].1 == "Aggr-" + n && AggregateGroup("Aggr-" + n, gs, "round_robin") in c.aggregates) &&
          (|gs| == 1 ==> c.redirects[k].1 == gs[0] && "Aggr-" + n !in AggregateNames(c.aggregates))
      {
        assert c.redirects[k] == (order[k], Target(us, order[k]));
        RedirectRule(us, order[k]);
      }
    }
  }

  /** `AggregatesAreForSharedNames` for the document built from units. */
  lemma {:induction false} SharedNameAggregates(us: seq<Unit>)
    ensures var c := GptLoadOf(us);
      forall a :: a in c.aggregates ==>
        |a.name| >= 5 && a.name[..5] == "Aggr-" && a.name[5..] in RedirectKeys(c) &&
        a.subGroups == ServedBy(c.groups, a.name[5..]) && |a.subGroups| > 1 && a.loadBalance == "round_robin"
  {
    var c := GptLoadOf(us);
    assert RedirectKeys(c) == Dedup(Names(us));
    forall a | a in c.aggregates
      ensures |a.name| >= 5 && a.name[..5] == "Aggr-" && a.name[5..] in RedirectKeys(c) &&
        a.subGroups == ServedBy(c.groups, a.name[5..]) && |a.subGroups| > 1 && a.loadBalance == "round_robin"
    {
      ServedByIsMembers(us, a.name[5..]);
    }
  }

  /** Every aggregate is `Aggr-{n}` for a redirect key `n` served by two or more groups, and has exactly those. */
  lemma {:induction false} AggregatesAreForSharedNames(ps: seq<Source>, ms: seq<ModelRecord>)
    ensures var c := GptLoadSpec(ps, ms);
      forall a :: a in c.aggregates ==>
        |a.name| >= 5 && a.name[..5] == "Aggr-" && a.name[5..] in RedirectKeys(c) &&
        a.subGroups == ServedBy(c.groups, a.name[5..]) && |a.subGroups| > 1 && a.loadBalance == "round_robin"
  {
    var eps := EnabledSources(ps);
    if eps != [] {
      SharedNameAggregates(Units(eps, EnabledModels(ms)));
    }
  }

  /** No dangling redirects: every target names a generated group or a generated aggregate. */
  lemma {:induction false} NoDanglingRedirects(ps: seq<Source>, ms: seq<ModelRecord>)
    ensures var c := GptLoadSpec(ps, ms);
      forall k :: 0 <= k < |c.redirects| ==>
        c.redirects[k].1 in GroupNames(c.groups) || c.redirects[k].1 in AggregateNames(c.aggregates)
    ensures var c := GptLoadSpec(ps, ms);
      forall a, g :: a in c.aggregates && g in a.subGroups ==> g in GroupNames(c.groups)
  {
    var c := GptLoadSpec(ps, ms);
    AggregationRule(ps, ms);
    AggregatesAreForSharedNames(ps, ms);
    forall k | 0 <= k < |c.redirects|
      ensures c.redirects[k].1 in GroupNames(c.groups) || c.redirects[k].1 in AggregateNames(c.aggregates)
    {
      var (n, t) := c.redirects[k];
      var gs := ServedBy(c.groups, n);
      if |gs| > 1 {
        var a := AggregateGroup("Aggr-" + n, gs, "round_robin");
        var j :| 0 <= j < |c.aggregates| && c.aggregates[j] == a;
        assert AggregateNames(c.aggregates)[j] == t;
      } else {
        assert t == gs[0] && gs[0] in gs;
      }
    }
  }

  // ---------------------------------------------------------------------------
  // Every group is reached exactly once
  // ---------------------------------------------------------------------------

  /** The groups a redirect reaches: the aggregate's members, or the direct target. */
  function Reached(groups: seq<Group>, redirect: (string, string)): seq<string> {
    var gs := ServedBy(groups, redirect.0);
    if |gs| > 1 then gs else [redirect.1]
  }

  function AllReached(groups: seq<Group>, redirects: seq<(string, string)>): seq<string> {
    if redirects == [] then []
    else AllReached(groups, redirects[..|redirects| - 1]) + Reached(groups, redirects[|redirects| - 1])
  }

  function FlatMembers(us: seq<Unit>, names: seq<string>): seq<string> {
    if names == [] then []
    else FlatMembers(us, names[..|names| - 1]) + Members(us, names[|names| - 1])
  }

  function UnitGroupNames(us: seq<Unit>): (r: seq<string>)
    ensures |r| == |us| && forall i :: 0 <= i < |us| ==> r[i] == GroupName(us[i])
  {
    seq(|us|, i requires 0 <= i < |us| => GroupName(us[i]))
  }

  lemma {:induction false} FlatMembersNone(names: seq<string>)
    ensures FlatMembers([], names) == []
  {
    if names != [] {
      FlatMembersNone(names[..|names| - 1]);
    }
  }

  lemma {:induction false} FlatMembersOther(us: seq<Unit>, u: Unit, names: seq<string>)
    requires Unified(u.model) !in names
    ensures FlatMembers(us + [u], names) == FlatMembers(us, names)
  {
    if names != [] {
      var init := names[..|names| - 1];
      assert forall n :: n in init ==> n in names;
      FlatMembersOther(us, u, init);
      MembersSnoc(us, u, names[|names| - 1]);
    }
  }

  /** The new unit's name is the last one: it joins that name's members. */
  lemma {:induction false} FlatMembersAddLast(us: seq<Unit>, u: Unit, names: seq<string>)
    requires names != [] && names[|names| - 1] == Unified(u.model) && Unified(u.model) !in names[..|names| - 1]
    ensures multiset(FlatMembers(us + [u], names)) == multiset(FlatMembers(us, names)) + multiset{GroupName(u)}
  {
    var init, last := names[..|names| - 1], names[|names| - 1];
    var before, members := FlatMembers(us, init), Members(us, last);
    var after, g := FlatMembers(us + [u], names), GroupName(u);
    MembersSnoc(us, u, last);
    FlatMembersOther(us, u, init);
    assert after == before + (members + [g]);
    assert multiset(after) == multiset(before) + multiset(members) + multiset{g};
  }

  /** The new unit's name is an earlier one: the last name's members stay as they were. */
  lemma {:induction false} FlatMembersAddEarlier(us: seq<Unit>, u: Unit, names: seq<string>)
    requires names != [] && names[|names| - 1] != Unified(u.model)
    requires multiset(FlatMembers(us + [u], names[..|names| - 1])) ==
      multiset(FlatMembers(us, names[..|names| - 1])) + multiset{GroupName(u)}
    ensures multiset(FlatMembers(us + [u], names)) == multiset(FlatMembers(us, names)) + multiset{GroupName(u)}
  {
    var init, last := names[..|names| - 1], names[|names| - 1];
    var members := Members(us, last);
    MembersSnoc(us, u, last);
    var afterInit := FlatMembers(us + [u], init);
    assert FlatMembers(us + [u], names) == afterInit + members;
    assert FlatMembers(us, names) == FlatMembers(us, init) + members;
  }

  lemma {:induction false} FlatMembersAdd(us: seq<Unit>, u: Unit, names: seq<string>)
    requires Distinct(names) && Unified(u.model) in names
    ensures multiset(FlatMembers(us + [u], names)) == multiset(FlatMembers(us, names)) + multiset{GroupName(u)}
  {
    var init, last := names[..|names| - 1], names[|names| - 1];
    DistinctInit(names);
    if last == Unified(u.model) {
      FlatMembersAddLast(us, u, names);
    } else {
      assert names == init + [last];
      FlatMembersAdd(us, u, init);
      FlatMembersAddEarlier(us, u, names);
    }
  }

  /** Over distinct names covering every unit, the members partition the groups. */
  lemma {:induction false} FlatMembersPartition(us: seq<Unit>, names: seq<string>)
    requires Distinct(names) && forall n :: n in Names(us) ==> n in names
    ensures multiset(FlatMembers(us, names)) == multiset(UnitGroupNames(us))
  {
    if us == [] {
      FlatMembersNone(names);
    } else {
      var init, u := us[..|us| - 1], us[|us| - 1];
      assert us == init + [u];
      forall n | n in Names(init) ensures n in names {
        var j :| 0 <= j < |init| && Names(init)[j] == n;
        assert Names(us)[j] == n;
      }
      FlatMembersPartition(init, names);
      assert Names(us)[|us| - 1] == Unified(u.model);
      FlatMembersAdd(init, u, names);
      assert UnitGroupNames(us) == UnitGroupNames(init) + [GroupName(u)];
    }
  }

  lemma {:induction false} ReachedIsMembers(us: seq<Unit>, n: string)
    requires n in Names(us)
    ensures Reached(GroupsOf(us), (n, Target(us, n))) == Members(us, n)
  {
    ServedByIsMembers(us, n);
    MembersOfServedName(us, n);
  }

  lemma {:induction false} AllReachedSnoc(groups: seq<Group>, redirects: seq<(string, string)>)
    requires redirects != []
    ensures AllReached(groups, redirects) ==
      AllReached(groups, redirects[..|redirects| - 1]) + Reached(groups, redirects[|redirects| - 1])
  {
  }

  lemma {:induction false} RedirectsPrefix(us: seq<Unit>, names: seq<string>)
    requires names != [] && forall n :: n in names ==> n in Names(us)
    ensures forall m :: m in names[..|names| - 1] ==> m in Names(us)
    ensures RedirectsOver(us, names)[..|names| - 1] == RedirectsOver(us, names[..|names| - 1])
  {
  }

  lemma {:induction false} AllReachedIsFlatMembers(us: seq<Unit>, names: seq<string>)
    requires forall n :: n in names ==> n in Names(us)
    ensures AllReached(GroupsOf(us), RedirectsOver(us, names)) == FlatMembers(us, names)
  {
    if names != [] {
      var init, n := names[..|names| - 1], names[|names| - 1];
      var gs, r := GroupsOf(us), RedirectsOver(us, names);
      RedirectsPrefix(us, names);
      AllReachedIsFlatMembers(us, init);
      ReachedIsMembers(us, n);
      AllReachedSnoc(gs, r);
    }
  }

  /** `EveryGroupReachedOnce` for the document built from units. */
  lemma {:induction false} UnitGroupsReachedOnce(us: seq<Unit>)
    ensures var c := GptLoadOf(us);
      multiset(AllReached(c.groups, c.redirects)) == multiset(GroupNames(c.groups))
  {
    var order := Dedup(Names(us));
    AllReachedIsFlatMembers(us, order);
    FlatMembersPartition(us, order);
    assert GroupNames(GroupsOf(us)) == UnitGroupNames(us);
  }

  /**
    * Following each redirect (into its aggregate when there is one) reaches
    * every generated group exactly once.
    */
  lemma {:induction false} EveryGroupReachedOnce(ps: seq<Source>, ms: seq<ModelRecord>)
    ensures var c := GptLoadSpec(ps, ms);
      multiset(AllReached(c.groups, c.redirects)) == multiset(GroupNames(c.groups))
  {
    var eps := EnabledSources(ps);
    if eps != [] {
      UnitGroupsReachedOnce(Units(eps, EnabledModels(ms)));
    }
  }

  // ---------------------------------------------------------------------------
  // The uni-api document
  // ---------------------------------------------------------------------------

  ghost predicate HasUniApiEntry(c: UniApiConfig, gptLoadUrl: string, name: string) {
    exists k :: 0 <= k < |c.providers| && c.providers[k] == UniApiEntryOf(gptLoadUrl, name)
  }

  /** Some enabled model, of any provider, has unified name `name`. */
  ghost predicate NamedByEnabled(ms: seq<ModelRecord>, name: string) {
    exists m :: m in ms && m.enabled && Unified(m) == name
  }

  lemma {:induction false} UniApiEntryNamed(gptLoadUrl: string, ms: seq<ModelRecord>, n: string)
    requires HasUniApiEntry(UniApiSpec(gptLoadUrl, ms), gptLoadUrl, n)
    ensures NamedByEnabled(ms, n)
  {
    var c := UniApiSpec(gptLoadUrl, ms);
    var ems := EnabledModels(ms);
    var names := ModelNames(ems);
    var d := Dedup(names);
    var k :| 0 <= k < |c.providers| && c.providers[k] == UniApiEntryOf(gptLoadUrl, n);
    assert c.providers[k].model == [d[k]];
    assert d[k] == n && d[k] in d;
    var i :| 0 <= i < |names| && names[i] == n;
    assert ems[i] in ems;
  }

  lemma {:induction false} NamedHasUniApiEntry(gptLoadUrl: string, ms: seq<ModelRecord>, n: string)
    requires NamedByEnabled(ms, n)
    ensures HasUniApiEntry(UniApiSpec(gptLoadUrl, ms), gptLoadUrl, n)
  {
    var c := UniApiSpec(gptLoadUrl, ms);
    var ems := EnabledModels(ms);
    var names := ModelNames(ems);
    var d := Dedup(names);
    var m :| m in ms && m.enabled && Unified(m) == n;
    assert m in ems;
    var i :| 0 <= i < |ems| && ems[i] == m;
    assert names[i] == n && n in names;
    assert n in d;
    var k :| 0 <= k < |d| && d[k] == n;
    assert c.providers[k] == UniApiEntryOf(gptLoadUrl, n);
  }

  /**
    * The uni-api document has an entry for a unified name exactly when some
    * enabled model carries it, whatever the state of the model's provider; the
    * server listens on 0.0.0.0:8000.
    */
  lemma {:induction false} UniApiEntryPerName(gptLoadUrl: string, ms: seq<ModelRecord>)
    ensures UniApiSpec(gptLoadUrl, ms).port == 8000 && UniApiSpec(gptLoadUrl, ms).bind == "0.0.0.0"
    ensures forall n :: HasUniApiEntry(UniApiSpec(gptLoadUrl, ms), gptLoadUrl, n) <==> NamedByEnabled(ms, n)
  {
    forall n ensures HasUniApiEntry(UniApiSpec(gptLoadUrl, ms), gptLoadUrl, n) <==> NamedByEnabled(ms, n) {
      if HasUniApiEntry(UniApiSpec(gptLoadUrl, ms), gptLoadUrl, n) {
        UniApiEntryNamed(gptLoadUrl, ms, n);
      }
      if NamedByEnabled(ms, n) {
        NamedHasUniApiEntry(gptLoadUrl, ms, n);
      }
    }
  }

  /**
    * Each entry serves one name, the entries serve distinct names, and the
    * names appear in the order they first occur among the enabled models.
    */
  lemma {:induction false} UniApiEntriesInFirstOccurrenceOrder(gptLoadUrl: string, ms: seq<ModelRecord>)
    ensures var c := UniApiSpec(gptLoadUrl, ms);
      forall k :: 0 <= k < |c.providers| ==>
        (|c.providers[k].model| == 1 && c.providers[k] == UniApiEntryOf(gptLoadUrl, c.providers[k].model[0]))
    ensures var c := UniApiSpec(gptLoadUrl, ms);
      var names := ModelNames(EnabledModels(ms));
      forall j, k :: 0 <= j < k < |c.providers| ==>
        c.providers[j].model[0] in names && c.providers[k].model[0] in names &&
        FirstIndex(names, c.providers[j].model[0]) < FirstIndex(names, c.providers[k].model[0])
  {
    var c := UniApiSpec(gptLoadUrl, ms);
    var names := ModelNames(EnabledModels(ms));
    var d := Dedup(names);
    DedupOrder(names);
    forall j, k | 0 <= j < k < |c.providers|
      ensures c.providers[j].model[0] in names && c.providers[k].model[0] in names &&
        FirstIndex(names, c.providers[j].model[0]) < FirstIndex(names, c.providers[k].model[0])
    {
      assert c.providers[j].model[0] == d[j] && c.providers[k].model[0] == d[k];
      assert d[j] in d && d[k] in d;
    }
  }
}
