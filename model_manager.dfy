/**
  * `ModelManagerService`: the model catalogue's write operations and counts.
  * The three tables it touches (`models`, `api_sources`, `providers`) are
  * sequences in table order and a query is a filter over them. Each operation
  * is first a function from the old tables to the new tables and the value
  * returned or the exception raised; the class `Store` at the end holds the
  * tables and performs the operations in place. New record ids (`uuid4`) and
  * the clock (`datetime.utcnow`) are inputs.
  */
module ModelManager {
  import opened Options
  import opened Seqs
  import opened PyStr
  import opened Records

  // ---------------------------------------------------------------------------
  // Errors and outcomes
  // ---------------------------------------------------------------------------

  /** An exception the service lets escape after rolling back. */
  datatype PyError = KeyError(key: string) | ValueError(message: string)

  /** A service call either returns a value or raises. */
  datatype Outcome<T> = Returns(value: T) | Raises(error: PyError)

  /** `str(e)`: a `KeyError` prints its key quoted. */
  function ErrorText(e: PyError): (r: string)
    ensures e.ValueError? ==> r == e.message
    ensures e.KeyError? ==> r == "'" + e.key + "'"
  {
    match e
    case KeyError(key) => "'" + key + "'"
    case ValueError(message) => message
  }

  /** "显示名称 '<name>' 已被使用": the display name is already in use. */
  function NameInUse(name: string): string {
    "\U{663e}\U{793a}\U{540d}\U{79f0} '" + name + "' \U{5df2}\U{88ab}\U{4f7f}\U{7528}"
  }

  /** "模型不存在": no such model. */
  const ModelNotFound: string := "\U{6a21}\U{578b}\U{4e0d}\U{5b58}\U{5728}"

  /** "缺少必要参数": a required argument is missing. */
  const MissingArguments: string := "\U{7f3a}\U{5c11}\U{5fc5}\U{8981}\U{53c2}\U{6570}"

  // ---------------------------------------------------------------------------
  // Table invariants and lookups
  // ---------------------------------------------------------------------------

  /** `models.id` is the primary key. */
  predicate IdsUnique(ms: seq<ModelRecord>) {
    forall i, j :: 0 <= i < j < |ms| ==> ms[i].id != ms[j].id
  }

  /** At most one model per original name and source: the upsert's lookup expects one row. */
  predicate KeysUnique(ms: seq<ModelRecord>) {
    forall i, j :: 0 <= i < j < |ms| ==>
      ms[i].originalName != ms[j].originalName || ms[i].providerId != ms[j].providerId
  }

  /** Within one source no two models carry the same display name. */
  predicate DisplayNamesUnique(ms: seq<ModelRecord>) {
    forall i, j :: 0 <= i < j < |ms| && ms[i].providerId == ms[j].providerId && ms[i].displayName.Some? ==>
      ms[i].displayName != ms[j].displayName
  }

  /** `select(Model).where(Model.id == id)`. */
  function ModelIndex(ms: seq<ModelRecord>, id: string): (r: Option<nat>)
    ensures r.Some? ==> r.value < |ms| && ms[r.value].id == id && forall j :: 0 <= j < r.value ==> ms[j].id != id
    ensures r.None? <==> forall j :: 0 <= j < |ms| ==> ms[j].id != id
  {
    FindFirst(ms, (m: ModelRecord) => m.id == id)
  }

  /** The model stored under this original name for this source. */
  function KeyIndex(ms: seq<ModelRecord>, originalName: string, providerId: string): (r: Option<nat>)
    ensures r.Some? ==> r.value < |ms| && ms[r.value].originalName == originalName && ms[r.value].providerId == providerId
    ensures r.Some? ==> forall j :: 0 <= j < r.value ==> ms[j].originalName != originalName || ms[j].providerId != providerId
    ensures r.None? <==> forall j :: 0 <= j < |ms| ==> ms[j].originalName != originalName || ms[j].providerId != providerId
  {
    FindFirst(ms, (m: ModelRecord) => m.originalName == originalName && m.providerId == providerId)
  }

  /** The lookup by id lands on the first record carrying it. */
  lemma {:induction false} ModelIndexAt(ms: seq<ModelRecord>, id: string, i: nat)
    requires i < |ms| && ms[i].id == id && forall j :: 0 <= j < i ==> ms[j].id != id
    ensures ModelIndex(ms, id) == Some(i)
  {
    var k := ModelIndex(ms, id);
    assert k.Some? by { assert !(ms[i].id != id); }
  }

  /** The lookup by key lands on the first record carrying it. */
  lemma {:induction false} KeyIndexAt(ms: seq<ModelRecord>, originalName: string, providerId: string, i: nat)
    requires i < |ms| && ms[i].originalName == originalName && ms[i].providerId == providerId
    requires forall j :: 0 <= j < i ==> ms[j].originalName != originalName || ms[j].providerId != providerId
    ensures KeyIndex(ms, originalName, providerId) == Some(i)
  {
    var k := KeyIndex(ms, originalName, providerId);
    assert k.Some? by { assert !(ms[i].originalName != originalName || ms[i].providerId != providerId); }
  }

  /** Another model of the same source whose display name is already `name`. */
  function ClashIndex(ms: seq<ModelRecord>, id: string, providerId: string, name: string): (r: Option<nat>)
    ensures r.Some? ==> (r.value < |ms| && ms[r.value].displayName == Some(name) &&
                         ms[r.value].providerId == providerId && ms[r.value].id != id)
    ensures r.None? <==> forall j :: 0 <= j < |ms| ==>
      ms[j].displayName != Some(name) || ms[j].providerId != providerId || ms[j].id == id
  {
    FindFirst(ms, (m: ModelRecord) => m.displayName == Some(name) && m.providerId == providerId && m.id != id)
  }

  // ---------------------------------------------------------------------------
  // create_or_update_model
  // ---------------------------------------------------------------------------

  /** The `model_data` dict; `None` stands for a key that is not in it. */
  datatype ModelData = ModelData(
    originalName: Option<string>,
    providerId: Option<string>,
    normalizedName: Option<string>,
    displayName: Option<Option<string>>)

  /** The record as updated: the normalised name if supplied, the display name if its key is present. */
  function UpdatedRecord(m: ModelRecord, data: ModelData, now: int): ModelRecord {
    m.(normalizedName := data.normalizedName.GetOr(m.normalizedName),
       displayName := data.displayName.GetOr(m.displayName),
       updatedAt := now)
  }

  /**
    * The tables after `create_or_update_model` and what it returns. The
    * lookup reads `original_name` and then `provider_id`; creating a record
    * reads `normalized_name` too, and a missing key raises `KeyError` with
    * nothing written.
    */
  function Upsert(ms: seq<ModelRecord>, data: ModelData, newId: string, now: int)
    : (r: (seq<ModelRecord>, Outcome<ModelRecord>))
  {
    if data.originalName.None? then (ms, Raises(KeyError("original_name")))
    else if data.providerId.None? then (ms, Raises(KeyError("provider_id")))
    else
      match KeyIndex(ms, data.originalName.value, data.providerId.value)
      case Some(i) =>
        var m := UpdatedRecord(ms[i], data, now);
        (ms[i := m], Returns(m))
      case None =>
        if data.normalizedName.None? then (ms, Raises(KeyError("normalized_name")))
        else
          var m := ModelRecord(newId, data.originalName.value, data.normalizedName.value,
                               data.displayName.GetOr(None), data.providerId.value, true, now, now);
          (ms + [m], Returns(m))
  }

  /**
    * An upsert that finds its record updates it in place: the count is
    * unchanged, the normalised name changes only when supplied, the display
    * name only when its key is present, `enabled`, the id and the creation
    * time are kept, and every other record is untouched.
    */
  lemma {:induction false} UpsertUpdates(ms: seq<ModelRecord>, data: ModelData, newId: string, now: int, i: nat)
    requires KeysUnique(ms)
    requires i < |ms| && data.originalName == Some(ms[i].originalName) && data.providerId == Some(ms[i].providerId)
    ensures var (after, out) := Upsert(ms, data, newId, now);
      && out.Returns? && out.value == after[i]
      && |after| == |ms|
      && after[i].id == ms[i].id && after[i].originalName == ms[i].originalName
      && after[i].providerId == ms[i].providerId && after[i].enabled == ms[i].enabled
      && after[i].createdAt == ms[i].createdAt && after[i].updatedAt == now
      && after[i].normalizedName == (if data.normalizedName.Some? then data.normalizedName.value else ms[i].normalizedName)
      && after[i].displayName == (if data.displayName.Some? then data.displayName.value else ms[i].displayName)
      && forall j :: 0 <= j < |ms| && j != i ==> after[j] == ms[j]
  {
    forall j | 0 <= j < i ensures ms[j].originalName != ms[i].originalName || ms[j].providerId != ms[i].providerId {
    }
    KeyIndexAt(ms, ms[i].originalName, ms[i].providerId, i);
  }

  /**
    * An upsert that finds no record appends exactly one: enabled, with the
    * given names, the fresh id and the current time.
    */
  lemma {:induction false} UpsertCreates(ms: seq<ModelRecord>, data: ModelData, newId: string, now: int)
    requires data.originalName.Some? && data.providerId.Some? && data.normalizedName.Some?
    requires forall j :: 0 <= j < |ms| ==>
      ms[j].originalName != data.originalName.value || ms[j].providerId != data.providerId.value
    ensures var (after, out) := Upsert(ms, data, newId, now);
      && out.Returns? && after == ms + [out.value]
      && out.value.enabled && out.value.id == newId
      && out.value.originalName == data.originalName.value && out.value.providerId == data.providerId.value
      && out.value.normalizedName == data.normalizedName.value
      && out.value.displayName == (if data.displayName.Some? then data.displayName.value else None)
      && out.value.createdAt == now && out.value.updatedAt == now
  {
  }

  /** The upsert raises exactly when a key it reads is missing, and then writes nothing. */
  lemma {:induction false} UpsertRaises(ms: seq<ModelRecord>, data: ModelData, newId: string, now: int)
    ensures var (after, out) := Upsert(ms, data, newId, now);
      && (out.Raises? <==>
            data.originalName.None? || data.providerId.None? ||
            (data.normalizedName.None? && forall j :: 0 <= j < |ms| ==>
               ms[j].originalName != data.originalName.value || ms[j].providerId != data.providerId.value))
      && (out.Raises? ==> after == ms && out.error.KeyError?)
  {
  }

  /** With a fresh id, an upsert keeps ids and (original name, source) pairs unique. */
  lemma {:induction false} UpsertKeepsKeys(ms: seq<ModelRecord>, data: ModelData, newId: string, now: int)
    requires IdsUnique(ms) && KeysUnique(ms)
    requires forall j :: 0 <= j < |ms| ==> ms[j].id != newId
    ensures IdsUnique(Upsert(ms, data, newId, now).0) && KeysUnique(Upsert(ms, data, newId, now).0)
  {
  }

  /** Repeating an upsert with the same data at the same time changes nothing more. */
  lemma {:induction false} UpsertTwice(ms: seq<ModelRecord>, data: ModelData, id1: string, id2: string, now: int)
    ensures var (once, out) := Upsert(ms, data, id1, now);
      Upsert(once, data, id2, now) == (once, out)
  {
    var (once, out) := Upsert(ms, data, id1, now);
    if data.originalName.Some? && data.providerId.Some? {
      var o, p := data.originalName.value, data.providerId.value;
      match KeyIndex(ms, o, p)
      case Some(i) =>
        KeyIndexAt(once, o, p, i);
        assert UpdatedRecord(once[i], data, now) == once[i];
        assert once[i := once[i]] == once;
      case None =>
        if data.normalizedName.Some? {
          KeyIndexAt(once, o, p, |ms|);
          assert UpdatedRecord(once[|ms|], data, now) == once[|ms|];
          assert once[|ms| := once[|ms|]] == once;
        }
    }
  }

  // ---------------------------------------------------------------------------
  // rename_model
  // ---------------------------------------------------------------------------

  /**
    * The tables after `rename_model` and what it returns: `None` for an
    * unknown id; `ValueError` when another model of the same source already
    * shows `newName`; otherwise the model with the new display name.
    */
  function Rename(ms: seq<ModelRecord>, id: string, newName: string, now: int)
    : (r: (seq<ModelRecord>, Outcome<Option<ModelRecord>>))
  {
    match ModelIndex(ms, id)
    case None => (ms, Returns(None))
    case Some(i) =>
      if ClashIndex(ms, id, ms[i].providerId, newName).Some? then (ms, Raises(ValueError(NameInUse(newName))))
      else
        var m := ms[i].(displayName := Some(newName), updatedAt := now);
        (ms[i := m], Returns(Some(m)))
  }

  /** Renaming an unknown id returns `None` and changes nothing; a known id never returns `None`. */
  lemma {:induction false} RenameUnknown(ms: seq<ModelRecord>, id: string, newName: string, now: int)
    ensures (Rename(ms, id, newName, now) == (ms, Returns(None))) <==> forall j :: 0 <= j < |ms| ==> ms[j].id != id
  {
  }

  /**
    * For a known id (ids unique), the rename raises exactly when another
    * model of its source already has the display name, and then changes
    * nothing; otherwise only that model's display name and update time change.
    */
  lemma {:induction false} RenameEffect(ms: seq<ModelRecord>, id: string, newName: string, now: int, i: nat)
    requires IdsUnique(ms) && i < |ms| && ms[i].id == id
    ensures var (after, out) := Rename(ms, id, newName, now);
      && (out.Raises? <==> exists j :: 0 <= j < |ms| && j != i && ms[j].providerId == ms[i].providerId &&
                                        ms[j].displayName == Some(newName))
      && (out.Raises? ==> after == ms && out.error == ValueError(NameInUse(newName)))
      && (out.Returns? ==> out.value == Some(after[i]) && after == ms[i := ms[i].(displayName := Some(newName), updatedAt := now)])
  {
    assert ModelIndex(ms, id) == Some(i);
    var c := ClashIndex(ms, id, ms[i].providerId, newName);
    if c.Some? {
      assert c.value != i;
    } else {
      forall j | 0 <= j < |ms| && j != i && ms[j].providerId == ms[i].providerId
        ensures ms[j].displayName != Some(newName)
      {
        assert ms[j].id != id;
      }
    }
  }

  /** A successful rename keeps display names unique within each source, and keeps ids and keys. */
  lemma {:induction false} RenameKeepsUnique(ms: seq<ModelRecord>, id: string, newName: string, now: int)
    requires IdsUnique(ms) && KeysUnique(ms) && DisplayNamesUnique(ms)
    ensures var after := Rename(ms, id, newName, now).0;
      IdsUnique(after) && KeysUnique(after) && DisplayNamesUnique(after)
  {
    var (after, out) := Rename(ms, id, newName, now);
    if ModelIndex(ms, id).Some? && out.Returns? {
      var i := ModelIndex(ms, id).value;
      RenameEffect(ms, id, newName, now, i);
      forall a, b | 0 <= a < b < |after| && after[a].providerId == after[b].providerId && after[a].displayName.Some?
        ensures after[a].displayName != after[b].displayName
      {
        if a == i || b == i {
          var o := if a == i then b else a;
          assert after[o] == ms[o];
          assert ms[o].displayName != Some(newName);
        } else {
          assert after[a] == ms[a] && after[b] == ms[b];
        }
      }
    }
  }

  // ---------------------------------------------------------------------------
  // delete_model
  // ---------------------------------------------------------------------------

  /** The tables after `delete_model` and whether it found the model: a soft delete. */
  function Delete(ms: seq<ModelRecord>, id: string, now: int): (r: (seq<ModelRecord>, bool))
  {
    match ModelIndex(ms, id)
    case None => (ms, false)
    case Some(i) => (ms[i := ms[i].(enabled := false, updatedAt := now)], true)
  }

  /**
    * Deleting an unknown id returns false and changes nothing; deleting a
    * known one returns true and keeps the record, disabled, with only its
    * update time otherwise changed.
    */
  lemma {:induction false} DeleteEffect(ms: seq<ModelRecord>, id: string, now: int)
    ensures var (after, found) := Delete(ms, id, now);
      && (found <==> exists j :: 0 <= j < |ms| && ms[j].id == id)
      && (!found ==> after == ms)
      && (found ==> (|after| == |ms| &&
                     exists i :: (0 <= i < |ms| && ms[i].id == id &&
                                  after == ms[i := ms[i].(enabled := false, updatedAt := now)])))
  {
    if ModelIndex(ms, id).Some? {
      var i := ModelIndex(ms, id).value;
      assert ms[i].id == id;
    }
  }

  /** Deleting twice returns true and leaves what one delete at the later time leaves. */
  lemma {:induction false} DeleteTwice(ms: seq<ModelRecord>, id: string, t1: int, t2: int)
    ensures var once := Delete(ms, id, t1).0;
      Delete(once, id, t2) == (Delete(ms, id, t2).0, Delete(ms, id, t1).1)
  {
    var once := Delete(ms, id, t1).0;
    if ModelIndex(ms, id).Some? {
      var i := ModelIndex(ms, id).value;
      ModelIndexAt(once, id, i);
      assert once[i := once[i].(enabled := false, updatedAt := t2)] == ms[i := ms[i].(enabled := false, updatedAt := t2)];
    }
  }

  /** Deleting never removes a record and never changes an id. */
  lemma {:induction false} DeleteKeepsIds(ms: seq<ModelRecord>, id: string, now: int)
    ensures var after := Delete(ms, id, now).0;
      |after| == |ms| &&
      forall j :: 0 <= j < |ms| ==>
        (after[j].id == ms[j].id && after[j].originalName == ms[j].originalName &&
         after[j].providerId == ms[j].providerId && after[j].displayName == ms[j].displayName)
  {
  }

  // ---------------------------------------------------------------------------
  // get_model_statistics
  // ---------------------------------------------------------------------------

  predicate IsEnabled(m: ModelRecord) { m.enabled }
  predicate IsDisabled(m: ModelRecord) { !m.enabled }
  /** `display_name IS NOT NULL`: an empty display name counts as renamed. */
  predicate IsRenamed(m: ModelRecord) { m.displayName.Some? }

  /** The enabled models of one source. */
  function EnabledOf(ms: seq<ModelRecord>, sourceId: string): nat {
    Count(ms, (m: ModelRecord) => m.enabled && m.providerId == sourceId)
  }

  /** `models_by_source`: each source with at least one enabled model, with its count, in table order. */
  function BySource(sources: seq<Source>, ms: seq<ModelRecord>): (r: seq<(string, nat)>)
    ensures forall k :: 0 <= k < |r| ==> r[k].1 > 0 && exists s :: s in sources && r[k] == (s.name, EnabledOf(ms, s.id))
    ensures forall s :: s in sources && EnabledOf(ms, s.id) > 0 ==> (s.name, EnabledOf(ms, s.id)) in r
  {
    if sources == [] then []
    else
      var init := BySource(sources[..|sources| - 1], ms);
      var s := sources[|sources| - 1];
      assert forall x :: x in sources ==> x in sources[..|sources| - 1] || x == s;
      if EnabledOf(ms, s.id) > 0 then init + [(s.name, EnabledOf(ms, s.id))] else init
  }

  datatype ModelStatistics = ModelStatistics(
    totalModels: nat,
    enabledModels: nat,
    deletedModels: int,
    renamedModels: nat,
    modelsBySource: seq<(string, nat)>)

  /** What `get_model_statistics` reports. */
  function Statistics(ms: seq<ModelRecord>, sources: seq<Source>): ModelStatistics {
    var total, enabled := |ms|, Count(ms, IsEnabled);
    ModelStatistics(total, enabled, total - enabled, Count(ms, IsRenamed), BySource(sources, ms))
  }

  /** The deleted count, computed as total minus enabled, is the number of disabled records. */
  lemma {:induction false} DeletedAreDisabled(ms: seq<ModelRecord>, sources: seq<Source>)
    ensures Statistics(ms, sources).deletedModels == Count(ms, IsDisabled) >= 0
    ensures Statistics(ms, sources).enabledModels + Statistics(ms, sources).deletedModels == Statistics(ms, sources).totalModels
  {
    CountComplement(ms, IsEnabled, IsDisabled);
  }

  /** A delete moves its record from enabled to deleted when it was enabled; the total is unchanged. */
  lemma {:induction false} DeleteStatistics(ms: seq<ModelRecord>, sources: seq<Source>, id: string, now: int, i: nat)
    requires i < |ms| && ms[i].id == id && forall j :: 0 <= j < i ==> ms[j].id != id
    ensures var before, after := Statistics(ms, sources), Statistics(Delete(ms, id, now).0, sources);
      && after.totalModels == before.totalModels
      && after.enabledModels == before.enabledModels - (if ms[i].enabled then 1 else 0)
      && after.deletedModels == before.deletedModels + (if ms[i].enabled then 1 else 0)
      && after.renamedModels == before.renamedModels
  {
    assert ModelIndex(ms, id) == Some(i);
    var m := ms[i].(enabled := false, updatedAt := now);
    CountUpdate(ms, i, m, IsEnabled);
    CountUpdate(ms, i, m, IsRenamed);
  }

  /** A created record adds one enabled model; an updated one leaves total and enabled counts as they were. */
  lemma {:induction false} UpsertStatistics(ms: seq<ModelRecord>, sources: seq<Source>, data: ModelData, newId: string, now: int)
    ensures var (after, out) := Upsert(ms, data, newId, now);
      var s, t := Statistics(ms, sources), Statistics(after, sources);
      && (|after| == |ms| ==> t.totalModels == s.totalModels && t.enabledModels == s.enabledModels)
      && (|after| != |ms| ==> t.totalModels == s.totalModels + 1 && t.enabledModels == s.enabledModels + 1)
  {
    var (after, out) := Upsert(ms, data, newId, now);
    if data.originalName.Some? && data.providerId.Some? {
      match KeyIndex(ms, data.originalName.value, data.providerId.value)
      case Some(i) =>
        CountUpdate(ms, i, UpdatedRecord(ms[i], data, now), IsEnabled);
      case None =>
        if data.normalizedName.Some? {
          assert after[..|ms|] == ms;
        }
    }
  }

  /** A rename adds one renamed model when the record had no display name before. */
  lemma {:induction false} RenameStatistics(ms: seq<ModelRecord>, sources: seq<Source>, id: string, newName: string, now: int, i: nat)
    requires i < |ms| && ms[i].id == id && forall j :: 0 <= j < i ==> ms[j].id != id
    ensures var (after, out) := Rename(ms, id, newName, now);
      var s, t := Statistics(ms, sources), Statistics(after, sources);
      && t.totalModels == s.totalModels && t.enabledModels == s.enabledModels
      && (out.Returns? ==> t.renamedModels == s.renamedModels + (if ms[i].displayName.None? then 1 else 0))
      && (out.Raises? ==> t == s)
  {
    assert ModelIndex(ms, id) == Some(i);
    var m := ms[i].(displayName := Some(newName), updatedAt := now);
    CountUpdate(ms, i, m, IsEnabled);
    CountUpdate(ms, i, m, IsRenamed);
  }

  // ---------------------------------------------------------------------------
  // split_providers_by_model
  // ---------------------------------------------------------------------------

  /** The id of the provider split off for the model at `index`: `"{source.name}-{index}"`. */
  function SplitId(source: Source, index: nat): string {
    source.name + "-" + NatToString(index)
  }

  /** Different indexes give different ids. */
  lemma {:induction false} SplitIdInjective(source: Source, a: nat, b: nat)
    requires a != b
    ensures SplitId(source, a) != SplitId(source, b)
  {
    var n := |source.name| + 1;
    assert SplitId(source, a)[n..] == NatToString(a);
    assert SplitId(source, b)[n..] == NatToString(b);
    if NatToString(a) == NatToString(b) {
      NatToStringInjective(a, b);
    }
  }

  /** The provider created for the model at `index`: the source's address, key and priority, enabled. */
  function SplitProvider(source: Source, index: nat): Source {
    var id := SplitId(source, index);
    Source(id, id, source.baseUrl, source.apiKey, true, source.priority)
  }

  /** One element of the returned list. */
  datatype SplitEntry = SplitEntry(id: string, model: string, originalModel: string, modelId: string)

  function SplitEntryOf(source: Source, index: nat, m: ModelRecord): SplitEntry {
    SplitEntry(SplitId(source, index), Unified(m), m.originalName, m.id)
  }

  /** The enabled models of one source, in table order. */
  function SourceModels(ms: seq<ModelRecord>, sourceId: string): (r: seq<ModelRecord>)
    ensures forall k :: 0 <= k < |r| ==> r[k] in ms && r[k].enabled && r[k].providerId == sourceId
    ensures forall m :: m in ms && m.enabled && m.providerId == sourceId ==> m in r
  {
    if ms == [] then []
    else
      var init := SourceModels(ms[..|ms| - 1], sourceId);
      var last := ms[|ms| - 1];
      assert forall m :: m in ms ==> m in ms[..|ms| - 1] || m == last;
      if last.enabled && last.providerId == sourceId then init + [last] else init
  }

  /** A row of `providers` has this id. */
  predicate HasProvider(ps: seq<Source>, id: string) {
    SourceIndex(ps, id).Some?
  }

  /** The indexes below `n` whose candidate id is not yet a provider, in increasing order. */
  function FreshIndices(source: Source, providers: seq<Source>, n: nat): (r: seq<nat>)
    ensures forall k :: 0 <= k < |r| ==> r[k] < n && !HasProvider(providers, SplitId(source, r[k]))
    ensures forall i :: 0 <= i < n && !HasProvider(providers, SplitId(source, i)) ==> i in r
    ensures forall a, b :: 0 <= a < b < |r| ==> r[a] < r[b]
  {
    if n == 0 then []
    else FreshIndices(source, providers, n - 1) + (if HasProvider(providers, SplitId(source, n - 1)) then [] else [n - 1])
  }

  function NewProviders(source: Source, indices: seq<nat>): (r: seq<Source>)
    ensures |r| == |indices| && forall k :: 0 <= k < |r| ==> r[k] == SplitProvider(source, indices[k])
  {
    seq(|indices|, k requires 0 <= k < |indices| => SplitProvider(source, indices[k]))
  }

  function NewEntries(source: Source, models: seq<ModelRecord>, indices: seq<nat>): (r: seq<SplitEntry>)
    requires forall k :: 0 <= k < |indices| ==> indices[k] < |models|
    ensures |r| == |indices| && forall k :: 0 <= k < |r| ==> r[k] == SplitEntryOf(source, indices[k], models[indices[k]])
  {
    seq(|indices|, k requires 0 <= k < |indices| => SplitEntryOf(source, indices[k], models[indices[k]]))
  }

  /**
    * The providers after `split_providers_by_model` and the list it returns:
    * nothing for an unknown source or one without enabled models; otherwise
    * a provider for each enabled model whose candidate id is not taken yet.
    */
  function SplitProviders(sources: seq<Source>, providers: seq<Source>, ms: seq<ModelRecord>, sourceId: string)
    : (r: (seq<Source>, seq<SplitEntry>))
  {
    match SourceIndex(sources, sourceId)
    case None => (providers, [])
    case Some(i) =>
      var models := SourceModels(ms, sourceId);
      if models == [] then (providers, [])
      else
        var indices := FreshIndices(sources[i], providers, |models|);
        (providers + NewProviders(sources[i], indices), NewEntries(sources[i], models, indices))
  }

  /** An unknown source, or one without enabled models, yields nothing and adds nothing. */
  lemma {:induction false} SplitNothing(sources: seq<Source>, providers: seq<Source>, ms: seq<ModelRecord>, sourceId: string)
    requires (forall j :: 0 <= j < |sources| ==> sources[j].id != sourceId) ||
             (forall m :: m in ms ==> !m.enabled || m.providerId != sourceId)
    ensures SplitProviders(sources, providers, ms, sourceId) == (providers, [])
  {
    var models := SourceModels(ms, sourceId);
    if models != [] {
      assert models[0] in ms;
    }
  }

  /**
    * For a known source, the providers table only grows, by one enabled
    * provider per returned entry, copying the source's address, key and
    * priority; the returned entries are exactly the enabled models whose
    * candidate id `"{name}-{index}"` was not yet a provider.
    */
  lemma {:induction false} SplitCreatesFresh(sources: seq<Source>, providers: seq<Source>, ms: seq<ModelRecord>, sourceId: string, i: nat)
    requires i < |sources| && sources[i].id == sourceId && forall j :: 0 <= j < i ==> sources[j].id != sourceId
    ensures var (after, split) := SplitProviders(sources, providers, ms, sourceId);
      CreatesFresh(sources[i], providers, SourceModels(ms, sourceId), after, split)
  {
    assert SourceIndex(sources, sourceId) == Some(i);
    var models := SourceModels(ms, sourceId);
    if models == [] {
      assert providers[..|providers|] == providers;
    } else {
      FreshEntries(sources[i], providers, models);
    }
  }

  /**
    * `after` is `providers` followed by one enabled provider per entry of
    * `split`, named by the entry's id and copying the source's address, key
    * and priority; the entries are exactly the models at indexes whose
    * candidate id was not a provider.
    */
  ghost predicate CreatesFresh(source: Source, providers: seq<Source>, models: seq<ModelRecord>,
                               after: seq<Source>, split: seq<SplitEntry>)
  {
    && |after| == |providers| + |split| && after[..|providers|] == providers
    && (forall k :: 0 <= k < |split| ==>
          && after[|providers| + k].id == split[k].id == after[|providers| + k].name
          && after[|providers| + k].baseUrl == source.baseUrl && after[|providers| + k].apiKey == source.apiKey
          && after[|providers| + k].priority == source.priority && after[|providers| + k].enabled
          && !HasProvider(providers, split[k].id))
    && (forall k :: 0 <= k < |split| ==>
          exists n :: 0 <= n < |models| && split[k] == SplitEntryOf(source, n, models[n]))
    && (forall n :: 0 <= n < |models| && !HasProvider(providers, SplitId(source, n)) ==>
          SplitEntryOf(source, n, models[n]) in split)
  }

  lemma {:induction false} FreshEntries(source: Source, providers: seq<Source>, models: seq<ModelRecord>)
    ensures var indices := FreshIndices(source, providers, |models|);
      CreatesFresh(source, providers, models, providers + NewProviders(source, indices), NewEntries(source, models, indices))
  {
    var indices := FreshIndices(source, providers, |models|);
    var after, split := providers + NewProviders(source, indices), NewEntries(source, models, indices);
    assert after[..|providers|] == providers;
    forall k | 0 <= k < |split| ensures exists n :: 0 <= n < |models| && split[k] == SplitEntryOf(source, n, models[n]) {
      assert split[k] == SplitEntryOf(source, indices[k], models[indices[k]]);
    }
    forall n | 0 <= n < |models| && !HasProvider(providers, SplitId(source, n))
      ensures SplitEntryOf(source, n, models[n]) in split
    {
      var k :| 0 <= k < |indices| && indices[k] == n;
      assert split[k] == SplitEntryOf(source, n, models[n]);
    }
  }

  /** A provider id that occurs in the table is found by the lookup. */
  lemma {:induction false} HasProviderAt(ps: seq<Source>, j: nat, id: string)
    requires j < |ps| && ps[j].id == id
    ensures HasProvider(ps, id)
  {
    assert !(ps[j].id != id);
  }

  /** Adding providers for increasing indexes whose ids are all free keeps provider ids unique. */
  lemma {:induction false} FreeProvidersDistinct(source: Source, providers: seq<Source>, indices: seq<nat>)
    requires DistinctSourceIds(providers)
    requires forall k :: 0 <= k < |indices| ==> !HasProvider(providers, SplitId(source, indices[k]))
    requires forall a, b :: 0 <= a < b < |indices| ==> indices[a] < indices[b]
    ensures DistinctSourceIds(providers + NewProviders(source, indices))
  {
    var added := NewProviders(source, indices);
    var after := providers + added;
    var m := |providers|;
    forall a, b | 0 <= a < b < |after| ensures after[a].id != after[b].id {
      if b >= m {
        var id := SplitId(source, indices[b - m]);
        assert after[b].id == id;
        if a >= m {
          assert after[a].id == SplitId(source, indices[a - m]);
          SplitIdInjective(source, indices[a - m], indices[b - m]);
        } else {
          assert after[a] == providers[a];
          HasProviderAt(providers, a, providers[a].id);
          assert !HasProvider(providers, id);
        }
      } else {
        assert after[a] == providers[a] && after[b] == providers[b];
      }
    }
  }

  /** Adding the providers for the fresh indexes keeps provider ids unique. */
  lemma {:induction false} FreshProvidersDistinct(source: Source, providers: seq<Source>, n: nat)
    requires DistinctSourceIds(providers)
    ensures DistinctSourceIds(providers + NewProviders(source, FreshIndices(source, providers, n)))
  {
    FreeProvidersDistinct(source, providers, FreshIndices(source, providers, n));
  }

  /** When every candidate id below `n` is taken, no index is fresh. */
  lemma {:induction false} NoFreshLeft(source: Source, ps: seq<Source>, n: nat)
    requires forall i :: 0 <= i < n ==> HasProvider(ps, SplitId(source, i))
    ensures FreshIndices(source, ps, n) == []
  {
    if n > 0 {
      NoFreshLeft(source, ps, n - 1);
    }
  }

  /** After adding the fresh providers, every candidate id below `n` is taken. */
  lemma {:induction false} FreshProvidersCover(source: Source, providers: seq<Source>, n: nat)
    ensures FreshIndices(source, providers + NewProviders(source, FreshIndices(source, providers, n)), n) == []
  {
    var indices := FreshIndices(source, providers, n);
    var added := NewProviders(source, indices);
    var after := providers + added;
    forall i | 0 <= i < n ensures HasProvider(after, SplitId(source, i)) {
      var id := SplitId(source, i);
      if HasProvider(providers, id) {
        var j := SourceIndex(providers, id).value;
        assert after[j] == providers[j];
        HasProviderAt(after, j, id);
      } else {
        var k :| 0 <= k < |indices| && indices[k] == i;
        assert after[|providers| + k] == added[k];
        HasProviderAt(after, |providers| + k, id);
      }
    }
    NoFreshLeft(source, after, n);
  }

  /** The created providers carry distinct ids that were not present, so provider ids stay unique. */
  lemma {:induction false} SplitKeepsIdsUnique(sources: seq<Source>, providers: seq<Source>, ms: seq<ModelRecord>, sourceId: string)
    requires DistinctSourceIds(providers)
    ensures DistinctSourceIds(SplitProviders(sources, providers, ms, sourceId).0)
  {
    match SourceIndex(sources, sourceId)
    case None =>
    case Some(i) =>
      FreshProvidersDistinct(sources[i], providers, |SourceModels(ms, sourceId)|);
  }

  /** Splitting a second time creates nothing: every candidate id now exists. */
  lemma {:induction false} SplitTwice(sources: seq<Source>, providers: seq<Source>, ms: seq<ModelRecord>, sourceId: string)
    ensures var after := SplitProviders(sources, providers, ms, sourceId).0;
      SplitProviders(sources, after, ms, sourceId) == (after, [])
  {
    match SourceIndex(sources, sourceId)
    case None =>
    case Some(i) =>
      var models := SourceModels(ms, sourceId);
      if models != [] {
        FreshProvidersCover(sources[i], providers, |models|);
        var after := providers + NewProviders(sources[i], FreshIndices(sources[i], providers, |models|));
        assert NewProviders(sources[i], []) == [];
        assert after + [] == after;
      }
  }

  // ---------------------------------------------------------------------------
  // batch_rename_models and batch_delete_models
  // ---------------------------------------------------------------------------

  /** One element of `renames`; `None` is a key that is not in the dict. */
  datatype RenameRequest = RenameRequest(modelId: Option<string>, newName: Option<string>)

  /** An entry of a batch's failure list. */
  datatype Failure = Failure(modelId: Option<string>, error: string)

  /** Python's truthiness of an optional string: present and non-empty. */
  predicate Given(v: Option<string>) {
    v.Some? && v.value != []
  }

  /**
    * The models table during `batch_rename_models`, with the ids renamed so
    * far and the failures so far. The returned models are the session's live
    * objects, so the model lists their ids.
    */
  datatype RenameBatch = RenameBatch(models: seq<ModelRecord>, updated: seq<string>, failed: seq<Failure>)

  /** One request: a missing argument fails without a rename; otherwise `rename_model` decides. */
  function RenameStep(b: RenameBatch, req: RenameRequest, now: int): RenameBatch {
    if !Given(req.modelId) || !Given(req.newName) then
      b.(failed := b.failed + [Failure(req.modelId, MissingArguments)])
    else
      var (after, out) := Rename(b.models, req.modelId.value, req.newName.value, now);
      match out
      case Returns(Some(_)) => RenameBatch(after, b.updated + [req.modelId.value], b.failed)
      case Returns(None) => b.(failed := b.failed + [Failure(req.modelId, ModelNotFound)])
      case Raises(e) => b.(failed := b.failed + [Failure(req.modelId, ErrorText(e))])
  }

  /** The whole batch, one request after the other. */
  function BatchRename(ms: seq<ModelRecord>, reqs: seq<RenameRequest>, now: int): RenameBatch {
    if reqs == [] then RenameBatch(ms, [], [])
    else RenameStep(BatchRename(ms, reqs[..|reqs| - 1], now), reqs[|reqs| - 1], now)
  }

  /** The batch over the first `k + 1` requests is one more step after the batch over the first `k`. */
  lemma {:induction false} BatchRenamePrefix(ms: seq<ModelRecord>, reqs: seq<RenameRequest>, k: nat, now: int)
    requires k < |reqs|
    ensures BatchRename(ms, reqs[..k + 1], now) == RenameStep(BatchRename(ms, reqs[..k], now), reqs[k], now)
  {
    assert reqs[..k + 1][..k] == reqs[..k];
  }

  /** Every request ends up either renamed or failed: `len(updated) + len(failed) == len(renames)`. */
  lemma {:induction false} BatchRenameCounts(ms: seq<ModelRecord>, reqs: seq<RenameRequest>, now: int)
    ensures |BatchRename(ms, reqs, now).updated| + |BatchRename(ms, reqs, now).failed| == |reqs|
  {
    if reqs != [] {
      BatchRenameCounts(ms, reqs[..|reqs| - 1], now);
    }
  }

  /**
    * A request without a model id or a new name is recorded as failed with
    * "缺少必要参数" and the store is left as it was; a complete one changes
    * the store exactly as `rename_model` would.
    */
  lemma {:induction false} RenameStepEffect(b: RenameBatch, req: RenameRequest, now: int)
    ensures var c := RenameStep(b, req, now);
      && (!Given(req.modelId) || !Given(req.newName) ==>
            c == b.(failed := b.failed + [Failure(req.modelId, MissingArguments)]))
      && (Given(req.modelId) && Given(req.newName) ==>
            c.models == Rename(b.models, req.modelId.value, req.newName.value, now).0)
      && (c.updated == b.updated || c.updated == b.updated + [req.modelId.value])
  {
  }

  /** A batch of renames keeps ids, keys and per-source display names unique. */
  lemma {:induction false} BatchRenameKeepsUnique(ms: seq<ModelRecord>, reqs: seq<RenameRequest>, now: int)
    requires IdsUnique(ms) && KeysUnique(ms) && DisplayNamesUnique(ms)
    ensures var after := BatchRename(ms, reqs, now).models;
      IdsUnique(after) && KeysUnique(after) && DisplayNamesUnique(after)
  {
    if reqs != [] {
      var b := BatchRename(ms, reqs[..|reqs| - 1], now);
      BatchRenameKeepsUnique(ms, reqs[..|reqs| - 1], now);
      var req := reqs[|reqs| - 1];
      if Given(req.modelId) && Given(req.newName) {
        RenameKeepsUnique(b.models, req.modelId.value, req.newName.value, now);
      }
    }
  }

  /** The models table during `batch_delete_models`, with the count deleted and the failures so far. */
  datatype DeleteBatch = DeleteBatch(models: seq<ModelRecord>, deleted: nat, failed: seq<Failure>)

  function DeleteStep(b: DeleteBatch, id: string, now: int): DeleteBatch {
    var (after, found) := Delete(b.models, id, now);
    if found then DeleteBatch(after, b.deleted + 1, b.failed)
    else b.(failed := b.failed + [Failure(Some(id), ModelNotFound)])
  }

  function BatchDelete(ms: seq<ModelRecord>, ids: seq<string>, now: int): DeleteBatch {
    if ids == [] then DeleteBatch(ms, 0, [])
    else DeleteStep(BatchDelete(ms, ids[..|ids| - 1], now), ids[|ids| - 1], now)
  }

  /** The batch over the first `k + 1` ids is one more step after the batch over the first `k`. */
  lemma {:induction false} BatchDeletePrefix(ms: seq<ModelRecord>, ids: seq<string>, k: nat, now: int)
    requires k < |ids|
    ensures BatchDelete(ms, ids[..k + 1], now) == DeleteStep(BatchDelete(ms, ids[..k], now), ids[k], now)
  {
    assert ids[..k + 1][..k] == ids[..k];
  }

  /** No model has this id. */
  predicate Unknown(ms: seq<ModelRecord>, id: string) {
    forall j :: 0 <= j < |ms| ==> ms[j].id != id
  }

  /**
    * `deleted_count + len(failed) == len(model_ids)`; the failures are
    * exactly the ids no model has, each with "模型不存在"; afterwards a model
    * is enabled exactly when it was before and its id was not in the batch,
    * and nothing else about any record but its update time changes.
    */
  lemma {:induction false} BatchDeleteEffect(ms: seq<ModelRecord>, ids: seq<string>, now: int)
    requires IdsUnique(ms)
    ensures var b := BatchDelete(ms, ids, now);
      && b.deleted + |b.failed| == |ids|
      && (forall f :: f in b.failed ==> f.error == ModelNotFound && f.modelId.Some? && f.modelId.value in ids && Unknown(ms, f.modelId.value))
      && (forall x :: x in ids && Unknown(ms, x) ==> Failure(Some(x), ModelNotFound) in b.failed)
      && |b.models| == |ms|
      && (forall j :: 0 <= j < |ms| ==>
            && b.models[j].enabled == (ms[j].enabled && ms[j].id !in ids)
            && b.models[j] == ms[j].(enabled := b.models[j].enabled, updatedAt := b.models[j].updatedAt))
  {
    if ids != [] {
      var init := ids[..|ids| - 1];
      var x := ids[|ids| - 1];
      BatchDeleteEffect(ms, init, now);
      var b := BatchDelete(ms, init, now);
      assert forall y :: y in ids <==> y in init || y == x;
      assert forall j :: 0 <= j < |ms| ==> b.models[j].id == ms[j].id;
      match ModelIndex(b.models, x)
      case None =>
      case Some(i) =>
        forall j | 0 <= j < |ms| && j != i ensures ms[j].id != x {
          assert b.models[j].id == ms[j].id;
        }
    }
  }

  // ---------------------------------------------------------------------------
  // The service over its tables
  // ---------------------------------------------------------------------------

  /** The split loop's next step: the fresh indexes and what they add grow by at most one. */
  lemma {:induction false} FreshStep(source: Source, initial: seq<Source>, models: seq<ModelRecord>, index: nat)
    requires index < |models|
    ensures var before, after := FreshIndices(source, initial, index), FreshIndices(source, initial, index + 1);
      && (HasProvider(initial, SplitId(source, index)) ==> after == before)
      && (!HasProvider(initial, SplitId(source, index)) ==>
            && NewProviders(source, after) == NewProviders(source, before) + [SplitProvider(source, index)]
            && NewEntries(source, models, after) ==
                 NewEntries(source, models, before) + [SplitEntryOf(source, index, models[index])])
  {
    var before, after := FreshIndices(source, initial, index), FreshIndices(source, initial, index + 1);
    if HasProvider(initial, SplitId(source, index)) {
      assert after == before + [];
    } else {
      assert after == before + [index];
      NewProvidersSnoc(source, before, index);
      NewEntriesSnoc(source, models, before, index);
    }
  }

  lemma {:induction false} NewProvidersSnoc(source: Source, indices: seq<nat>, i: nat)
    ensures NewProviders(source, indices + [i]) == NewProviders(source, indices) + [SplitProvider(source, i)]
  {
    var ps, ps' := NewProviders(source, indices), NewProviders(source, indices + [i]);
    assert forall k :: 0 <= k < |ps| ==> ps'[k] == ps[k];
  }

  lemma {:induction false} NewEntriesSnoc(source: Source, models: seq<ModelRecord>, indices: seq<nat>, i: nat)
    requires i < |models| && forall k :: 0 <= k < |indices| ==> indices[k] < |models|
    ensures NewEntries(source, models, indices + [i]) ==
            NewEntries(source, models, indices) + [SplitEntryOf(source, i, models[i])]
  {
    var es, es' := NewEntries(source, models, indices), NewEntries(source, models, indices + [i]);
    assert forall k :: 0 <= k < |es| ==> es'[k] == es[k];
  }

  /** The split loop's state after the first `index` models: the fresh ones among them were added. */
  ghost predicate SplitSoFar(source: Source, initial: seq<Source>, enabled: seq<ModelRecord>, index: nat,
                             providers: seq<Source>, split: seq<SplitEntry>)
    requires index <= |enabled|
  {
    && providers == initial + NewProviders(source, FreshIndices(source, initial, index))
    && split == NewEntries(source, enabled, FreshIndices(source, initial, index))
  }

  /** One turn of the split loop keeps the loop's description of the providers and the entries. */
  lemma {:induction false} SplitLoopStep(source: Source, initial: seq<Source>, enabled: seq<ModelRecord>, index: nat,
                      providers: seq<Source>, split: seq<SplitEntry>)
    requires index < |enabled| && SplitSoFar(source, initial, enabled, index, providers, split)
    ensures if HasProvider(providers, SplitId(source, index))
      then SplitSoFar(source, initial, enabled, index + 1, providers, split)
      else SplitSoFar(source, initial, enabled, index + 1, providers + [SplitProvider(source, index)],
                      split + [SplitEntryOf(source, index, enabled[index])])
  {
    FreshStep(source, initial, enabled, index);
    AddedDoNotClash(source, initial, index);
    var next := FreshIndices(source, initial, index + 1);
    if HasProvider(providers, SplitId(source, index)) {
      assert SplitSoFar(source, initial, enabled, index + 1, providers, split);
    } else {
      ConcatAssoc(initial, NewProviders(source, FreshIndices(source, initial, index)), [SplitProvider(source, index)]);
      assert SplitSoFar(source, initial, enabled, index + 1, providers + [SplitProvider(source, index)],
                        split + [SplitEntryOf(source, index, enabled[index])]);
    }
  }

  /** The providers added so far carry ids of smaller indexes, so they do not decide the next check. */
  lemma {:induction false} AddedDoNotClash(source: Source, initial: seq<Source>, index: nat)
    ensures HasProvider(initial + NewProviders(source, FreshIndices(source, initial, index)), SplitId(source, index))
            == HasProvider(initial, SplitId(source, index))
  {
    var indices := FreshIndices(source, initial, index);
    var added := NewProviders(source, indices);
    var all := initial + added;
    var id := SplitId(source, index);
    forall k | 0 <= k < |added| ensures added[k].id != id {
      SplitIdInjective(source, indices[k], index);
    }
    if HasProvider(initial, id) {
      var j := SourceIndex(initial, id).value;
      assert all[j] == initial[j];
      HasProviderAt(all, j, id);
    } else {
      forall j | 0 <= j < |all| ensures all[j].id != id {
        if j >= |initial| {
          assert all[j] == added[j - |initial|];
        } else {
          assert all[j] == initial[j];
        }
      }
    }
  }

  /** The database as the service sees it: the three tables it reads and writes. */
  class Store {
    var models: seq<ModelRecord>
    var sources: seq<Source>
    var providers: seq<Source>

    constructor(models: seq<ModelRecord>, sources: seq<Source>, providers: seq<Source>)
      ensures this.models == models && this.sources == sources && this.providers == providers
    {
      this.models := models;
      this.sources := sources;
      this.providers := providers;
    }

    /** `create_or_update_model`. */
    method CreateOrUpdateModel(data: ModelData, newId: string, now: int) returns (r: Outcome<ModelRecord>)
      modifies this
      ensures (models, r) == Upsert(old(models), data, newId, now)
      ensures sources == old(sources) && providers == old(providers)
    {
      if data.originalName.None? {
        return Raises(KeyError("original_name"));
      }
      if data.providerId.None? {
        return Raises(KeyError("provider_id"));
      }
      var existing := KeyIndex(models, data.originalName.value, data.providerId.value);
      if existing.Some? {
        var i := existing.value;
        var m := models[i].(normalizedName := data.normalizedName.GetOr(models[i].normalizedName));
        if data.displayName.Some? {
          m := m.(displayName := data.displayName.value);
        }
        m := m.(updatedAt := now);
        models := models[i := m];
        return Returns(m);
      }
      if data.normalizedName.None? {
        return Raises(KeyError("normalized_name"));
      }
      var m := ModelRecord(newId, data.originalName.value, data.normalizedName.value,
                           data.displayName.GetOr(None), data.providerId.value, true, now, now);
      models := models + [m];
      r := Returns(m);
    }

    /** `rename_model`. */
    method RenameModel(modelId: string, newName: string, now: int) returns (r: Outcome<Option<ModelRecord>>)
      modifies this
      ensures (models, r) == Rename(old(models), modelId, newName, now)
      ensures sources == old(sources) && providers == old(providers)
    {
      var found := ModelIndex(models, modelId);
      if found.None? {
        return Returns(None);
      }
      var i := found.value;
      var existing := ClashIndex(models, modelId, models[i].providerId, newName);
      if existing.Some? {
        return Raises(ValueError(NameInUse(newName)));
      }
      var m := models[i].(displayName := Some(newName), updatedAt := now);
      models := models[i := m];
      r := Returns(Some(m));
    }

    /** `delete_model`: a soft delete. */
    method DeleteModel(modelId: string, now: int) returns (deleted: bool)
      modifies this
      ensures (models, deleted) == Delete(old(models), modelId, now)
      ensures sources == old(sources) && providers == old(providers)
    {
      var found := ModelIndex(models, modelId);
      if found.None? {
        return false;
      }
      var i := found.value;
      models := models[i := models[i].(enabled := false, updatedAt := now)];
      deleted := true;
    }

    /** `split_providers_by_model`. */
    method SplitProvidersByModel(sourceId: string) returns (split: seq<SplitEntry>)
      modifies this
      ensures (providers, split) == SplitProviders(old(sources), old(providers), old(models), sourceId)
      ensures models == old(models) && sources == old(sources)
    {
      split := [];
      var found := SourceIndex(sources, sourceId);
      if found.None? {
        return;
      }
      var source := sources[found.value];
      var enabled := SourceModels(models, sourceId);
      if enabled == [] {
        return;
      }
      split := AddSplitProviders(source, enabled);
    }

    /** The loop of `split_providers_by_model` over the source's enabled models. */
    method AddSplitProviders(source: Source, enabled: seq<ModelRecord>) returns (split: seq<SplitEntry>)
      modifies this
      ensures providers == old(providers) + NewProviders(source, FreshIndices(source, old(providers), |enabled|))
      ensures split == NewEntries(source, enabled, FreshIndices(source, old(providers), |enabled|))
      ensures models == old(models) && sources == old(sources)
    {
      split := [];
      ghost var initial := providers;
      var index := 0;
      while index < |enabled|
        invariant 0 <= index <= |enabled|
        invariant models == old(models) && sources == old(sources)
        invariant SplitSoFar(source, initial, enabled, index, providers, split)
      {
        var model := enabled[index];
        var providerId := source.name + "-" + NatToString(index);
        assert providerId == SplitId(source, index);
        var unifiedName := Unified(model);
        SplitLoopStep(source, initial, enabled, index, providers, split);
        if !HasProvider(providers, providerId) {
          var provider := Source(providerId, providerId, source.baseUrl, source.apiKey, true, source.priority);
          var entry := SplitEntry(providerId, unifiedName, model.originalName, model.id);
          assert provider == SplitProvider(source, index) && entry == SplitEntryOf(source, index, model);
          providers := providers + [provider];
          split := split + [entry];
        }
        index := index + 1;
      }
    }

    /** `get_model_statistics`. */
    method GetModelStatistics() returns (statistics: ModelStatistics)
      ensures statistics == Statistics(models, sources)
    {
      var total := |models|;
      var enabled := Count(models, IsEnabled);
      var deleted := total - enabled;
      var renamed := Count(models, IsRenamed);
      statistics := ModelStatistics(total, enabled, deleted, renamed, BySource(sources, models));
    }

    /** `batch_rename_models`: the renamed ids and the failures. */
    method BatchRenameModels(renames: seq<RenameRequest>, now: int) returns (updated: seq<string>, failed: seq<Failure>)
      modifies this
      ensures RenameBatch(models, updated, failed) == BatchRename(old(models), renames, now)
      ensures sources == old(sources) && providers == old(providers)
    {
      updated, failed := [], [];
      var k := 0;
      while k < |renames|
        invariant 0 <= k <= |renames|
        invariant RenameBatch(models, updated, failed) == BatchRename(old(models), renames[..k], now)
        invariant sources == old(sources) && providers == old(providers)
      {
        var rename := renames[k];
        ghost var before := RenameBatch(models, updated, failed);
        BatchRenamePrefix(old(models), renames, k, now);
        if !Given(rename.modelId) || !Given(rename.newName) {
          failed := failed + [Failure(rename.modelId, MissingArguments)];
        } else {
          var out := RenameModel(rename.modelId.value, rename.newName.value, now);
          match out
          case Returns(Some(_)) =>
            updated := updated + [rename.modelId.value];
          case Returns(None) =>
            failed := failed + [Failure(rename.modelId, ModelNotFound)];
          case Raises(e) =>
            failed := failed + [Failure(rename.modelId, ErrorText(e))];
        }
        assert RenameBatch(models, updated, failed) == RenameStep(before, rename, now);
        k := k + 1;
      }
      assert renames[..|renames|] == renames;
    }

    /** `batch_delete_models`: how many were deleted and the failures. */
    method BatchDeleteModels(modelIds: seq<string>, now: int) returns (deletedCount: nat, failed: seq<Failure>)
      modifies this
      ensures DeleteBatch(models, deletedCount, failed) == BatchDelete(old(models), modelIds, now)
      ensures sources == old(sources) && providers == old(providers)
    {
      deletedCount, failed := 0, [];
      var k := 0;
      while k < |modelIds|
        invariant 0 <= k <= |modelIds|
        invariant DeleteBatch(models, deletedCount, failed) == BatchDelete(old(models), modelIds[..k], now)
        invariant sources == old(sources) && providers == old(providers)
      {
        var modelId := modelIds[k];
        ghost var before := DeleteBatch(models, deletedCount, failed);
        BatchDeletePrefix(old(models), modelIds, k, now);
        var success := DeleteModel(modelId, now);
        if success {
          deletedCount := deletedCount + 1;
        } else {
          failed := failed + [Failure(Some(modelId), ModelNotFound)];
        }
        assert DeleteBatch(models, deletedCount, failed) == DeleteStep(before, modelId, now);
        k := k + 1;
      }
      assert modelIds[..|modelIds|] == modelIds;
    }
  }
}
