/**
  * The stored records the services work on: an upstream source (`APISource`,
  * and `Provider`, which has the same columns) and a catalogued model.
  * Timestamps are integers supplied by the caller.
  */
module Records {
  import opened Options
  import opened Seqs

  /** A row of `api_sources` or `providers`. */
  datatype Source = Source(
    id: string,
    name: string,
    baseUrl: string,
    apiKey: string,
    enabled: bool,
    priority: int)

  /** A row of `models`. */
  datatype ModelRecord = ModelRecord(
    id: string,
    originalName: string,
    normalizedName: string,
    displayName: Option<string>,
    providerId: string,
    enabled: bool,
    createdAt: int,
    updatedAt: int)

  /** `model.display_name or model.normalized_name`. */
  function Unified(m: ModelRecord): (u: string)
    ensures m.displayName.Some? && m.displayName.value != [] ==> u == m.displayName.value
    ensures (m.displayName.None? || m.displayName.value == []) ==> u == m.normalizedName
  {
    match m.displayName
    case Some(d) => if d != [] then d else m.normalizedName
    case None => m.normalizedName
  }

  /** `select(Model).where(Model.enabled == True)`, in table order. */
  function EnabledModels(ms: seq<ModelRecord>): (r: seq<ModelRecord>)
    ensures forall i :: 0 <= i < |r| ==> r[i].enabled && r[i] in ms
    ensures forall m :: m in ms && m.enabled ==> m in r
    ensures |r| <= |ms|
  {
    if ms == [] then []
    else
      var init := EnabledModels(ms[..|ms| - 1]);
      var last := ms[|ms| - 1];
      assert forall m :: m in ms ==> m in ms[..|ms| - 1] || m == last;
      if last.enabled then init + [last] else init
  }

  /** `select(Provider).where(Provider.enabled == True)`, in table order. */
  function EnabledSources(ps: seq<Source>): (r: seq<Source>)
    ensures forall i :: 0 <= i < |r| ==> r[i].enabled && r[i] in ps
    ensures forall p :: p in ps && p.enabled ==> p in r
    ensures |r| <= |ps|
  {
    if ps == [] then []
    else
      var init := EnabledSources(ps[..|ps| - 1]);
      var last := ps[|ps| - 1];
      assert forall p :: p in ps ==> p in ps[..|ps| - 1] || p == last;
      if last.enabled then init + [last] else init
  }

  /** Primary keys: no two sources share an id. */
  predicate DistinctSourceIds(ps: seq<Source>) {
    forall i, j :: 0 <= i < j < |ps| ==> ps[i].id != ps[j].id
  }

  /** The row with primary key `id` (`select(...).where(id == id)`). */
  function SourceIndex(ps: seq<Source>, id: string): (r: Option<nat>)
    ensures r.Some? ==> r.value < |ps| && ps[r.value].id == id && forall j :: 0 <= j < r.value ==> ps[j].id != id
    ensures r.None? <==> forall j :: 0 <= j < |ps| ==> ps[j].id != id
  {
    FindFirst(ps, (p: Source) => p.id == id)
  }
}
