/**
  * `validate_config`: the field checks on a gpt-load or uni-api document, as
  * a parsed dict. The documents the generators produce are rendered as such
  * dicts and shown to pass.
  */
module ConfigValidation {
  import opened Options
  import opened Seqs
  import opened PyStr
  import opened Json
  import opened Records
  import opened ConfigGenerator

  // ---------------------------------------------------------------------------
  // Errors
  // ---------------------------------------------------------------------------

  datatype ValidationError =
    | MissingField(field: string)
    | NotAList(field: string)
    | EntryMissing(index: nat, field: string)
    | Raised(message: string)

  /** The text of each error, as the service reports it. */
  function ErrorText(e: ValidationError): string {
    match e
    case MissingField(f) => "\U{7f3a}\U{5c11} '" + f + "' \U{5b57}\U{6bb5}"
    case NotAList(f) => "'" + f + "' \U{5fc5}\U{987b}\U{662f}\U{5217}\U{8868}"
    case EntryMissing(i, f) => "Provider " + NatToString(i) + ": \U{7f3a}\U{5c11} '" + f + "' \U{5b57}\U{6bb5}"
    case Raised(message) => message
  }

  /** The top-level fields that must be present lists. */
  function ListFields(configType: string): seq<string> {
    if configType == "gptload" then ["providers", "groups"]
    else if configType == "uniapi" then ["providers"]
    else []
  }

  /** The fields every entry of `providers` must have. */
  function EntryFields(configType: string): seq<string> {
    if configType == "gptload" then ["name", "base_url", "api_key"]
    else if configType == "uniapi" then ["provider", "base_url"]
    else []
  }

  predicate Checked(configType: string) {
    configType == "gptload" || configType == "uniapi"
  }

  // ---------------------------------------------------------------------------
  // Python's `for x in v` and `key in v`
  // ---------------------------------------------------------------------------

  datatype Iteration = Items(items: seq<Json>) | NotIterable(typeName: string)

  /** `for x in v`: a list's items, a dict's keys, a string's characters; anything else raises. */
  function Iterate(v: Json): (r: Iteration)
    ensures v.JArr? ==> r == Items(v.items)
    ensures r.NotIterable? <==> !HasLen(v)
  {
    match v
    case JArr(xs) => Items(xs)
    case JObj(fields) =>
      var ks := Keys(fields);
      Items(seq(|ks|, i requires 0 <= i < |ks| => JStr(ks[i])))
    case JStr(s) => Items(seq(|s|, i requires 0 <= i < |s| => JStr([s[i]])))
    case _ => NotIterable(TypeName(v))
  }

  /** `key in v` for a string `key`: a dict's key, a substring, a list item; anything else raises. */
  function In(key: string, v: Json): bool
    requires HasLen(v)
  {
    match v
    case JObj(fields) => HasKey(fields, key)
    case JStr(s) => IsSubstring(key, s)
    case JArr(xs) => JStr(key) in xs
  }

  // ---------------------------------------------------------------------------
  // The specification
  // ---------------------------------------------------------------------------

  /** `if key not in config: ... elif not isinstance(config[key], list): ...` */
  function FieldErrors(config: seq<(string, Json)>, field: string): seq<ValidationError> {
    match Lookup(config, field)
    case None => [MissingField(field)]
    case Some(v) => if v.JArr? then [] else [NotAList(field)]
  }

  function HeaderErrors(config: seq<(string, Json)>, fields: seq<string>): seq<ValidationError> {
    if fields == [] then []
    else HeaderErrors(config, fields[..|fields| - 1]) + FieldErrors(config, fields[|fields| - 1])
  }

  /** The missing fields of entry `index`, in the order they are checked. */
  function ItemErrors(item: Json, index: nat, fields: seq<string>): seq<ValidationError>
    requires HasLen(item)
  {
    if fields == [] then []
    else
      var f := fields[|fields| - 1];
      ItemErrors(item, index, fields[..|fields| - 1]) + (if In(f, item) then [] else [EntryMissing(index, f)])
  }

  datatype Scan = Found(errors: seq<ValidationError>) | Threw(message: string)

  /** The loop over the entries: their errors in order, or the first `TypeError`. */
  function ScanItems(items: seq<Json>, fields: seq<string>): Scan {
    if items == [] then Found([])
    else
      var n := |items| - 1;
      match ScanItems(items[..n], fields)
      case Threw(m) => Threw(m)
      case Found(es) =>
        if !HasLen(items[n]) then Threw("argument of type '" + TypeName(items[n]) + "' is not iterable")
        else Found(es + ItemErrors(items[n], n, fields))
  }

  function Outcome(errors: seq<ValidationError>): (r: (bool, seq<ValidationError>))
    ensures r.0 <==> r.1 == []
  {
    (|errors| == 0, errors)
  }

  /** What `validate_config(config, config_type)` returns. */
  function ValidateSpec(config: seq<(string, Json)>, configType: string): (r: (bool, seq<ValidationError>))
    ensures r.0 <==> r.1 == []
    ensures !Checked(configType) ==> r == (true, [])
  {
    if !Checked(configType) then Outcome([])
    else
      var header := HeaderErrors(config, ListFields(configType));
      match Iterate(Get(config, "providers", JArr([])))
      case NotIterable(t) => Outcome([Raised("'" + t + "' object is not iterable")])
      case Items(xs) =>
        match ScanItems(xs, EntryFields(configType))
        case Threw(m) => Outcome([Raised(m)])
        case Found(es) => Outcome(header + es)
  }

  // ---------------------------------------------------------------------------
  // validate_config
  // ---------------------------------------------------------------------------

  lemma {:induction false} ScanItemsPrefix(items: seq<Json>, fields: seq<string>, k: nat)
    requires k < |items| && ScanItems(items[..k], fields).Found?
    ensures var es := ScanItems(items[..k], fields).errors;
      ScanItems(items[..k + 1], fields) ==
        if !HasLen(items[k]) then Threw("argument of type '" + TypeName(items[k]) + "' is not iterable")
        else Found(es + ItemErrors(items[k], k, fields))
  {
    assert items[..k + 1][..k] == items[..k];
  }

  /** The checks of one entry, one `if` per required field. */
  method CheckEntry(item: Json, index: nat, fields: seq<string>) returns (errors: seq<ValidationError>)
    requires HasLen(item)
    ensures errors == ItemErrors(item, index, fields)
  {
    errors := [];
    var j := 0;
    while j < |fields|
      invariant 0 <= j <= |fields|
      invariant errors == ItemErrors(item, index, fields[..j])
    {
      assert fields[..j + 1][..j] == fields[..j];
      if !In(fields[j], item) {
        errors := errors + [EntryMissing(index, fields[j])];
      }
      j := j + 1;
    }
    assert fields[..j] == fields;
  }

  /** `for idx, provider in enumerate(config.get("providers", []))`, raising like Python does. */
  method CheckEntries(items: seq<Json>, fields: seq<string>) returns (r: Scan)
    ensures r == ScanItems(items, fields)
  {
    var errors: seq<ValidationError> := [];
    var idx := 0;
    while idx < |items|
      invariant 0 <= idx <= |items|
      invariant ScanItems(items[..idx], fields) == Found(errors)
    {
      var provider := items[idx];
      ScanItemsPrefix(items, fields, idx);
      if !HasLen(provider) {
        assert items[..idx + 1] == items[..idx] + [provider];
        ThrowPersists(items, fields, idx + 1);
        return Threw("argument of type '" + TypeName(provider) + "' is not iterable");
      }
      var entryErrors := CheckEntry(provider, idx, fields);
      errors := errors + entryErrors;
      idx := idx + 1;
    }
    assert items[..idx] == items;
    r := Found(errors);
  }

  /** Once an entry has raised, the later entries are never looked at. */
  lemma {:induction false} ThrowPersists(items: seq<Json>, fields: seq<string>, k: nat)
    requires k <= |items| && ScanItems(items[..k], fields).Threw?
    ensures ScanItems(items, fields) == ScanItems(items[..k], fields)
    decreases |items| - k
  {
    if k < |items| {
      assert items[..k + 1][..k] == items[..k];
      ThrowPersists(items, fields, k + 1);
    } else {
      assert items[..k] == items;
    }
  }

  /** `validate_config`, the checks of the given kind in the order the service makes them. */
  method ValidateConfig(config: seq<(string, Json)>, configType: string)
    returns (isValid: bool, errors: seq<ValidationError>)
    ensures (isValid, errors) == ValidateSpec(config, configType)
    ensures isValid <==> errors == []
  {
    errors := [];
    if Checked(configType) {
      var listFields := ListFields(configType);
      var i := 0;
      while i < |listFields|
        invariant 0 <= i <= |listFields|
        invariant errors == HeaderErrors(config, listFields[..i])
      {
        assert listFields[..i + 1][..i] == listFields[..i];
        errors := errors + FieldErrors(config, listFields[i]);
        i := i + 1;
      }
      assert listFields[..i] == listFields;
      match Iterate(Get(config, "providers", JArr([])))
      case NotIterable(t) =>
        return false, [Raised("'" + t + "' object is not iterable")];
      case Items(xs) =>
        var scan := CheckEntries(xs, EntryFields(configType));
        match scan
        case Threw(m) =>
          return false, [Raised(m)];
        case Found(es) =>
          errors := errors + es;
    }
    isValid := |errors| == 0;
  }

  // ---------------------------------------------------------------------------
  // What the checks accept
  // ---------------------------------------------------------------------------

  /** Every field in `fields` is present and holds a list. */
  predicate ListsPresent(config: seq<(string, Json)>, fields: seq<string>) {
    forall f :: f in fields ==> Lookup(config, f).Some? && Lookup(config, f).value.JArr?
  }

  lemma {:induction false} HeaderErrorsEmpty(config: seq<(string, Json)>, fields: seq<string>)
    ensures HeaderErrors(config, fields) == [] <==> ListsPresent(config, fields)
  {
    if fields != [] {
      var init, f := fields[..|fields| - 1], fields[|fields| - 1];
      HeaderErrorsEmpty(config, init);
      assert forall g :: g in fields <==> g in init || g == f;
    }
  }

  /** Every field in `fields` is in `item`. */
  predicate HasFields(item: Json, fields: seq<string>)
    requires HasLen(item)
  {
    forall f :: f in fields ==> In(f, item)
  }

  lemma {:induction false} ItemErrorsEmpty(item: Json, index: nat, fields: seq<string>)
    requires HasLen(item)
    ensures ItemErrors(item, index, fields) == [] <==> HasFields(item, fields)
  {
    if fields != [] {
      var init, f := fields[..|fields| - 1], fields[|fields| - 1];
      ItemErrorsEmpty(item, index, init);
      assert forall g :: g in fields <==> g in init || g == f;
    }
  }

  /** Every entry is a container holding every field in `fields`. */
  predicate EntriesComplete(items: seq<Json>, fields: seq<string>) {
    forall x :: x in items ==> HasLen(x) && HasFields(x, fields)
  }

  lemma {:induction false} ScanItemsClean(items: seq<Json>, fields: seq<string>)
    ensures ScanItems(items, fields) == Found([]) <==> EntriesComplete(items, fields)
  {
    if items != [] {
      var n := |items| - 1;
      var init, last := items[..n], items[n];
      ScanItemsClean(init, fields);
      assert forall x :: x in items <==> x in init || x == last;
      if HasLen(last) {
        ItemErrorsEmpty(last, n, fields);
      }
    }
  }

  /**
    * A gpt-load or uni-api document is valid exactly when its required top-level
    * fields are lists and every entry of `providers` holds every required field.
    */
  lemma {:induction false} ValidIff(config: seq<(string, Json)>, configType: string)
    requires Checked(configType)
    ensures ValidateSpec(config, configType).0 <==>
      ListsPresent(config, ListFields(configType)) &&
      EntriesComplete(Get(config, "providers", JArr([])).items, EntryFields(configType))
  {
    var v := Get(config, "providers", JArr([]));
    HeaderErrorsEmpty(config, ListFields(configType));
    assert "providers" in ListFields(configType);
    if ListsPresent(config, ListFields(configType)) {
      assert v.JArr?;
      ScanItemsClean(v.items, EntryFields(configType));
    }
  }

  /** The "if" half of `ValidIff`, with the empty error list it then reports. */
  lemma {:induction false} ValidWhen(config: seq<(string, Json)>, configType: string)
    requires Checked(configType) && ListsPresent(config, ListFields(configType))
    requires EntriesComplete(Get(config, "providers", JArr([])).items, EntryFields(configType))
    ensures ValidateSpec(config, configType) == (true, [])
  {
    ValidIff(config, configType);
  }

  /** When `providers` cannot be iterated, the `TypeError` is the only error reported. */
  lemma {:induction false} NotIterableProviders(config: seq<(string, Json)>, configType: string)
    requires Checked(configType) && Lookup(config, "providers").Some?
    requires !HasLen(Lookup(config, "providers").value)
    ensures ValidateSpec(config, configType) ==
      (false, [Raised("'" + TypeName(Lookup(config, "providers").value) + "' object is not iterable")])
  {
  }

  // ---------------------------------------------------------------------------
  // The generated documents, as dicts
  // ---------------------------------------------------------------------------

  function EntryJson(e: ProviderEntry): Json {
    JObj([("name", JStr(e.name)), ("base_url", JStr(e.baseUrl)), ("api_key", JStr(e.apiKey)),
          ("models", StrList(e.models)), ("enabled", JBool(e.enabled))])
  }

  function GroupJson(g: Group): Json {
    JObj([("name", JStr(g.name)), ("providers", StrList(g.providers)), ("strategy", JStr(g.strategy)),
          ("model_mapping", StrDict(g.mapping))])
  }

  function AggregateJson(a: AggregateGroup): Json {
    JObj([("name", JStr(a.name)), ("sub_groups", StrList(a.subGroups)), ("load_balance", JStr(a.loadBalance))])
  }

  function GptLoadJson(c: GptLoadConfig): Json {
    JObj([
      ("providers", JArr(ProviderItems(c.providers))),
      ("groups", JArr(seq(|c.groups|, i requires 0 <= i < |c.groups| => GroupJson(c.groups[i])))),
      ("aggregate_groups", JArr(seq(|c.aggregates|, i requires 0 <= i < |c.aggregates| => AggregateJson(c.aggregates[i])))),
      ("model_redirects", StrDict(c.redirects))])
  }

  function UniApiEntryJson(e: UniApiEntry): Json {
    JObj([("provider", JStr(e.provider)), ("base_url", JStr(e.baseUrl)), ("api", JStr(e.api)),
          ("model", StrList(e.model))])
  }

  function UniApiJson(c: UniApiConfig): Json {
    JObj([
      ("providers", JArr(seq(|c.providers|, i requires 0 <= i < |c.providers| => UniApiEntryJson(c.providers[i])))),
      ("api", JObj([("port", JInt(c.port)), ("bind", JStr(c.bind))]))])
  }

  lemma {:induction false} EntryJsonComplete(e: ProviderEntry)
    ensures HasLen(EntryJson(e)) && HasFields(EntryJson(e), EntryFields("gptload"))
  {
    var fs := EntryJson(e).fields;
    assert EntryKeys(fs)[0] == "name" && EntryKeys(fs)[1] == "base_url" && EntryKeys(fs)[2] == "api_key";
  }

  lemma {:induction false} UniApiEntryJsonComplete(e: UniApiEntry)
    ensures HasLen(UniApiEntryJson(e)) && HasFields(UniApiEntryJson(e), EntryFields("uniapi"))
  {
    var fs := UniApiEntryJson(e).fields;
    assert EntryKeys(fs)[0] == "provider" && EntryKeys(fs)[1] == "base_url";
  }

  /** The `providers` list of a gpt-load document, one item per provider. */
  function ProviderItems(ps: seq<ProviderEntry>): (r: seq<Json>)
    ensures |r| == |ps| && forall i :: 0 <= i < |ps| ==> r[i] == EntryJson(ps[i])
  {
    seq(|ps|, i requires 0 <= i < |ps| => EntryJson(ps[i]))
  }

  /** Every provider item of a gpt-load document has `name`, `base_url` and `api_key`, and a length. */
  lemma {:induction false} ProviderItemsComplete(ps: seq<ProviderEntry>)
    ensures forall x :: x in ProviderItems(ps) ==> HasLen(x) && HasFields(x, EntryFields("gptload"))
  {
    var items := ProviderItems(ps);
    forall x | x in items ensures HasLen(x) && HasFields(x, EntryFields("gptload")) {
      var i :| 0 <= i < |items| && items[i] == x;
      EntryJsonComplete(ps[i]);
    }
  }

  /** Every gpt-load document of this shape passes `validate_config(…, "gptload")`. */
  lemma {:induction false} GptLoadJsonValidates(c: GptLoadConfig)
    ensures ValidateSpec(GptLoadJson(c).fields, "gptload") == (true, [])
  {
    var fs := GptLoadJson(c).fields;
    assert fs[0].0 == "providers" && fs[1].0 == "groups";
    assert fs[1].0[0] != 'p' && fs[2].0[0] != 'p' && fs[3].0[0] != 'p';
    assert fs[2].0[0] != 'g' && fs[3].0[0] != 'g';
    LookupAt(fs, 0);
    LookupAt(fs, 1);
    assert ListsPresent(fs, ListFields("gptload"));
    assert Get(fs, "providers", JArr([])).items == ProviderItems(c.providers);
    ProviderItemsComplete(c.providers);
    ValidWhen(fs, "gptload");
  }

  /** Every uni-api document of this shape passes `validate_config(…, "uniapi")`. */
  lemma {:induction false} UniApiJsonValidates(c: UniApiConfig)
    ensures ValidateSpec(UniApiJson(c).fields, "uniapi") == (true, [])
  {
    var fs := UniApiJson(c).fields;
    assert fs[0].0 == "providers" && fs[1].0[0] != 'p';
    LookupAt(fs, 0);
    assert ListsPresent(fs, ListFields("uniapi"));
    forall x | x in fs[0].1.items ensures HasLen(x) && HasFields(x, EntryFields("uniapi")) {
      var i :| 0 <= i < |c.providers| && fs[0].1.items[i] == x;
      UniApiEntryJsonComplete(c.providers[i]);
    }
    ValidIff(fs, "uniapi");
  }

  /** The document `generate_gptload_config` returns passes `validate_config(…, "gptload")`. */
  lemma {:induction false} GeneratedGptLoadValidates(ps: seq<Source>, ms: seq<ModelRecord>)
    ensures ValidateSpec(GptLoadJson(GptLoadSpec(ps, ms)).fields, "gptload") == (true, [])
  {
    GptLoadJsonValidates(GptLoadSpec(ps, ms));
  }

  /** The document `generate_uniapi_config` returns passes `validate_config(…, "uniapi")`. */
  lemma {:induction false} GeneratedUniApiValidates(gptLoadUrl: string, ms: seq<ModelRecord>)
    ensures ValidateSpec(UniApiJson(UniApiSpec(gptLoadUrl, ms)).fields, "uniapi") == (true, [])
  {
    UniApiJsonValidates(UniApiSpec(gptLoadUrl, ms));
  }
}
