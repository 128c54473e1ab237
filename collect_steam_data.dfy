/** steam_sales/src/collect_steam_data.py: one Steam store request and the
    mapping of its answer onto the fields of the `Game` model. */
module CollectSteamData {
  import opened PyValues
  import opened PyText
  import opened Fetcher
  import opened Scraping

  /** A successful answer: an object whose entry `str(appid)` is an object
      with a truthy `success` and a `data` member, which is `d`. */
  predicate Succeeded(appid: int, fetched: Option<Json>, d: Json)
  {
    && fetched.Some? && fetched.value.JDict?
    && var entry := Lookup(fetched.value.fields, IntToString(appid));
    && entry.Some? && entry.value.JDict?
    && var ok := Lookup(entry.value.fields, "success");
    && ok.Some? && Truthy(ok.value)
    && Lookup(entry.value.fields, "data") == Some(d)
  }

  /** `steam_request(appid)` once collect_metadata.py's `get_request` has
      answered `fetched`: a None answer is indexed anyway and raises
      TypeError; a falsy `success` gives None. */
  function SteamRequest(appid: int, fetched: Option<Json>): (r: Py<Option<Json>>)
    ensures fetched.None? ==> r == Raise(TypeError)
    ensures forall d :: r == Value(Some(d)) <==> Succeeded(appid, fetched, d)
    ensures r == Value(None) <==>
      && fetched.Some? && fetched.value.JDict?
      && var entry := Lookup(fetched.value.fields, IntToString(appid));
      && entry.Some? && entry.value.JDict?
      && var ok := Lookup(entry.value.fields, "success");
      ok.Some? && !Truthy(ok.value)
    ensures r.Raise? ==> r.exc == KeyError || r.exc == TypeError
  {
    var json := if fetched.Some? then fetched.value else JNull;
    match Index(json, IntToString(appid))
    case Raise(e) => Raise(e)
    case Value(entry) =>
      match Index(entry, "success")
      case Raise(e) => Raise(e)
      case Value(ok) =>
        if Truthy(ok) then
          (match Index(entry, "data") case Raise(e) => Raise(e) case Value(d) => Value(Some(d)))
        else Value(None)
  }

  /** The request through the store (`{"appids": appid}`): the fetch never
      raises, so only the indexing can. */
  function StoreSteamRequest(store: Net, appid: int): (r: Py<Option<Json>>)
    ensures r.Raise? ==> r.exc == KeyError || r.exc == TypeError
  {
    RaisesOnly(MetadataPolicy, store(appid), 0, 4, 1, WithAppids);
    match Attempt(MetadataPolicy, store(appid), 0, 4, 1, WithAppids).result
    case Raise(e) => Raise(e)
    case Value(fetched) => SteamRequest(appid, fetched)
  }

  // ---------------------------------------------------------------------------
  // parse_game_data

  /** How one value of the dictionary literal is read from the store entry:
      `data[key]`, `data.get(key, default)` or `data[key][inner]`. */
  datatype Read = Key(key: string) | KeyOr(key: string, default: Json) | Nested(key: string, inner: string)

  function ReadField(data: Json, r: Read): Py<Json>
  {
    match r
    case Key(k) => Index(data, k)
    case KeyOr(k, d) => GetOr(data, k, d)
    case Nested(k, inner) =>
      match Index(data, k)
      case Raise(e) => Raise(e)
      case Value(v) => Index(v, inner)
  }

  /** Entry `k` of the dictionary literal of `parse_game_data`, in source order. */
  function GameDataRead(k: nat): (string, Read)
  {
    if k == 0 then ("appid", Key("steam_appid"))
    else if k == 1 then ("name", Key("name"))
    else if k == 2 then ("type", Key("type"))
    else if k == 3 then ("required_age", Key("required_age"))
    else if k == 4 then ("is_free", Key("is_free"))
    else if k == 5 then ("controller_support", KeyOr("controller_support", JNull))
    else if k == 6 then ("dlc", KeyOr("dlc", JList([])))
    else if k == 7 then ("detailed_description", Key("detailed_description"))
    else if k == 8 then ("short_description", Key("short_description"))
    else if k == 9 then ("about_the_game", Key("about_the_game"))
    else if k == 10 then ("supported_languages", Key("supported_languages"))
    else if k == 11 then ("reviews", Key("reviews"))
    else if k == 12 then ("header_image", Key("header_image"))
    else if k == 13 then ("capsule_image", Key("capsule_image"))
    else if k == 14 then ("website", Key("website"))
    else if k == 15 then ("pc_requirements", Key("pc_requirements"))
    else if k == 16 then ("mac_requirements", Key("mac_requirements"))
    else if k == 17 then ("linux_requirements", Key("linux_requirements"))
    else if k == 18 then ("developers", Key("developers"))
    else if k == 19 then ("publishers", Key("publishers"))
    else if k == 20 then ("platforms", Key("platforms"))
    else if k == 21 then ("metacritic", Nested("metacritic", "score"))
    else if k == 22 then ("categories", Key("categories"))
    else if k == 23 then ("genres", Key("genres"))
    else if k == 24 then ("recommendations", Nested("recommendations", "total"))
    else if k == 25 then ("achievements", Nested("achievements", "total"))
    else ("release_date", Key("release_date"))
  }

  /** The dictionary literal of `parse_game_data`: its 27 entries. */
  function GameDataReads(): seq<(string, Read)>
  {
    seq(27, k requires 0 <= k => GameDataRead(k))
  }

  /** Evaluating a dictionary literal whose values are read from `data`:
      left to right, the first exception ending the evaluation. */
  function DictLiteral(data: Json, entries: seq<(string, Read)>): (r: Py<seq<(string, Json)>>)
    ensures r.Value? <==> forall i :: 0 <= i < |entries| ==> ReadField(data, entries[i].1).Value?
    ensures r.Value? ==> |r.value| == |entries|
    ensures r.Value? ==> forall i :: 0 <= i < |entries| ==> r.value[i] == (entries[i].0, ReadField(data, entries[i].1).value)
    ensures r.Raise? ==> exists i :: 0 <= i < |entries| && ReadField(data, entries[i].1) == Raise(r.exc)
  {
    var read := (e: (string, Read)) => ReadField(data, e.1);
    MapPyElementwise(read, entries);
    match MapPy(read, entries)
    case Raise(e) => Raise(e)
    case Value(vs) => Value(seq(|entries|, i requires 0 <= i < |entries| => (entries[i].0, vs[i])))
  }

  /** The dictionary `game_data` of `parse_game_data`. */
  function GameData(data: Json): Py<seq<(string, Json)>>
  {
    DictLiteral(data, GameDataReads())
  }

  /** The fields of the `Game` model declared with `Field(...)`, which have no default. */
  const GameRequired: set<string> := {
    "type", "name", "appid", "required_age", "is_free", "controller_support", "dlc",
    "reviews", "header_image", "capsule_image", "website", "pc_requirements",
    "publishers", "pc_platform", "metacritic", "recommendations", "achievements",
    "release_date", "coming_soon"
  }

  /** A `Game` instance, by its field values. */
  datatype Game = Game(fields: map<string, Json>)

  /** `Game(**kw)`, as far as required fields go: a missing one is a
      ValidationError. */
  function GameCall(kw: map<string, Json>): (r: Py<Game>)
    ensures r.Value? <==> GameRequired <= kw.Keys
    ensures r.Raise? ==> r.exc == ValidationError
  {
    if GameRequired <= kw.Keys then Value(Game(kw)) else Raise(ValidationError)
  }

  /** `parse_game_data(data)`: `Game(**game_data)`. */
  function ParseGameData(data: Json): (r: Py<Game>)
    ensures GameData(data).Raise? ==> r == Raise(GameData(data).exc)
  {
    match GameData(data)
    case Raise(e) => Raise(e)
    case Value(fs) => GameCall(Kwargs(fs))
  }

  /** The entries the lemmas below rely on. */
  lemma GameDataTable()
    ensures GameDataRead(0) == ("appid", Key("steam_appid"))
    ensures GameDataRead(5) == ("controller_support", KeyOr("controller_support", JNull))
    ensures GameDataRead(6) == ("dlc", KeyOr("dlc", JList([])))
    ensures GameDataRead(21) == ("metacritic", Nested("metacritic", "score"))
    ensures GameDataRead(24) == ("recommendations", Nested("recommendations", "total"))
    ensures GameDataRead(25) == ("achievements", Nested("achievements", "total"))
  {
  }

  /** No entry of the literal is named `pc_platform` or `coming_soon`. */
  lemma GameDataNames(k: nat)
    requires k < 27
    ensures GameDataRead(k).0 != "pc_platform" && GameDataRead(k).0 != "coming_soon"
  {
  }

  /** Entry `k` of `game_data` is the value its read produced. */
  lemma GameDataAt(data: Json, k: nat)
    requires GameData(data).Value? && k < 27
    ensures ReadField(data, GameDataRead(k).1).Value?
    ensures GameData(data).value[k] == (GameDataRead(k).0, ReadField(data, GameDataRead(k).1).value)
  {
    assert GameDataReads()[k] == GameDataRead(k);
  }

  /** `appid` is the entry's `steam_appid`. */
  lemma GameDataAppid(data: Json)
    requires GameData(data).Value?
    ensures data.JDict? && "steam_appid" in Keys(data.fields)
    ensures GameData(data).value[0] == ("appid", Lookup(data.fields, "steam_appid").value)
  {
    GameDataTable();
    GameDataAt(data, 0);
  }

  /** A nested read `data[key][inner]` that succeeds reads a dictionary inside a dictionary. */
  lemma NestedRead(data: Json, key: string, inner: string)
    requires ReadField(data, Nested(key, inner)).Value?
    ensures data.JDict?
    ensures var m := Lookup(data.fields, key);
      && m.Some? && m.value.JDict? && Lookup(m.value.fields, inner).Some?
      && ReadField(data, Nested(key, inner)).value == Lookup(m.value.fields, inner).value
  {
  }

  /** `metacritic`, `recommendations` and `achievements` are the nested
      `score` and `total` values (entries 21, 24 and 25 of the literal). */
  lemma GameDataNestedValues(data: Json)
    requires GameData(data).Value?
    ensures data.JDict?
    ensures var m := Lookup(data.fields, "metacritic");
      && m.Some? && m.value.JDict? && GameData(data).value[21].0 == "metacritic"
      && Lookup(m.value.fields, "score") == Some(GameData(data).value[21].1)
    ensures var m := Lookup(data.fields, "recommendations");
      && m.Some? && m.value.JDict? && GameData(data).value[24].0 == "recommendations"
      && Lookup(m.value.fields, "total") == Some(GameData(data).value[24].1)
    ensures var m := Lookup(data.fields, "achievements");
      && m.Some? && m.value.JDict? && GameData(data).value[25].0 == "achievements"
      && Lookup(m.value.fields, "total") == Some(GameData(data).value[25].1)
  {
    GameDataTable();
    GameDataAt(data, 21);
    NestedRead(data, "metacritic", "score");
    GameDataAt(data, 24);
    NestedRead(data, "recommendations", "total");
    GameDataAt(data, 25);
    NestedRead(data, "achievements", "total");
  }

  /** A missing `controller_support` becomes None and a missing `dlc` becomes `[]`
      (entries 5 and 6 of the literal). */
  lemma GameDataDefaults(data: Json)
    requires GameData(data).Value?
    ensures data.JDict?
    ensures "controller_support" !in Keys(data.fields) ==> GameData(data).value[5] == ("controller_support", JNull)
    ensures "dlc" !in Keys(data.fields) ==> GameData(data).value[6] == ("dlc", JList([]))
  {
    GameDataTable();
    GameDataAt(data, 0);
    GameDataAt(data, 5);
    GameDataAt(data, 6);
  }

  /** Reading from an object raises only KeyError (a missing key) or
      TypeError (indexing into a non-object). */
  lemma ReadFieldRaises(data: Json, r: Read)
    requires data.JDict?
    ensures ReadField(data, r).Raise? ==> ReadField(data, r).exc in {KeyError, TypeError}
  {
  }

  /** A read without a default raises when its key is missing. */
  lemma ReadFieldMissing(data: Json, r: Read)
    requires data.JDict? && !r.KeyOr? && r.key !in Keys(data.fields)
    ensures ReadField(data, r).Raise?
  {
  }

  /** Every other key of the literal is mandatory: an entry without it raises. */
  lemma MissingKeyRaises(data: Json, i: nat)
    requires i < 27 && !GameDataRead(i).1.KeyOr?
    requires data.JDict? && GameDataRead(i).1.key !in Keys(data.fields)
    ensures ParseGameData(data).Raise?
    ensures GameData(data).Raise? && GameData(data).exc in {KeyError, TypeError}
  {
    assert GameDataReads()[i] == GameDataRead(i);
    ReadFieldMissing(data, GameDataReads()[i].1);
    assert GameData(data).Raise?;
    var j :| 0 <= j < |GameDataReads()| && ReadField(data, GameDataReads()[j].1) == Raise(GameData(data).exc);
    ReadFieldRaises(data, GameDataReads()[j].1);
  }

  /** The literal never supplies `pc_platform` or `coming_soon`, which `Game`
      requires, so `parse_game_data` never returns: it raises for every
      entry, with a ValidationError once all the lookups succeed. */
  lemma ParseGameDataAlwaysRaises(data: Json)
    ensures ParseGameData(data).Raise?
    ensures GameData(data).Value? ==> ParseGameData(data) == Raise(ValidationError)
  {
    if GameData(data).Value? {
      var fs := GameData(data).value;
      forall k | 0 <= k < |fs|
        ensures fs[k].0 != "pc_platform"
      {
        GameDataAt(data, k);
        GameDataNames(k);
      }
      assert "pc_platform" !in Keys(fs);
      assert "pc_platform" !in Kwargs(fs);
    }
  }
}
