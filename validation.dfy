/** The pydantic models of steam_sales/src/validation.py: field presence,
    field types, the 255-character limits, the defaults, and the three
    `mode="before"` field validators. A failed validation raises
    `ValidationError`; a `ValueError` raised inside a validator surfaces as
    one too. */
module Validation {
  import opened PyValues
  import opened PyText

  /** `max_length=255` on the string fields. */
  const MaxLength: nat := 255

  // ---------------------------------------------------------------------------
  // Field validators

  /** `GameDetails.validate_tags`: `[]` becomes None, a dict or None passes,
      anything else is rejected. */
  function ValidateTags(v: Json): (r: Py<Json>)
    ensures r.Raise? ==> r.exc == ValidationError
    ensures r.Value? <==> v.JNull? || v.JDict? || v == JList([])
    ensures r.Value? ==> r.value.JNull? || r.value == v
  {
    if v == JList([]) then Value(JNull)
    else if !v.JNull? && !v.JDict? then Raise(ValidationError)
    else Value(v)
  }

  /** `GameDetails.validate_score_rank`: an int (a bool is one in Python)
      becomes its `str`, a string or None passes, anything else is rejected. */
  function ValidateScoreRank(v: Json): (r: Py<Json>)
    ensures r.Raise? ==> r.exc == ValidationError
    ensures r.Value? <==> v.JInt? || v.JBool? || v.JStr? || v.JNull?
    ensures r.Value? ==> r.value.JStr? || r.value.JNull?
    ensures v.JStr? || v.JNull? ==> r == Value(v)
  {
    match v
    case JInt(i) => Value(JStr(IntToString(i)))
    case JBool(b) => Value(JStr(if b then "True" else "False"))
    case JStr(_) => Value(v)
    case JNull => Value(v)
    case _ => Raise(ValidationError)
  }

  /** `Game.validate_release_date`: a string is handed to the date parser
      (`parse` returns None where it raises ValueError, which the validator
      turns into None); None passes; anything else, ints included, is
      rejected. */
  function ValidateReleaseDate<D>(v: Json, parse: string -> Option<D>): (r: Py<Option<D>>)
    ensures r.Raise? <==> !(v.JStr? || v.JNull?)
    ensures r.Raise? ==> r.exc == ValidationError
    ensures v.JStr? ==> r == Value(parse(v.s))
  {
    match v
    case JStr(s) => Value(parse(s))
    case JNull => Value(None)
    case _ => Raise(ValidationError)
  }

  /** Running either validator on its own output changes nothing more: what
      it returns is a value it accepts unchanged. */
  lemma ValidatorsIdempotent(v: Json)
    ensures ValidateTags(v).Value? ==> ValidateTags(ValidateTags(v).value) == ValidateTags(v)
    ensures ValidateScoreRank(v).Value? ==> ValidateScoreRank(ValidateScoreRank(v).value) == ValidateScoreRank(v)
  {
  }

  /** An int score rank can be read back from the string it is stored as. */
  lemma ScoreRankReadsBack(i: int)
    ensures ValidateScoreRank(JInt(i)).Value?
    ensures ParseInt(ValidateScoreRank(JInt(i)).value.s) == Some(i)
  {
    assert ValidateScoreRank(JInt(i)) == Value(JStr(IntToString(i)));
    IntRoundTrip(i);
  }

  /** An int release date is rejected although the validator's message says ints are accepted. */
  lemma ReleaseDateRejectsInt<D>(i: int, parse: string -> Option<D>)
    ensures ValidateReleaseDate(JInt(i), parse) == Raise(ValidationError)
  {
  }

  // ---------------------------------------------------------------------------
  // Typed field readers over the keyword arguments of a model
  // (strict types; pydantic's lax coercions are not modelled)

  /** A required int field. */
  function ReqInt(kw: map<string, Json>, key: string): (r: Py<int>)
    ensures r.Raise? ==> r.exc == ValidationError
    ensures r.Value? <==> key in kw && kw[key].JInt?
    ensures r.Value? ==> kw[key] == JInt(r.value)
  {
    if key in kw && kw[key].JInt? then Value(kw[key].i) else Raise(ValidationError)
  }

  /** An optional int field with default None; an explicit null is None too. */
  function OptInt(kw: map<string, Json>, key: string): (r: Py<Option<int>>)
    ensures r.Raise? ==> r.exc == ValidationError
    ensures key !in kw ==> r == Value(None)
    ensures r.Value? && r.value.Some? ==> kw[key] == JInt(r.value.value)
  {
    if key !in kw || kw[key].JNull? then Value(None)
    else if kw[key].JInt? then Value(Some(kw[key].i))
    else Raise(ValidationError)
  }

  /** A string value, limited to `MaxLength` characters when `limited`. */
  function StrValue(v: Json, limited: bool): (r: Py<string>)
    ensures r.Raise? ==> r.exc == ValidationError
    ensures r.Value? <==> v.JStr? && (limited ==> |v.s| <= MaxLength)
    ensures r.Value? ==> v == JStr(r.value)
  {
    match v
    case JStr(s) => if limited && |s| > MaxLength then Raise(ValidationError) else Value(s)
    case _ => Raise(ValidationError)
  }

  /** A required string field. */
  function ReqStr(kw: map<string, Json>, key: string, limited: bool): (r: Py<string>)
    ensures r.Raise? ==> r.exc == ValidationError
    ensures r.Value? ==> key in kw && kw[key] == JStr(r.value) && (limited ==> |r.value| <= MaxLength)
  {
    if key in kw then StrValue(kw[key], limited) else Raise(ValidationError)
  }

  /** An optional string field with default None. */
  function OptStr(kw: map<string, Json>, key: string, limited: bool): (r: Py<Option<string>>)
    ensures r.Raise? ==> r.exc == ValidationError
    ensures key !in kw ==> r == Value(None)
    ensures r.Value? && r.value.Some? ==> kw[key] == JStr(r.value.value) && (limited ==> |r.value.value| <= MaxLength)
  {
    if key !in kw || kw[key].JNull? then Value(None)
    else match StrValue(kw[key], limited) case Value(s) => Value(Some(s)) case Raise(e) => Raise(e)
  }

  // ---------------------------------------------------------------------------
  // GameMetaData

  /** One SteamSpy "all" entry: `GameMetaData(appid: int, name: str <= 255)`. */
  datatype GameMeta = GameMeta(appid: int, name: string)

  /** `GameMetaData(**kw)`. */
  function GameMetaFromKwargs(kw: map<string, Json>): (r: Py<GameMeta>)
    ensures r.Raise? ==> r.exc == ValidationError
    ensures r.Value? <==> "appid" in kw && kw["appid"].JInt? && "name" in kw && kw["name"].JStr? && |kw["name"].s| <= MaxLength
    ensures r.Value? ==> kw["appid"] == JInt(r.value.appid) && kw["name"] == JStr(r.value.name)
  {
    var appid := ReqInt(kw, "appid");
    var name := ReqStr(kw, "name", true);
    if appid.Value? && name.Value? then Value(GameMeta(appid.value, name.value)) else Raise(ValidationError)
  }

  /** Validates one element of `GameMetaDataList(games=...)`: it must be an object. */
  function GameMetaFromJson(j: Json): (r: Py<GameMeta>)
    ensures r.Raise? ==> r.exc == ValidationError
    ensures r.Value? ==> j.JDict? && Lookup(j.fields, "appid") == Some(JInt(r.value.appid))
    ensures r.Value? ==> Lookup(j.fields, "name") == Some(JStr(r.value.name)) && |r.value.name| <= MaxLength
  {
    if j.JDict? then GameMetaFromKwargs(Kwargs(j.fields)) else Raise(ValidationError)
  }

  /** `GameMetaDataList(games=...)`: every element must validate. */
  function GameMetaListFromJson(items: seq<Json>): (r: Py<seq<GameMeta>>)
    ensures r.Raise? ==> r.exc == ValidationError
    ensures r.Value? ==> |r.value| == |items|
    ensures r.Value? ==> forall i :: 0 <= i < |items| ==> GameMetaFromJson(items[i]) == Value(r.value[i])
  {
    MapPyElementwise(GameMetaFromJson, items);
    MapPy(GameMetaFromJson, items)
  }

  /** `GameMetaDataList(games=page.values())` on a fetched page of the SteamSpy
      "all" listing: a non-object has no `values` method. */
  function GameMetaListFromPage(page: Json): (r: Py<seq<GameMeta>>)
    ensures !page.JDict? ==> r == Raise(AttributeError)
    ensures r.Raise? && page.JDict? ==> r.exc == ValidationError
    ensures r.Value? ==> |r.value| == |page.fields|
    ensures r.Value? ==> forall i :: 0 <= i < |page.fields| ==> GameMetaFromJson(page.fields[i].1) == Value(r.value[i])
  {
    if page.JDict? then GameMetaListFromJson(Values(page.fields)) else Raise(AttributeError)
  }

  /** `GameMetaData.model_dump()`. */
  function GameMetaDump(m: GameMeta): map<string, Json>
  {
    map["appid" := JInt(m.appid), "name" := JStr(m.name)]
  }

  /** Validating a dumped entry gives the entry back, for every name within the limit. */
  lemma GameMetaDumpRoundTrip(m: GameMeta)
    requires |m.name| <= MaxLength
    ensures GameMetaFromKwargs(GameMetaDump(m)) == Value(m)
  {
  }

  // ---------------------------------------------------------------------------
  // GameDetails (SteamSpy "appdetails")

  datatype GameDetails = GameDetails(
    appid: int, name: string, developer: string, publisher: string, scoreRank: string,
    positive: int, negative: int,
    userscore: Json,  // a float in the source; only its presence is checked
    owners: string, averageForever: int, average2Weeks: int, medianForever: int, median2Weeks: int,
    price: Option<int>, initialPrice: Option<int>, discount: Option<string>, ccu: int,
    languages: Option<string>, genre: string, tags: Option<seq<(string, int)>>)

  /** The `score_rank` field: the validator runs on a supplied value only; the default is "". */
  function ScoreRankField(kw: map<string, Json>): (r: Py<string>)
    ensures r.Raise? ==> r.exc == ValidationError
    ensures "score_rank" !in kw ==> r == Value("")
    ensures "score_rank" in kw && kw["score_rank"].JNull? ==> r.Raise?
    ensures r.Value? ==> |r.value| <= MaxLength
  {
    if "score_rank" !in kw then Value("")
    else match ValidateScoreRank(kw["score_rank"])
      case Raise(e) => Raise(e)
      case Value(w) => StrValue(w, true)
  }

  /** The values of a tag dictionary, which must all be ints. */
  function IntEntries(fs: seq<(string, Json)>): (r: Option<seq<(string, int)>>)
    ensures r.Some? ==> |r.value| == |fs| && forall i :: 0 <= i < |fs| ==> fs[i] == (r.value[i].0, JInt(r.value[i].1))
  {
    if fs == [] then Some([])
    else match (fs[0].1, IntEntries(fs[1..]))
      case (JInt(n), Some(rest)) => Some([(fs[0].0, n)] + rest)
      case _ => None
  }

  /** The `tags` field: `Optional[Dict[str, int]]` after `validate_tags`. */
  function TagsField(kw: map<string, Json>): (r: Py<Option<seq<(string, int)>>>)
    ensures r.Raise? ==> r.exc == ValidationError
    ensures "tags" in kw && kw["tags"] == JList([]) ==> r == Value(None)
  {
    if "tags" !in kw then Value(None)
    else match ValidateTags(kw["tags"])
      case Raise(e) => Raise(e)
      case Value(JDict(entries)) => (match IntEntries(entries) case Some(t) => Value(Some(t)) case None => Raise(ValidationError))
      case Value(_) => Value(None)
  }

  /** `GameDetails(**kw)`: required fields present and of their type, string
      limits respected, optional fields defaulted; keys the model does not
      declare are ignored. */
  function GameDetailsFromKwargs(kw: map<string, Json>): (r: Py<GameDetails>)
    ensures r.Raise? ==> r.exc == ValidationError
    ensures r.Value? ==> "appid" in kw && kw["appid"] == JInt(r.value.appid)
    ensures r.Value? ==> && |r.value.name| <= MaxLength && |r.value.developer| <= MaxLength
                         && |r.value.publisher| <= MaxLength && |r.value.scoreRank| <= MaxLength
                         && (r.value.discount.Some? ==> |r.value.discount.value| <= MaxLength)
    ensures r.Value? && "score_rank" !in kw ==> r.value.scoreRank == ""
  {
    var appid := ReqInt(kw, "appid");
    var name := ReqStr(kw, "name", true);
    var developer := ReqStr(kw, "developer", true);
    var publisher := ReqStr(kw, "publisher", true);
    var scoreRank := ScoreRankField(kw);
    var positive := ReqInt(kw, "positive");
    var negative := ReqInt(kw, "negative");
    var owners := ReqStr(kw, "owners", false);
    var averageForever := ReqInt(kw, "average_forever");
    var average2Weeks := ReqInt(kw, "average_2weeks");
    var medianForever := ReqInt(kw, "median_forever");
    var median2Weeks := ReqInt(kw, "median_2weeks");
    var price := OptInt(kw, "price");
    var initialPrice := OptInt(kw, "initialprice");
    var discount := OptStr(kw, "discount", true);
    var ccu := ReqInt(kw, "ccu");
    var languages := OptStr(kw, "languages", false);
    var genre := ReqStr(kw, "genre", false);
    var tags := TagsField(kw);
    if && appid.Value? && name.Value? && developer.Value? && publisher.Value? && scoreRank.Value?
       && positive.Value? && negative.Value? && "userscore" in kw && owners.Value?
       && averageForever.Value? && average2Weeks.Value? && medianForever.Value? && median2Weeks.Value?
       && price.Value? && initialPrice.Value? && discount.Value? && ccu.Value? && languages.Value?
       && genre.Value? && tags.Value?
    then
      Value(GameDetails(appid.value, name.value, developer.value, publisher.value, scoreRank.value,
                        positive.value, negative.value, kw["userscore"], owners.value,
                        averageForever.value, average2Weeks.value, medianForever.value, median2Weeks.value,
                        price.value, initialPrice.value, discount.value, ccu.value, languages.value,
                        genre.value, tags.value))
    else Raise(ValidationError)
  }

  /** `GameDetails(**j)` on a fetched document: unpacking anything but a
      mapping raises TypeError before validation starts. */
  function GameDetailsCall(j: Json): (r: Py<GameDetails>)
    ensures !j.JDict? ==> r == Raise(TypeError)
    ensures j.JDict? ==> r == GameDetailsFromKwargs(Kwargs(j.fields))
  {
    if j.JDict? then GameDetailsFromKwargs(Kwargs(j.fields)) else Raise(TypeError)
  }

  /** `TempDetails` is imported from validation.py but not defined there; it is
      modelled as a record of the four values extra_col.py hands it, built
      without further validation. */
  datatype TempDetails = TempDetails(appid: Json, requirements: Json, platform: Json, releaseDate: Json)

  function OptIntJson(o: Option<int>): Json
  {
    if o.Some? then JInt(o.value) else JNull
  }

  function OptStrJson(o: Option<string>): Json
  {
    if o.Some? then JStr(o.value) else JNull
  }

  function TagsJson(t: seq<(string, int)>): (j: seq<(string, Json)>)
    ensures |j| == |t| && forall i :: 0 <= i < |t| ==> j[i] == (t[i].0, JInt(t[i].1))
  {
    if t == [] then [] else [(t[0].0, JInt(t[0].1))] + TagsJson(t[1..])
  }

  /** `GameDetails.model_dump()`, as handed to the ORM row by `bulk_ingest_data`. */
  function GameDetailsDump(g: GameDetails): map<string, Json>
  {
    map["appid" := JInt(g.appid), "name" := JStr(g.name), "developer" := JStr(g.developer),
        "publisher" := JStr(g.publisher), "score_rank" := JStr(g.scoreRank),
        "positive" := JInt(g.positive), "negative" := JInt(g.negative), "userscore" := g.userscore,
        "owners" := JStr(g.owners), "average_forever" := JInt(g.averageForever),
        "average_2weeks" := JInt(g.average2Weeks), "median_forever" := JInt(g.medianForever),
        "median_2weeks" := JInt(g.median2Weeks), "price" := OptIntJson(g.price),
        "initialprice" := OptIntJson(g.initialPrice), "discount" := OptStrJson(g.discount),
        "ccu" := JInt(g.ccu), "languages" := OptStrJson(g.languages), "genre" := JStr(g.genre),
        "tags" := if g.tags.Some? then JDict(TagsJson(g.tags.value)) else JNull]
  }

  /** The string limits a validated record always meets. */
  predicate WithinLimits(g: GameDetails)
  {
    && |g.name| <= MaxLength && |g.developer| <= MaxLength && |g.publisher| <= MaxLength
    && |g.scoreRank| <= MaxLength && (g.discount.Some? ==> |g.discount.value| <= MaxLength)
  }

  lemma IntEntriesOfTags(t: seq<(string, int)>)
    ensures IntEntries(TagsJson(t)) == Some(t)
  {
    if t != [] {
      IntEntriesOfTags(t[1..]);
      var fs := TagsJson(t);
      assert fs[1..] == TagsJson(t[1..]);
      assert fs[0] == (t[0].0, JInt(t[0].1));
      assert [(t[0].0, t[0].1)] + t[1..] == t;
    }
  }

  // The reads of a dumped record, split in groups to keep each proof small.

  lemma DumpReadsNames(g: GameDetails)
    requires WithinLimits(g)
    ensures var d := GameDetailsDump(g);
      && ReqInt(d, "appid") == Value(g.appid) && ReqStr(d, "name", true) == Value(g.name)
      && ReqStr(d, "developer", true) == Value(g.developer)
  {
  }

  lemma DumpReadsPublisher(g: GameDetails)
    requires WithinLimits(g)
    ensures var d := GameDetailsDump(g);
      && ReqStr(d, "publisher", true) == Value(g.publisher) && ScoreRankField(d) == Value(g.scoreRank)
  {
  }

  lemma DumpReadsCounts(g: GameDetails)
    ensures var d := GameDetailsDump(g);
      && ReqInt(d, "positive") == Value(g.positive) && ReqInt(d, "negative") == Value(g.negative)
      && "userscore" in d && d["userscore"] == g.userscore && ReqStr(d, "owners", false) == Value(g.owners)
      && ReqInt(d, "ccu") == Value(g.ccu)
  {
  }

  lemma DumpReadsPlaytime(g: GameDetails)
    ensures var d := GameDetailsDump(g);
      && ReqInt(d, "average_forever") == Value(g.averageForever) && ReqInt(d, "average_2weeks") == Value(g.average2Weeks)
      && ReqInt(d, "median_forever") == Value(g.medianForever) && ReqInt(d, "median_2weeks") == Value(g.median2Weeks)
  {
  }

  lemma DumpReadsOptional(g: GameDetails)
    requires WithinLimits(g)
    ensures var d := GameDetailsDump(g);
      && OptInt(d, "price") == Value(g.price) && OptInt(d, "initialprice") == Value(g.initialPrice)
      && OptStr(d, "discount", true) == Value(g.discount) && OptStr(d, "languages", false) == Value(g.languages)
      && ReqStr(d, "genre", false) == Value(g.genre)
  {
  }

  lemma DumpReadsTags(g: GameDetails)
    ensures TagsField(GameDetailsDump(g)) == Value(g.tags)
  {
    if g.tags.Some? {
      IntEntriesOfTags(g.tags.value);
    }
  }

  /** Validating a dumped record gives the record back: the dump loses nothing
      the model checks, and every record within the limits is reachable. */
  lemma GameDetailsDumpRoundTrip(g: GameDetails)
    requires WithinLimits(g)
    ensures GameDetailsFromKwargs(GameDetailsDump(g)) == Value(g)
  {
    DumpReadsNames(g);
    DumpReadsPublisher(g);
    DumpReadsCounts(g);
    DumpReadsPlaytime(g);
    DumpReadsOptional(g);
    DumpReadsTags(g);
  }
}
