/** cleaner.py, the per-value transforms of the Steam store cleaner. A
    DataFrame is its set of columns and its rows; steps that work with
    `inplace=True` or assign a column of the caller's frame are methods of
    the `DataFrame` class, steps that start from a selection `df[mask]`
    (which copies) are functions returning the new rows. Python's
    `ast.literal_eval` is the parameter `eval`. */
module Cleaner {
  import opened PyValues
  import opened PyText

  // ---------------------------------------------------------------------------
  // process_null

  /** The cell values `process_null` turns into None. */
  function NullTokens(): seq<string>
  {
    ["", " ", "None", "none", "null", "N/a", "n/a", "N/A", "NA", "[\"none\"]", "[\"null\"]", "{}"]
  }

  /** `df.replace(convert_to_none, None)` on one cell. */
  function Nullify(c: Cell): (r: Cell)
    ensures r == c || r == CNone
  {
    if c.CStr? && c.s in NullTokens() then CNone else c
  }

  /** Exactly the twelve listed strings are replaced; everything else,
      including other spellings and non-string cells, is kept, and a second
      pass changes nothing. */
  lemma NullifyExact(c: Cell)
    ensures Nullify(c) != c <==>
      c.CStr? && (c.s == "" || c.s == " " || c.s == "None" || c.s == "none" || c.s == "null"
        || c.s == "N/a" || c.s == "n/a" || c.s == "N/A" || c.s == "NA"
        || c.s == "[\"none\"]" || c.s == "[\"null\"]" || c.s == "{}")
    ensures Nullify(Nullify(c)) == Nullify(c)
  {
  }

  /** Look-alikes that are not on the list survive. */
  lemma NullifyKeepsOtherSpellings()
    ensures Nullify(CStr("NULL")) == CStr("NULL") && Nullify(CStr("Null")) == CStr("Null")
    ensures Nullify(CStr("nan")) == CStr("nan") && Nullify(CStr("n/A")) == CStr("n/A")
    ensures Nullify(CStr("[]")) == CStr("[]") && Nullify(CStr("  ")) == CStr("  ")
    ensures Nullify(CInt(0)) == CInt(0) && Nullify(CBool(false)) == CBool(false)
  {
    assert "NULL" != "null" by { assert "NULL"[0] != "null"[0]; }
    assert "Null" != "null" by { assert "Null"[0] != "null"[0]; }
    assert "n/A" != "n/a" by { assert "n/A"[2] != "n/a"[2]; }
    assert "n/A" != "N/A" by { assert "n/A"[0] != "N/A"[0]; }
    assert "n/A" != "N/a" by { assert "n/A"[0] != "N/a"[0]; }
    assert "[]" != "{}" by { assert "[]"[0] != "{}"[0]; }
  }

  function NullifyRow(row: FrameRow): (r: FrameRow)
    ensures r.Keys == row.Keys
  {
    map k | k in row :: Nullify(row[k])
  }

  // ---------------------------------------------------------------------------
  // safe_literal_eval

  /** The texts of string literals. */
  function Texts(items: seq<Json>): seq<string>
    requires forall i :: 0 <= i < |items| ==> items[i].JStr?
  {
    if items == [] then [] else [items[0].s] + Texts(items[1..])
  }

  /** String literals of the given texts. */
  function Literals(strs: seq<string>): (items: seq<Json>)
    ensures |items| == |strs| && forall i :: 0 <= i < |strs| ==> items[i] == JStr(strs[i])
  {
    if strs == [] then [] else [JStr(strs[0])] + Literals(strs[1..])
  }

  /** `";".join(filter(None, items))`: the truthy items, which must all be
      strings, joined with `;`. */
  function JoinTruthy(items: seq<Json>): (r: Py<string>)
    ensures r.Raise? ==> r.exc == TypeError
  {
    var kept := Filter(items, Truthy);
    if forall i :: 0 <= i < |kept| ==> kept[i].JStr? then Value(Join(";", Texts(kept)))
    else Raise(TypeError)
  }

  /** `safe_literal_eval(val)`: a literal list becomes the `;`-join of its
      truthy elements; a value `literal_eval` rejects with ValueError or
      SyntaxError becomes `""`; any other literal gives back `val`. A
      non-string cell is rejected by `literal_eval` with ValueError. */
  function SafeLiteralEval(eval: string -> Py<Json>, val: Cell): (r: Py<Cell>)
    ensures r.Value? ==> r.value.CStr? || r.value == val
    ensures !val.CStr? ==> r == Value(CStr(""))
    ensures val.CStr? && eval(val.s).Raise? ==>
      r == (if eval(val.s).exc in {ValueError, SyntaxError} then Value(CStr("")) else Raise(eval(val.s).exc))
    ensures val.CStr? && eval(val.s).Value? && !eval(val.s).value.JList? ==> r == Value(val)
  {
    var result := if val.CStr? then eval(val.s) else Raise(ValueError);
    match result
    case Raise(e) => if e == ValueError || e == SyntaxError then Value(CStr("")) else Raise(e)
    case Value(JList(items)) =>
      (match JoinTruthy(items) case Value(s) => Value(CStr(s)) case Raise(e) => Raise(e))
    case Value(_) => Value(val)
  }

  /** A literal list of strings without `;` comes back from the joined cell:
      splitting it on `;` gives exactly the non-empty strings, in order. */
  lemma SafeLiteralEvalSplits(eval: string -> Py<Json>, val: string, strs: seq<string>)
    requires eval(val) == Value(JList(Literals(strs)))
    requires forall i :: 0 <= i < |strs| ==> ';' !in strs[i]
    requires exists i :: 0 <= i < |strs| && strs[i] != ""
    ensures SafeLiteralEval(eval, CStr(val)).Value?
    ensures Split(SafeLiteralEval(eval, CStr(val)).value.s, ';') == Filter(strs, NonEmpty)
  {
    JoinTruthyLiterals(strs);
    assert SafeLiteralEval(eval, CStr(val)) == Value(CStr(Join(";", Filter(strs, NonEmpty))));
    JoinedPartsSplit(strs);
  }

  lemma JoinedPartsSplit(strs: seq<string>)
    requires forall i :: 0 <= i < |strs| ==> ';' !in strs[i]
    requires exists i :: 0 <= i < |strs| && strs[i] != ""
    ensures Split(Join(";", Filter(strs, NonEmpty)), ';') == Filter(strs, NonEmpty)
  {
    var parts := Filter(strs, NonEmpty);
    FilterKeepsNoSep(strs);
    var j :| 0 <= j < |strs| && strs[j] != "";
    assert strs[j] in parts;
    SplitJoin(parts, ';');
  }

  lemma JoinTruthyLiterals(strs: seq<string>)
    ensures JoinTruthy(Literals(strs)) == Value(Join(";", Filter(strs, NonEmpty)))
  {
    FilterStrings(strs);
  }

  lemma {:induction false} FilterKeepsNoSep(strs: seq<string>)
    requires forall i :: 0 <= i < |strs| ==> ';' !in strs[i]
    ensures forall i :: 0 <= i < |Filter(strs, NonEmpty)| ==> ';' !in Filter(strs, NonEmpty)[i]
  {
    if strs != [] {
      FilterKeepsNoSep(strs[1..]);
    }
  }

  predicate NonEmpty(s: string)
  {
    s != ""
  }

  /** Filtering string literals by truthiness filters the strings by
      non-emptiness. */
  lemma {:induction false} FilterStrings(strs: seq<string>)
    ensures Filter(Literals(strs), Truthy) == Literals(Filter(strs, NonEmpty))
    ensures Texts(Literals(Filter(strs, NonEmpty))) == Filter(strs, NonEmpty)
  {
    if strs != [] {
      FilterStrings(strs[1..]);
      assert Literals(strs)[1..] == Literals(strs[1..]);
    }
    TextsOfLiterals(Filter(strs, NonEmpty));
  }

  lemma {:induction false} TextsOfLiterals(strs: seq<string>)
    ensures Texts(Literals(strs)) == strs
  {
    if strs != [] {
      TextsOfLiterals(strs[1..]);
    }
  }

  // ---------------------------------------------------------------------------
  // process_age

  function CutPoints(): seq<int>
  {
    [-1, 0, 3, 7, 12, 16, 1000]
  }

  function AgeCategories(): seq<int>
  {
    [0, 3, 7, 12, 16, 18]
  }

  /** `pd.cut(age, bins=cut_points, labels=categories)`: the category of the
      right-closed bin holding `age`, None (NaN) outside every bin. */
  function AgeBin(age: int): Option<int>
  {
    if age <= -1 then None
    else if age <= 0 then Some(0)
    else if age <= 3 then Some(3)
    else if age <= 7 then Some(7)
    else if age <= 12 then Some(12)
    else if age <= 16 then Some(16)
    else if age <= 1000 then Some(18)
    else None
  }

  /** The binning is the one `pd.cut` defines: category `k` exactly for ages in
      `(cut_points[k], cut_points[k + 1]]`, and no category outside `(-1, 1000]`. */
  lemma AgeBinSpec(age: int, category: int)
    ensures AgeBin(age) == Some(category) <==>
      exists k :: 0 <= k < 6 && CutPoints()[k] < age <= CutPoints()[k + 1] && category == AgeCategories()[k]
    ensures AgeBin(age).None? <==> age <= -1 || 1000 < age
  {
    if AgeBin(age) == Some(category) {
      var k := if age <= 0 then 0 else if age <= 3 then 1 else if age <= 7 then 2
        else if age <= 12 then 3 else if age <= 16 then 4 else 5;
      assert CutPoints()[k] < age <= CutPoints()[k + 1] && category == AgeCategories()[k];
    }
  }

  /** Older players never get a lower category. */
  lemma AgeBinMonotone(a: int, b: int)
    requires a <= b && AgeBin(a).Some? && AgeBin(b).Some?
    ensures AgeBin(a).value <= AgeBin(b).value
  {
  }

  /** The age cell's category: booleans count as 0 and 1, strings make `pd.cut`
      raise TypeError. */
  function AgeCell(c: Cell): (r: Py<Cell>)
    ensures r.Raise? <==> c.CStr?
  {
    match c
    case CNone => Value(CNone)
    case CBool(b) => Value(match AgeBin(if b then 1 else 0) case Some(l) => CInt(l) case None => CNone)
    case CInt(i) => Value(match AgeBin(i) case Some(l) => CInt(l) case None => CNone)
    case CStr(_) => Raise(TypeError)
  }

  predicate HasAge(row: FrameRow)
  {
    "required_age" in row && row["required_age"] != CNone
  }

  function AgeRow(row: FrameRow): Py<FrameRow>
  {
    if "required_age" !in row then Raise(KeyError)
    else match AgeCell(row["required_age"])
      case Raise(e) => Raise(e)
      case Value(c) => Value(row["required_age" := c])
  }

  /** `process_age`: rows with a null age are dropped, every other age is
      replaced by its category. The frame's own rows are not changed. */
  function ProcessAge(columns: set<string>, rows: seq<FrameRow>): (r: Py<seq<FrameRow>>)
    requires Framed(columns, rows)
    ensures "required_age" !in columns ==> r == Raise(KeyError)
    ensures "required_age" in columns ==> r == MapPy(AgeRow, Filter(rows, HasAge))
  {
    if "required_age" !in columns then Raise(KeyError)
    else MapPy(AgeRow, Filter(rows, HasAge))
  }

  /** What survives `process_age`: one row per non-null age, in order, each
      with its category and every other column unchanged; it fails only on a
      string age. */
  lemma ProcessAgeRows(columns: set<string>, rows: seq<FrameRow>)
    requires Framed(columns, rows) && "required_age" in columns
    ensures var kept := Filter(rows, HasAge);
      var r := ProcessAge(columns, rows);
      && (forall row :: row in kept <==> row in rows && row["required_age"] != CNone)
      && Framed(columns, kept)
      && (r.Raise? <==> exists i :: 0 <= i < |kept| && kept[i]["required_age"].CStr?)
      && (r.Value? ==> |r.value| == |kept| && forall i :: 0 <= i < |kept| ==>
            r.value[i].Keys == columns
            && (forall k :: k in columns && k != "required_age" ==> r.value[i][k] == kept[i][k])
            && Value(r.value[i]["required_age"]) == AgeCell(kept[i]["required_age"]))
  {
    var kept := Filter(rows, HasAge);
    MapPyElementwise(AgeRow, kept);
    assert forall row :: row in kept ==> row in rows;
    assert forall i :: 0 <= i < |kept| ==> kept[i] in rows;
  }

  // ---------------------------------------------------------------------------
  // parse_platforms

  /** The keys whose value is truthy, in key order. */
  function TruthyKeys(fields: seq<(string, Json)>): (ks: seq<string>)
    ensures forall k :: k in ks <==> exists v :: (k, v) in fields && Truthy(v)
  {
    if fields == [] then []
    else
      var rest := TruthyKeys(fields[1..]);
      assert forall p :: p in fields <==> p == fields[0] || p in fields[1..];
      if Truthy(fields[0].1) then [fields[0].0] + rest else rest
  }

  /** `parse_platforms` once `json.loads` has decoded the cell: the
      `;`-join of the platforms marked truthy; a decoded value that is not an
      object has no `keys` and raises AttributeError. */
  function ParsePlatforms(d: Json): (r: Py<string>)
    ensures r.Raise? <==> !d.JDict?
    ensures r.Raise? ==> r.exc == AttributeError
  {
    match d
    case JDict(fields) => Value(Join(";", TruthyKeys(fields)))
    case _ => Raise(AttributeError)
  }

  /** The joined platforms split back into exactly the truthy keys, in order,
      when no key contains `;`. */
  lemma ParsePlatformsSplits(fields: seq<(string, Json)>)
    requires forall i :: 0 <= i < |fields| ==> ';' !in fields[i].0
    requires exists i :: 0 <= i < |fields| && Truthy(fields[i].1)
    ensures ParsePlatforms(JDict(fields)).Value?
    ensures Split(ParsePlatforms(JDict(fields)).value, ';') == TruthyKeys(fields)
  {
    var ks := TruthyKeys(fields);
    var i :| 0 <= i < |fields| && Truthy(fields[i].1);
    assert fields[i] in fields;
    assert fields[i].0 in ks;
    forall j | 0 <= j < |ks|
      ensures ';' !in ks[j]
    {
      assert ks[j] in ks;
      var v :| (ks[j], v) in fields && Truthy(v);
      var m :| 0 <= m < |fields| && fields[m] == (ks[j], v);
    }
    SplitJoin(ks, ';');
  }

  // ---------------------------------------------------------------------------
  // process_language, process_controller

  /** `1 if "english" in x.lower() else 0`; a cell that is not a string has
      no `lower` and raises AttributeError. */
  function EnglishFlag(c: Cell): (r: Py<Cell>)
    ensures r.Raise? <==> !c.CStr?
    ensures r.Raise? ==> r.exc == AttributeError
  {
    match c
    case CStr(s) => Value(CInt(if HasSubstring(Lower(s), "english") then 1 else 0))
    case _ => Raise(AttributeError)
  }

  /** The flag is 1 exactly when "english" occurs in the lower-cased text,
      and 0 otherwise; upper-casing the text does not change it. */
  lemma EnglishFlagSpec(s: string)
    ensures EnglishFlag(CStr(s)) == Value(CInt(1)) <==> exists i :: OccursAt(Lower(s), "english", i)
    ensures EnglishFlag(CStr(s)) == Value(CInt(0)) <==> !exists i :: OccursAt(Lower(s), "english", i)
    ensures EnglishFlag(CStr(Lower(s))) == EnglishFlag(CStr(s))
  {
    HasSubstringAt(Lower(s), "english");
    LowerIdempotent(s);
  }

  predicate HasLanguages(row: FrameRow)
  {
    "supported_languages" in row && row["supported_languages"] != CNone
  }

  /** The row with its `english` flag and without `supported_languages`. */
  function EnglishRow(row: FrameRow): Py<FrameRow>
  {
    if "supported_languages" !in row then Raise(KeyError)
    else match EnglishFlag(row["supported_languages"])
      case Raise(e) => Raise(e)
      case Value(flag) => Value(row["english" := flag] - {"supported_languages"})
  }

  /** `1 if x == "full" else 0`. */
  function ControllerFlag(c: Cell): (r: Cell)
    ensures r == CInt(1) <==> c == CStr("full")
    ensures r == CInt(0) <==> c != CStr("full")
  {
    CInt(if c == CStr("full") then 1 else 0)
  }

  function ControllerRow(row: FrameRow): (r: FrameRow)
    requires "controller_support" in row
    ensures r.Keys == row.Keys
  {
    row["controller_support" := ControllerFlag(row["controller_support"])]
  }

  // ---------------------------------------------------------------------------
  // process_developers_and_publishers

  /** `str.contains(r'(?i)\["(n/a|na|null)"\]', na=False)`: a string holding
      a one-element list literal of a missing-value word, in any letter case. */
  predicate NaListLiteral(c: Cell)
  {
    c.CStr? &&
      (HasSubstring(Lower(c.s), "[\"n/a\"]") || HasSubstring(Lower(c.s), "[\"na\"]")
       || HasSubstring(Lower(c.s), "[\"null\"]"))
  }

  /** `str.contains(";", na=False)`. */
  predicate HasSemicolon(c: Cell)
  {
    c.CStr? && ';' in c.s
  }

  /** The first selection: both fields non-null and publishers neither
      `[""]` nor `[" "]`. A row lacking either column is not selected. */
  predicate PresentDevPub(row: FrameRow)
  {
    && "developers" in row && "publishers" in row
    && row["developers"] != CNone && row["publishers"] != CNone
    && row["publishers"] != CStr("[\"\"]") && row["publishers"] != CStr("[\" \"]")
  }

  /** The second and third selections. */
  predicate NoNaDevelopers(row: FrameRow)
  {
    "developers" in row && !NaListLiteral(row["developers"])
  }

  predicate NoNaPublishers(row: FrameRow)
  {
    "publishers" in row && !NaListLiteral(row["publishers"])
  }

  /** The fourth and fifth selections. */
  predicate SingleDeveloper(row: FrameRow)
  {
    "developers" in row && !HasSemicolon(row["developers"])
  }

  predicate SinglePublisher(row: FrameRow)
  {
    "publishers" in row && !HasSemicolon(row["publishers"])
  }

  /** The conjunction of the five selections of
      `process_developers_and_publishers`. */
  predicate KeepDevPub(row: FrameRow)
  {
    PresentDevPub(row) && NoNaDevelopers(row) && NoNaPublishers(row)
    && SingleDeveloper(row) && SinglePublisher(row)
  }

  /** The five selections one after the other keep exactly the rows that
      pass all five, in their original order. */
  lemma DevPubSelections(rows: seq<FrameRow>)
    ensures Filter(Filter(Filter(Filter(Filter(rows, PresentDevPub), NoNaDevelopers), NoNaPublishers),
      SingleDeveloper), SinglePublisher) == Filter(rows, KeepDevPub)
  {
    var two := (row: FrameRow) => PresentDevPub(row) && NoNaDevelopers(row);
    var three := (row: FrameRow) => two(row) && NoNaPublishers(row);
    var four := (row: FrameRow) => three(row) && SingleDeveloper(row);
    FilterThenFilter(rows, PresentDevPub, NoNaDevelopers, two);
    FilterThenFilter(rows, two, NoNaPublishers, three);
    FilterThenFilter(rows, three, SingleDeveloper, four);
    FilterThenFilter(rows, four, SinglePublisher, KeepDevPub);
  }

  /** `out` is `src` with `developer` and `publisher` set to the evaluated
      raw fields, the raw `developers` and `publishers` dropped, and every
      other column as it was. */
  predicate EvaluatedDevPub(eval: string -> Py<Json>, src: FrameRow, out: FrameRow)
  {
    && "developers" in src && "publishers" in src
    && out.Keys == src.Keys - {"developers", "publishers"} + {"developer", "publisher"}
    && SafeLiteralEval(eval, src["developers"]) == Value(out["developer"])
    && SafeLiteralEval(eval, src["publishers"]) == Value(out["publisher"])
    && forall k :: k in out && k != "developer" && k != "publisher" ==> k in src && out[k] == src[k]
  }

  /** The row with `developer` and `publisher` evaluated and the raw
      `developers` and `publishers` columns dropped. The source evaluates
      the whole `developers` column before the `publishers` column; here
      each row evaluates both in turn, which differs only in which exception
      surfaces when `eval` raises on two different rows. */
  function DevPubRow(eval: string -> Py<Json>, row: FrameRow): Py<FrameRow>
  {
    if "developers" !in row || "publishers" !in row then Raise(KeyError)
    else match SafeLiteralEval(eval, row["developers"])
      case Raise(e) => Raise(e)
      case Value(dev) =>
        match SafeLiteralEval(eval, row["publishers"])
        case Raise(e) => Raise(e)
        case Value(publ) => Value(row["developer" := dev]["publisher" := publ] - {"developers", "publishers"})
  }

  /** Both raw fields are present and `safe_literal_eval` returns on each. */
  predicate EvaluatesDevPub(eval: string -> Py<Json>, row: FrameRow)
  {
    && "developers" in row && "publishers" in row
    && SafeLiteralEval(eval, row["developers"]).Value? && SafeLiteralEval(eval, row["publishers"]).Value?
  }

  /** A row holding both fields is processed iff both evaluations succeed,
      and then into the evaluated row. */
  lemma DevPubRowEvaluated(eval: string -> Py<Json>, row: FrameRow)
    requires "developers" in row && "publishers" in row
    ensures DevPubRow(eval, row).Value? <==> EvaluatesDevPub(eval, row)
    ensures DevPubRow(eval, row).Value? ==> EvaluatedDevPub(eval, row, DevPubRow(eval, row).value)
  {
  }

  function DevPubRows(eval: string -> Py<Json>): FrameRow -> Py<FrameRow>
  {
    (row: FrameRow) => DevPubRow(eval, row)
  }

  /** Every selected row is evaluated: the map succeeds iff both
      evaluations succeed on every row, each output row being its row
      evaluated. */
  lemma DevPubRowsEvaluated(eval: string -> Py<Json>, kept: seq<FrameRow>)
    requires forall i :: 0 <= i < |kept| ==> "developers" in kept[i] && "publishers" in kept[i]
    ensures MapPy(DevPubRows(eval), kept).Value? <==> forall i :: 0 <= i < |kept| ==> EvaluatesDevPub(eval, kept[i])
    ensures MapPy(DevPubRows(eval), kept).Value? ==>
      |MapPy(DevPubRows(eval), kept).value| == |kept|
      && forall i :: 0 <= i < |kept| ==> EvaluatedDevPub(eval, kept[i], MapPy(DevPubRows(eval), kept).value[i])
  {
    MapPyElementwise(DevPubRows(eval), kept);
    forall i | 0 <= i < |kept|
      ensures DevPubRows(eval)(kept[i]).Value? <==> EvaluatesDevPub(eval, kept[i])
    {
      DevPubRowEvaluated(eval, kept[i]);
    }
    if MapPy(DevPubRows(eval), kept).Value? {
      var out := MapPy(DevPubRows(eval), kept).value;
      forall i | 0 <= i < |kept|
        ensures EvaluatedDevPub(eval, kept[i], out[i])
      {
        DevPubRowEvaluated(eval, kept[i]);
        assert DevPubRow(eval, kept[i]) == Value(out[i]);
      }
    }
  }

  /** Every selected row holds both raw fields. */
  lemma DevPubKept(rows: seq<FrameRow>)
    ensures forall i :: 0 <= i < |Filter(rows, KeepDevPub)| ==>
      "developers" in Filter(rows, KeepDevPub)[i] && "publishers" in Filter(rows, KeepDevPub)[i]
  {
    var kept := Filter(rows, KeepDevPub);
    forall i | 0 <= i < |kept|
      ensures "developers" in kept[i] && "publishers" in kept[i]
    {
      assert kept[i] in kept;
    }
  }

  /** `process_developers_and_publishers`: the selections, then the two
      evaluated columns. The frame's own rows are not changed. */
  function ProcessDevelopersAndPublishers(eval: string -> Py<Json>, columns: set<string>, rows: seq<FrameRow>)
    : (r: Py<seq<FrameRow>>)
    requires Framed(columns, rows)
    ensures "developers" !in columns || "publishers" !in columns ==> r == Raise(KeyError)
    ensures "developers" in columns && "publishers" in columns ==>
      (r.Value? <==> forall i :: 0 <= i < |Filter(rows, KeepDevPub)| ==> EvaluatesDevPub(eval, Filter(rows, KeepDevPub)[i]))
    ensures r.Value? ==>
      && |r.value| == |Filter(rows, KeepDevPub)|
      && forall i :: 0 <= i < |r.value| ==> EvaluatedDevPub(eval, Filter(rows, KeepDevPub)[i], r.value[i])
  {
    if "developers" !in columns || "publishers" !in columns then Raise(KeyError)
    else
      DevPubKept(rows);
      DevPubRowsEvaluated(eval, Filter(rows, KeepDevPub));
      assert MapPy(DevPubRows(eval), Filter(rows, KeepDevPub)).Value? <==> forall i :: 0 <= i < |Filter(rows, KeepDevPub)| ==> EvaluatesDevPub(eval, Filter(rows, KeepDevPub)[i]);
      MapPy(DevPubRows(eval), Filter(rows, KeepDevPub))
  }

  /** A row is processed iff both fields are present, publishers is not
      `[""]` or `[" "]`, and neither field holds a missing-value list
      literal or a `;`. */
  lemma DevPubSurvivors(rows: seq<FrameRow>, row: FrameRow)
    ensures row in Filter(rows, KeepDevPub) <==>
      row in rows && "developers" in row && "publishers" in row
      && row["developers"] != CNone && row["publishers"] != CNone
      && row["publishers"] != CStr("[\"\"]") && row["publishers"] != CStr("[\" \"]")
      && !NaListLiteral(row["developers"]) && !NaListLiteral(row["publishers"])
      && !HasSemicolon(row["developers"]) && !HasSemicolon(row["publishers"])
  {
  }

  /** The pattern is case-insensitive and found anywhere in the field. */
  lemma NaListLiteralAnyCase()
    ensures NaListLiteral(CStr("[\"N/A\"]"))
    ensures NaListLiteral(CStr("Valve, [\"Null\"]"))
  {
    var s1 := "[\"N/A\"]";
    assert Lower(s1) == "[\"n/a\"]";
    assert Lower(s1)[..|"[\"n/a\"]"|] == "[\"n/a\"]";
    var s2 := "Valve, [\"Null\"]";
    assert OccursAt(Lower(s2), "[\"null\"]", 7);
    HasSubstringAt(Lower(s2), "[\"null\"]");
  }

  /** A word that merely starts like a missing-value word does not match. */
  lemma NaListLiteralWholeWord()
    ensures !NaListLiteral(CStr("[\"Nana\"]"))
  {
    var l := Lower("[\"Nana\"]");
    assert l == "[\"nana\"]";
    assert !HasSubstring(l, "[\"na\"]") by {
      assert l[..6] != "[\"na\"]" by { assert l[5] != "[\"na\"]"[5]; }
      assert l[1..][..6] != "[\"na\"]" by { assert l[1] != '['; }
      assert l[2..][..6] != "[\"na\"]" by { assert l[2] != '['; }
      assert |l[3..]| < 6;
    }
    assert !HasSubstring(l, "[\"null\"]") by {
      assert l[..8] != "[\"null\"]" by { assert l[3] != "[\"null\"]"[3]; }
      assert |l[1..]| < 8;
    }
    assert !HasSubstring(l, "[\"n/a\"]") by {
      assert l[..7] != "[\"n/a\"]" by { assert l[3] != "[\"n/a\"]"[3]; }
      assert l[1..][..7] != "[\"n/a\"]" by { assert l[1] != '['; }
      assert |l[2..]| < 7;
    }
  }

  // ---------------------------------------------------------------------------
  // parse_price

  /** `parse_price(x)`: a missing price is the free-to-play marker
      `{"currency": "USD", "initial": -1}`; anything else is
      `literal_eval(x)`, whose errors are not caught. */
  function ParsePrice(eval: string -> Py<Json>, x: Cell): (r: Py<Json>)
    ensures x.CStr? ==> r == eval(x.s)
    ensures !x.CStr? && x != CNone ==> r == Raise(ValueError)
  {
    match x
    case CNone => Value(JDict([("currency", JStr("USD")), ("initial", JInt(-1))]))
    case CStr(s) => eval(s)
    case _ => Raise(ValueError)
  }

  /** The marker reads back as currency USD with initial price -1. */
  lemma ParsePriceMissing(eval: string -> Py<Json>)
    ensures ParsePrice(eval, CNone).Value?
    ensures Index(ParsePrice(eval, CNone).value, "currency") == Value(JStr("USD"))
    ensures Index(ParsePrice(eval, CNone).value, "initial") == Value(JInt(-1))
  {
    var fields := [("currency", JStr("USD")), ("initial", JInt(-1))];
    assert fields[1..][0].0 == "initial";
    assert "currency" != "initial";
  }

  // ---------------------------------------------------------------------------
  // The steps that change the caller's frame

  class DataFrame {
    var columns: set<string>
    var rows: seq<FrameRow>

    predicate Valid()
      reads this
    {
      Framed(columns, rows)
    }

    constructor (columns: set<string>, rows: seq<FrameRow>)
      requires Framed(columns, rows)
      ensures Valid() && this.columns == columns && this.rows == rows
    {
      this.columns := columns;
      this.rows := rows;
    }

    /** `process_null`: every cell holding one of the null tokens becomes
        None, in place; no other cell changes. */
    method ProcessNull()
      requires Valid()
      modifies this
      ensures Valid() && columns == old(columns) && |rows| == |old(rows)|
      ensures forall i :: 0 <= i < |rows| ==> rows[i] == NullifyRow(old(rows)[i])
    {
      var old_rows := rows;
      rows := seq(|old_rows|, i requires 0 <= i < |old_rows| => NullifyRow(old_rows[i]));
    }

    /** `process_language`: drops, in place, the rows without supported
        languages, then replaces that column by the `english` flag. A
        non-string language cell raises after the drop has happened. */
    method ProcessLanguage() returns (r: Py<()>)
      requires Valid()
      modifies this
      ensures Valid()
      ensures "supported_languages" !in old(columns) ==>
        r == Raise(KeyError) && columns == old(columns) && rows == old(rows)
      ensures "supported_languages" in old(columns) ==>
        var kept := Filter(old(rows), HasLanguages);
        var flagged := MapPy(EnglishRow, kept);
        && (flagged.Raise? ==> r == Raise(flagged.exc) && rows == kept && columns == old(columns))
        && (flagged.Value? ==>
              (r == Value(()) && rows == flagged.value
               && columns == old(columns) + {"english"} - {"supported_languages"}))
    {
      if "supported_languages" !in columns {
        return Raise(KeyError);
      }
      var kept := Filter(rows, HasLanguages);
      assert forall i :: 0 <= i < |kept| ==> kept[i] in rows;
      rows := kept;
      var flagged := MapPy(EnglishRow, rows);
      MapPyElementwise(EnglishRow, rows);
      if flagged.Raise? {
        return Raise(flagged.exc);
      }
      columns := columns + {"english"} - {"supported_languages"};
      rows := flagged.value;
      r := Value(());
    }

    /** `process_controller`: in place, `controller_support` becomes 1 for
        "full" and 0 for everything else, None included. */
    method ProcessController() returns (r: Py<()>)
      requires Valid()
      modifies this
      ensures Valid() && columns == old(columns) && |rows| == |old(rows)|
      ensures "controller_support" !in columns ==> r == Raise(KeyError) && rows == old(rows)
      ensures "controller_support" in columns ==>
        (r == Value(()) &&
         forall i :: 0 <= i < |rows| ==>
           rows[i] == old(rows)[i]["controller_support" := ControllerFlag(old(rows)[i]["controller_support"])])
    {
      if "controller_support" !in columns {
        return Raise(KeyError);
      }
      var old_rows := rows;
      rows := seq(|old_rows|, i requires 0 <= i < |old_rows| => ControllerRow(old_rows[i]));
      r := Value(());
    }
  }

  /** After `process_language` every row carries a 0/1 `english` flag that
      says whether its (dropped) languages mention English. */
  lemma EnglishRowFlag(row: FrameRow)
    requires EnglishRow(row).Value?
    ensures "supported_languages" in row && row["supported_languages"].CStr?
    ensures var out := EnglishRow(row).value;
      && "english" in out && "supported_languages" !in out
      && (out["english"] == CInt(1) <==> HasSubstring(Lower(row["supported_languages"].s), "english"))
      && (out["english"] == CInt(0) <==> !HasSubstring(Lower(row["supported_languages"].s), "english"))
  {
  }
}
