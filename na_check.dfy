/** utils.py's `check_na`: how many cells of a column look like a missing
    value ("n/a", "na" or "null" in any letter case, surrounded by nothing
    but whitespace), and the rows that hold them. */
module NaCheck {
  import opened PyValues
  import opened PyText

  /** The words the pattern `(?i)\b(n/a|na|null)\b` accepts in full, once
      lower-cased. */
  predicate NaWord(t: string)
  {
    t == "n/a" || t == "na" || t == "null"
  }

  /** `is_na_like(value)`: `pattern.fullmatch(str(value).strip())`. */
  predicate IsNaLike(c: Cell)
  {
    NaWord(Lower(Strip(CellStr(c))))
  }

  /** `Lower(s) == t` when they agree letter by letter. */
  lemma LowerSpelled(s: string, t: string)
    requires |s| == |t| && forall i :: 0 <= i < |s| ==> LowerChar(s[i]) == t[i]
    ensures Lower(s) == t
  {
  }

  /** The accepted words, in every letter case. */
  lemma NaLikeUpperCase()
    ensures IsNaLike(CStr("N/A"))
  {
    StripKeepsSpaceFree("N/A");
    LowerSpelled("N/A", "n/a");
  }

  lemma NaLikeMixedCase()
    ensures IsNaLike(CStr("nA"))
  {
    StripKeepsSpaceFree("nA");
    LowerSpelled("nA", "na");
  }

  /** Surrounding whitespace is stripped before the match. */
  lemma NaLikePadded()
    ensures IsNaLike(CStr(" " + "Null" + "\t"))
  {
    StripKeepsSpaceFree("Null");
    LowerSpelled("Null", "null");
    IsNaLikeIgnoresSpace("Null", " ", "\t");
  }

  /** The match is of the whole stripped text: near misses are rejected. */
  lemma NotNaLikeNan()
    ensures !IsNaLike(CStr("nan"))
  {
    StripKeepsSpaceFree("nan");
    LowerSpelled("nan", "nan");
    assert !NaWord("nan");
  }

  lemma NotNaLikeNone()
    ensures !IsNaLike(CStr("none"))
  {
    StripKeepsSpaceFree("none");
    LowerSpelled("none", "none");
    assert !NaWord("none");
  }

  lemma NotNaLikeLonger()
    ensures !IsNaLike(CStr("n/a x"))
  {
    StripKeepsSpaceFree("n/a x");
    LowerSpelled("n/a x", "n/a x");
    assert !NaWord("n/a x");
  }

  lemma NotNaLikeEmpty()
    ensures !IsNaLike(CStr(""))
  {
    StripKeepsSpaceFree("");
  }

  lemma LowerCharKeepsSpace(c: char)
    ensures IsSpace(LowerChar(c)) == IsSpace(c)
  {
  }

  /** Letter case does not matter. */
  lemma {:induction false} IsNaLikeIgnoresCase(s: string)
    ensures IsNaLike(CStr(Lower(s))) <==> IsNaLike(CStr(s))
  {
    assert CellStr(CStr(Lower(s))) == Lower(s);
    assert CellStr(CStr(s)) == s;
    LowerStrip(s);
    LowerIdempotent(Strip(s));
  }

  /** Lower-casing keeps whitespace where it is, so it commutes with `strip`. */
  lemma {:induction false} LowerStrip(s: string)
    ensures Strip(Lower(s)) == Lower(Strip(s))
  {
    LowerStripLeft(s);
    LowerStripRight(StripLeft(s));
  }

  lemma {:induction false} LowerStripLeft(s: string)
    ensures StripLeft(Lower(s)) == Lower(StripLeft(s))
  {
    if s != [] {
      LowerCharKeepsSpace(s[0]);
      if IsSpace(s[0]) {
        assert Lower(s)[1..] == Lower(s[1..]);
        LowerStripLeft(s[1..]);
      }
    }
  }

  lemma {:induction false} LowerStripRight(s: string)
    ensures StripRight(Lower(s)) == Lower(StripRight(s))
  {
    if s != [] {
      LowerCharKeepsSpace(s[|s| - 1]);
      if IsSpace(s[|s| - 1]) {
        assert Lower(s)[..|s| - 1] == Lower(s[..|s| - 1]);
        LowerStripRight(s[..|s| - 1]);
      }
    }
  }

  /** Surrounding whitespace does not matter. */
  lemma IsNaLikeIgnoresSpace(s: string, pre: string, post: string)
    requires forall i :: 0 <= i < |pre| ==> IsSpace(pre[i])
    requires forall i :: 0 <= i < |post| ==> IsSpace(post[i])
    ensures IsNaLike(CStr(pre + s + post)) <==> IsNaLike(CStr(s))
  {
    StripSurrounded(s, pre, post);
  }

  lemma StripSurrounded(s: string, pre: string, post: string)
    requires forall i :: 0 <= i < |pre| ==> IsSpace(pre[i])
    requires forall i :: 0 <= i < |post| ==> IsSpace(post[i])
    ensures Strip(pre + s + post) == Strip(s)
  {
    var tail := s + post;
    assert pre + s + post == pre + tail;
    StripLeftSpaces(pre, tail);
    StripLeftAppend(s, post);
    var left := StripLeft(s);
    if left == [] {
      StripLeftSpaces(post, []);
      assert post + [] == post;
      assert StripLeft(pre + s + post) == [];
      assert Strip(s) == StripRight(left);
    } else {
      StripRightSpaces(left, post);
      assert StripLeft(pre + s + post) == left + post;
    }
  }

  lemma {:induction false} StripLeftSpaces(pre: string, s: string)
    requires forall i :: 0 <= i < |pre| ==> IsSpace(pre[i])
    ensures StripLeft(pre + s) == StripLeft(s)
  {
    if pre != [] {
      assert (pre + s)[1..] == pre[1..] + s;
      StripLeftSpaces(pre[1..], s);
    } else {
      assert pre + s == s;
    }
  }

  /** Stripping the left of `s + post` strips `s`, unless `s` is all
      whitespace, when it strips `post`. */
  lemma {:induction false} StripLeftAppend(s: string, post: string)
    ensures StripLeft(s + post) == if StripLeft(s) == [] then StripLeft(post) else StripLeft(s) + post
  {
    if s == [] {
      assert s + post == post;
    } else if IsSpace(s[0]) {
      assert (s + post)[1..] == s[1..] + post;
      StripLeftAppend(s[1..], post);
    } else {
      assert (s + post)[0] == s[0];
    }
  }

  lemma {:induction false} StripRightSpaces(t: string, post: string)
    requires forall i :: 0 <= i < |post| ==> IsSpace(post[i])
    ensures StripRight(t + post) == StripRight(t)
  {
    if post == [] {
      assert t + post == t;
    } else {
      var s := t + post;
      assert s[..|s| - 1] == t + post[..|post| - 1];
      StripRightSpaces(t, post[..|post| - 1]);
    }
  }

  /** A text with no surrounding whitespace that does not start with an `n`
      in any case is not one of the words. */
  lemma NotNaLikeInitial(s: string)
    requires s != [] && !IsSpace(s[0]) && !IsSpace(s[|s| - 1])
    requires LowerChar(s[0]) != 'n'
    ensures !IsNaLike(CStr(s))
  {
    StripKeepsSpaceFree(s);
    NotNaWordInitial(Lower(s));
  }

  lemma NotNaWordFour(t: string)
    requires |t| == 4 && t[1] != 'u'
    ensures !NaWord(t)
  {
    assert "null"[1] == 'u';
  }

  lemma NotNaWordInitial(t: string)
    requires t != [] && t[0] != 'n'
    ensures !NaWord(t)
  {
    assert "n/a"[0] == 'n' && "na"[0] == 'n' && "null"[0] == 'n';
  }

  /** `str(None)` is "None". */
  lemma NoneNotNaLike()
    ensures !IsNaLike(CNone)
  {
    LowerNone();
    StripKeepsSpaceFree("None");
    NotNaWordFour(Lower("None"));
  }

  lemma LowerNone()
    ensures Lower("None")[1] == 'o'
  {
    assert "None"[1] == 'o';
  }

  /** `str(b)` is "True" or "False". */
  lemma BoolNotNaLike(b: bool)
    ensures !IsNaLike(CBool(b))
  {
    var s := CellStr(CBool(b));
    assert s[0] == 'T' || s[0] == 'F';
    NotNaLikeInitial(s);
  }

  /** `str(i)` starts with a sign or a digit. */
  lemma IntNotNaLike(i: int)
    ensures !IsNaLike(CInt(i))
  {
    var s := CellStr(CInt(i));
    assert s[0] == '-' || IsDigit(s[0]);
    NotNaLikeInitial(s);
  }

  /** Cells that are not strings never look missing: `str(None)` is
      "None", booleans become "True"/"False", integers their digits. */
  lemma NonStringsAreNotNaLike(c: Cell)
    requires !c.CStr?
    ensures !IsNaLike(c)
  {
    match c
    case CNone => NoneNotNaLike();
    case CBool(b) => BoolNotNaLike(b);
    case CInt(i) => IntNotNaLike(i);
  }

  predicate NaAt(column: string, row: FrameRow)
  {
    column in row && IsNaLike(row[column])
  }

  function NaRows(column: string): FrameRow -> bool
  {
    (row: FrameRow) => NaAt(column, row)
  }

  /** `check_na(df, column)`: the count it reports and the matching rows, in
      order; a column the frame lacks raises KeyError. */
  function CheckNa(columns: set<string>, rows: seq<FrameRow>, column: string): (r: Py<(nat, seq<FrameRow>)>)
    requires Framed(columns, rows)
    ensures column !in columns <==> r == Raise(KeyError)
    ensures r.Value? ==> r.value.1 == Filter(rows, NaRows(column))
    ensures r.Value? ==> r.value.0 == |r.value.1|
    ensures r.Value? ==> forall row :: row in r.value.1 <==> row in rows && IsNaLike(row[column])
  {
    if column !in columns then Raise(KeyError)
    else
      var count := CountWhere(rows, NaRows(column));
      CountIsFilterLength(rows, NaRows(column));
      Value((count, Filter(rows, NaRows(column))))
  }
}
