/** section.go, normalized names: what folding leaves of a text, and when normalizing a second time
    changes nothing. */
module Folding {
  import opened Options
  import opened Section
  import opened Text

  /** Single spaces are the only folding characters, and none of them is last. */
  predicate Settled(s: string) {
    forall i | 0 <= i < |s| && Folds(s[i]) :: s[i] == ' ' && i + 1 < |s| && !Folds(s[i + 1])
  }

  lemma SettledTail(s: string)
    requires s != "" && Settled(s)
    ensures Settled(s[1..])
  {
    forall i | 0 <= i < |s[1..]| && Folds(s[1..][i])
      ensures s[1..][i] == ' ' && i + 1 < |s[1..]| && !Folds(s[1..][i + 1])
    {
      assert s[1..][i] == s[i + 1] && Folds(s[i + 1]);
    }
  }

  lemma {:induction false} FoldStays(s: string)
    requires Settled(s)
    ensures Fold(s) == s
    decreases |s|
  {
    if s != "" {
      SettledTail(s);
      FoldStays(s[1..]);
      if Folds(s[0]) {
        assert s[0] == ' ' && s[1] == s[1..][0] && !Folds(s[1]);
        assert DropFolding(s[1..]) == s[1..];
        assert " " + s[1..] == s;
      } else {
        assert [s[0]] + s[1..] == s;
      }
    }
  }

  lemma NormalizeIs(name: string, key: string)
    requires Trimmed(name) && ToLower(name) == key && Settled(key)
    ensures Normalize(name) == key
  {
    FoldStays(key);
  }

  /** A name that starts with a settled word normalizes to something that starts with it. */
  lemma NormalizeStarts(word: string, key: string, rest: string)
    requires Trimmed(word + rest) && ToLower(word) == key && forall i | 0 <= i < |key| :: !Folds(key[i])
    ensures key <= Normalize(word + rest)
  {
    assert ToLower(word + rest) == key + ToLower(rest);
    FoldKeepsPrefix(key, ToLower(rest));
  }

  // -- what folding leaves -------------------------------------------------------------------------

  /** What a character turns into under folding. */
  function Folded(c: char): char { if Folds(c) then ' ' else c }

  lemma {:induction false} DropFoldingShape(s: string)
    ensures DropFolding(s) == s[|s| - |DropFolding(s)|..]
    ensures DropFolding(s) == "" || !Folds(DropFolding(s)[0])
    ensures s != "" && DropFolding(s) == "" ==> Folds(Last(s))
  {
    if s != "" && Folds(s[0]) {
      DropFoldingShape(s[1..]);
    }
  }

  /** Folding keeps a text's two ends, up to folding them, and makes nothing longer. */
  lemma {:induction false} FoldEnds(s: string)
    requires s != ""
    ensures 0 < |Fold(s)| <= |s|
    ensures Fold(s)[0] == Folded(s[0]) && Last(Fold(s)) == Folded(Last(s))
    decreases |s|
  {
    var rest := if Folds(s[0]) then DropFolding(s[1..]) else s[1..];
    DropFoldingShape(s[1..]);
    if rest != "" {
      FoldEnds(rest);
      assert Last(rest) == Last(s);
    }
  }

  /** Every character left is a space or one of the text's own. */
  lemma {:induction false} FoldKeeps(s: string)
    ensures forall c | c in Fold(s) :: c == ' ' || (c in s && !Folds(c))
    decreases |s|
  {
    if s != "" {
      var rest := if Folds(s[0]) then DropFolding(s[1..]) else s[1..];
      DropFoldingShape(s[1..]);
      FoldKeeps(rest);
      assert s[0] in s && forall c | c in rest :: c in s;
    }
  }

  lemma SettledMore(c: char, rest: string)
    requires Settled(rest)
    requires Folds(c) ==> c == ' ' && rest != "" && !Folds(rest[0])
    ensures Settled([c] + rest)
  {
    var s := [c] + rest;
    forall i | 0 <= i < |s| && Folds(s[i])
      ensures s[i] == ' ' && i + 1 < |s| && !Folds(s[i + 1])
    {
      assert i > 0 ==> s[i] == rest[i - 1];
      assert i + 1 < |s| ==> s[i + 1] == rest[i];
    }
  }

  lemma {:induction false} FoldSettles(s: string)
    requires s == "" || !Folds(Last(s))
    ensures Settled(Fold(s))
    decreases |s|
  {
    hide Settled;
    if s == "" {
      NothingSettled();
    } else {
      var rest := if Folds(s[0]) then DropFolding(s[1..]) else s[1..];
      DropFoldingShape(s[1..]);
      assert rest != "" ==> Last(rest) == Last(s);
      FoldSettles(rest);
      if rest != "" {
        FoldEnds(rest);
      }
      SettledMore(Folded(s[0]), Fold(rest));
    }
  }

  lemma NothingSettled()
    ensures Settled("")
  {
  }

  // -- normalizing twice ---------------------------------------------------------------------------

  lemma LowerKeeps(c: char)
    ensures Folds(Lower(c)) == Folds(c) && IsSpace(Lower(c)) == IsSpace(c) && Lower(Lower(c)) == Lower(c)
  {
  }

  /** Neither end of the trimmed text is a hyphen or an underscore. */
  predicate EndsStay(s: string) { s == "" || (!Folds(s[0]) && !Folds(Last(s))) }

  lemma NormalizedStays(s: string)
    requires EndsStay(Trim(s)) && Trim(s) != ""
    ensures Normalize(Normalize(s)) == Normalize(s)
  {
    hide Trim, Fold, IsSpace, Settled, ToLower;
    var t, n := ToLower(Trim(s)), Normalize(s);
    TrimIsTrimmed(s);
    LowerKeeps(Trim(s)[0]);
    LowerKeeps(Last(Trim(s)));
    FoldEnds(t);
    FoldSettles(t);
    forall i | 0 <= i < |n|
      ensures Lower(n[i]) == n[i]
    {
      FoldKeeps(t);
      assert n[i] in n;
      if n[i] != ' ' {
        var k :| 0 <= k < |t| && t[k] == n[i];
        LowerKeeps(Trim(s)[k]);
      }
    }
    assert ToLower(n) == n;
    TrimmedStays(n);
    FoldStays(n);
  }

  lemma NormalizedShrinks(s: string)
    requires !EndsStay(Trim(s))
    ensures |Normalize(Normalize(s))| < |Normalize(s)|
  {
    hide Trim, Fold, IsSpace, ToLower;
    var t, n := ToLower(Trim(s)), Normalize(s);
    LowerKeeps(Trim(s)[0]);
    LowerKeeps(Last(Trim(s)));
    FoldEnds(t);
    TrimShortens(n);
    if Trim(n) != "" {
      FoldEnds(ToLower(Trim(n)));
    } else {
      FoldNothing();
    }
  }

  lemma FoldNothing()
    ensures Fold(ToLower("")) == ""
  {
  }

  lemma TrimShortens(s: string)
    requires s != "" && (s[0] == ' ' || Last(s) == ' ')
    ensures |Trim(s)| < |s|
  {
    TrimIsTrimmed(s);
    if |Trim(s)| == |s| {
      TrimRightShape(s);
      TrimLeftShape(TrimRight(s));
    }
  }

  /** Normalizing is idempotent on exactly the texts that are blank or whose trimmed form neither
      starts nor ends with a hyphen or an underscore: such an end becomes a space, which the second
      trimming takes away. */
  lemma NormalizeTwice(s: string)
    ensures Normalize(Normalize(s)) == Normalize(s)
       <==> Trim(s) == "" || (!Folds(Trim(s)[0]) && !Folds(Last(Trim(s))))
  {
    hide Trim, Fold, ToLower;
    if Trim(s) == "" {
      FoldNothing();
      TrimAll("");
    } else if EndsStay(Trim(s)) {
      NormalizedStays(s);
    } else {
      NormalizedShrinks(s);
    }
  }

  /** A leading hyphen is lost only the second time. */
  lemma LeadingHyphen()
    ensures Normalize("-a") == " a" && Normalize(" a") == "a"
  {
    assert Trim("-a") == "-a" && ToLower("-a") == "-a";
    assert Fold("a") == "a" by {
      FoldStays("a");
    }
    assert "-a"[1..] == "a" && DropFolding("a") == "a";
    assert Fold("-a") == " a";
    assert " a"[1..] == "a" && TrimRight(" a") == " a" && TrimLeft("a") == "a";
    assert Trim(" a") == "a" && ToLower("a") == "a";
  }
}
