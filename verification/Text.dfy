/** Text as the runtime's codecs handle it: characters, lines, trimming and cutting. A character
    stands for a byte of the source's strings; letter classes are ASCII. */
module Text {
  import opened Options

  // -- characters ----------------------------------------------------------------------------------

  /** unicode.IsSpace. */
  predicate IsSpace(c: char) {
    var n := c as int;
    || 9 <= n <= 13
    || n == 32 || n == 0x85 || n == 0xA0 || n == 0x1680
    || 0x2000 <= n <= 0x200A
    || n == 0x2028 || n == 0x2029 || n == 0x202F || n == 0x205F || n == 0x3000
  }

  predicate IsDigit(c: char) { '0' <= c <= '9' }

  predicate IsAlpha(c: char) { 'a' <= c <= 'z' || 'A' <= c <= 'Z' }

  predicate IsHexDigit(c: char) { '0' <= c <= '9' || 'a' <= c <= 'f' }

  // -- lines ---------------------------------------------------------------------------------------

  predicate OneLine(s: string) { '\n' !in s }

  /** strings.Split(s, "\n"). */
  function Lines(s: string): (r: seq<string>)
    ensures |r| > 0
  {
    if s == "" then [""] else Glue(s[0], Lines(s[1..]))
  }

  /** One more character before the lines. */
  function Glue(c: char, lines: seq<string>): (r: seq<string>)
    requires |lines| > 0
    ensures |r| > 0
  {
    if c == '\n' then [""] + lines else [[c] + lines[0]] + lines[1..]
  }

  lemma GlueAppend(c: char, a: seq<string>, b: seq<string>)
    requires |a| > 0
    ensures Glue(c, a + b) == Glue(c, a) + b
    ensures |a| > 1 ==> Front(Glue(c, a)) == Glue(c, Front(a))
  {
    if c != '\n' {
      GlueToFirst(c, a, b);
      if |a| > 1 {
        assert Front(a)[0] == a[0] && Front(a)[1..] == Front(a[1..]);
        assert Front([[c] + a[0]] + a[1..]) == [[c] + a[0]] + Front(a[1..]);
      }
    } else {
      assert [""] + (a + b) == [""] + a + b;
      assert Front([""] + a) == [""] + Front(a);
    }
  }

  lemma GlueToFirst(c: char, a: seq<string>, b: seq<string>)
    requires |a| > 0
    ensures (a + b)[0] == a[0] && [[c] + a[0]] + (a + b)[1..] == [[c] + a[0]] + a[1..] + b
  {
    assert (a + b)[1..] == a[1..] + b;
  }

  /** strings.Join(lines, "\n"). */
  function Join(lines: seq<string>): string {
    if lines == [] then "" else if |lines| == 1 then lines[0] else lines[0] + "\n" + Join(lines[1..])
  }

  /** strings.Join(parts, sep). */
  function JoinWith(sep: string, parts: seq<string>): string {
    if parts == [] then "" else if |parts| == 1 then parts[0] else JoinWith(sep, Front(parts)) + sep + Last(parts)
  }

  /** One part is itself, and each further one follows a separator. */
  lemma JoinWithIs(sep: string, parts: seq<string>, part: string)
    ensures JoinWith(sep, []) == "" && JoinWith(sep, [part]) == part
    ensures parts != [] ==> JoinWith(sep, parts + [part]) == JoinWith(sep, parts) + sep + part
  {
    assert Front(parts + [part]) == parts;
  }

  function Last<T>(s: seq<T>): T
    requires s != []
  {
    s[|s| - 1]
  }

  function Front<T>(s: seq<T>): seq<T>
    requires s != []
  {
    s[..|s| - 1]
  }

  lemma {:induction false} OneLineIsItsLine(s: string)
    requires OneLine(s)
    ensures Lines(s) == [s]
  {
    if s != "" {
      assert s[0] in s && forall c | c in s[1..] :: c in s;
      OneLineIsItsLine(s[1..]);
      assert [s[0]] + s[1..] == s;
    }
  }

  lemma {:induction false} LinesAreOneLine(s: string)
    ensures forall l | l in Lines(s) :: OneLine(l)
  {
    if s != "" {
      LinesAreOneLine(s[1..]);
      var rest := Lines(s[1..]);
      assert OneLine(rest[0]) && forall l | l in rest[1..] :: l in rest;
    }
  }

  /** Two texts joined by a newline have the lines of both. */
  lemma {:induction false} LinesOfBoth(a: string, b: string)
    ensures Lines(a + "\n" + b) == Lines(a) + Lines(b)
  {
    hide Glue;
    var s := a + "\n" + b;
    if a == "" {
      assert s[0] == '\n' && s[1..] == b;
      GlueNewline(Lines(b));
    } else {
      assert s[0] == a[0] && s[1..] == a[1..] + "\n" + b;
      LinesOfBoth(a[1..], b);
      GlueAppend(a[0], Lines(a[1..]), Lines(b));
    }
  }

  lemma GlueNewline(lines: seq<string>)
    requires |lines| > 0
    ensures Glue('\n', lines) == [""] + lines
  {
  }

  /** Text appended after a final newline starts on a line of its own. */
  lemma {:induction false} LinesAppend(a: string, b: string)
    requires Last(Lines(a)) == ""
    ensures Lines(a + b) == Front(Lines(a)) + Lines(b)
  {
    hide Glue;
    if a == "" {
      assert a + b == b && Front(Lines(a)) == [];
    } else {
      assert (a + b)[0] == a[0] && (a + b)[1..] == a[1..] + b;
      var rest := Lines(a[1..]);
      LastGlued(a[0], rest);
      LinesAppend(a[1..], b);
      if |rest| > 1 {
        GlueAppend(a[0], rest, []);
        GlueAppend(a[0], Front(rest), Lines(b));
      } else {
        GlueNewline(Lines(b));
        GlueNewline(rest);
        assert Front(rest) + Lines(b) == Lines(b);
      }
    }
  }

  lemma LastGlued(c: char, lines: seq<string>)
    requires |lines| > 0 && Last(Glue(c, lines)) == ""
    ensures Last(lines) == "" && (|lines| == 1 ==> c == '\n')
  {
  }

  /** The lines of the pieces, one after the other. */
  function FlatLines(pieces: seq<string>): seq<string> {
    if pieces == [] then [] else Lines(pieces[0]) + FlatLines(pieces[1..])
  }

  lemma {:induction false} LinesOfJoin(pieces: seq<string>)
    requires pieces != []
    ensures Lines(Join(pieces)) == FlatLines(pieces)
  {
    if |pieces| == 1 {
      assert FlatLines(pieces[1..]) == [];
      assert Lines(pieces[0]) + [] == Lines(pieces[0]);
    } else {
      LinesOfJoin(pieces[1..]);
      LinesOfBoth(pieces[0], Join(pieces[1..]));
    }
  }

  lemma JoinOfMore(first: string, rest: seq<string>)
    ensures rest != [] ==> Join([first] + rest) == first + "\n" + Join(rest)
    ensures Join([first]) == first
  {
    assert ([first] + rest)[1..] == rest;
  }

  lemma JoinGlued(c: char, lines: seq<string>)
    requires |lines| > 0
    ensures Join(Glue(c, lines)) == [c] + Join(lines)
  {
    hide Join;
    if c == '\n' {
      JoinGluedNewline(lines);
    } else {
      assert lines == [lines[0]] + lines[1..];
      JoinGluedCharacter(c, lines[0], lines[1..]);
    }
  }

  lemma JoinGluedNewline(lines: seq<string>)
    requires |lines| > 0
    ensures Join([""] + lines) == ['\n'] + Join(lines)
  {
    hide Join;
    JoinOfMore("", lines);
    assert "" + "\n" == ['\n'];
  }

  lemma JoinGluedCharacter(c: char, first: string, rest: seq<string>)
    ensures Join([[c] + first] + rest) == [c] + Join([first] + rest)
  {
    hide Join;
    JoinOfMore(first, rest);
    JoinOfMore([c] + first, rest);
    if rest == [] {
      assert [first] + rest == [first] && [[c] + first] + rest == [[c] + first];
    }
  }

  lemma {:induction false} JoinOfLines(s: string)
    ensures Join(Lines(s)) == s
  {
    hide Join, Glue;
    if s == "" {
      JoinOfMore("", []);
    } else {
      JoinOfLines(s[1..]);
      JoinGlued(s[0], Lines(s[1..]));
    }
  }

  lemma {:induction false} FlatLinesAppend(a: seq<string>, b: seq<string>)
    ensures FlatLines(a + b) == FlatLines(a) + FlatLines(b)
  {
    if a == [] {
      assert a + b == b;
    } else {
      assert (a + b)[1..] == a[1..] + b;
      FlatLinesAppend(a[1..], b);
    }
  }

  lemma {:induction false} FlatLinesOfOneLiners(pieces: seq<string>)
    requires forall p | p in pieces :: OneLine(p)
    ensures FlatLines(pieces) == pieces
  {
    if pieces != [] {
      OneLineIsItsLine(pieces[0]);
      FlatLinesOfOneLiners(pieces[1..]);
      assert [pieces[0]] + pieces[1..] == pieces;
    }
  }

  // -- trimming ------------------------------------------------------------------------------------

  function TrimLeft(s: string): string {
    if s != "" && IsSpace(s[0]) then TrimLeft(s[1..]) else s
  }

  function TrimRight(s: string): string {
    if s != "" && IsSpace(s[|s| - 1]) then TrimRight(s[..|s| - 1]) else s
  }

  /** strings.TrimSpace. */
  function Trim(s: string): string { TrimLeft(TrimRight(s)) }

  /** Neither end is blank. */
  predicate Trimmed(s: string) { s == "" || (!IsSpace(s[0]) && !IsSpace(s[|s| - 1])) }

  predicate Blank(s: string) { forall i | 0 <= i < |s| :: IsSpace(s[i]) }

  lemma {:induction false} TrimRightShape(s: string)
    ensures TrimRight(s) <= s && (TrimRight(s) == "" || !IsSpace(Last(TrimRight(s))))
    ensures Blank(s[|TrimRight(s)|..])
  {
    if s != "" && IsSpace(s[|s| - 1]) {
      TrimRightShape(s[..|s| - 1]);
      assert s[|TrimRight(s)|..] == s[..|s| - 1][|TrimRight(s)|..] + [s[|s| - 1]];
    }
  }

  lemma {:induction false} TrimLeftShape(s: string)
    ensures |TrimLeft(s)| <= |s| && TrimLeft(s) == s[|s| - |TrimLeft(s)|..]
    ensures TrimLeft(s) == "" || !IsSpace(TrimLeft(s)[0])
    ensures Blank(s[..|s| - |TrimLeft(s)|])
  {
    if s != "" && IsSpace(s[0]) {
      TrimLeftShape(s[1..]);
      var k := |s| - |TrimLeft(s)|;
      assert s[..k] == [s[0]] + s[1..][..k - 1];
    }
  }

  lemma TrimIsTrimmed(s: string)
    ensures Trimmed(Trim(s)) && |Trim(s)| <= |s|
  {
    TrimRightShape(s);
    TrimLeftShape(TrimRight(s));
  }

  lemma TrimmedStays(s: string)
    requires Trimmed(s)
    ensures Trim(s) == s
  {
  }

  /** Blanks around a trimmed text fall away. */
  lemma {:induction false} TrimDropsRight(s: string, blanks: string)
    requires Blank(blanks)
    ensures TrimRight(s + blanks) == TrimRight(s)
  {
    if blanks == "" {
      assert s + blanks == s;
    } else {
      assert (s + blanks)[..|s + blanks| - 1] == s + blanks[..|blanks| - 1];
      TrimDropsRight(s, blanks[..|blanks| - 1]);
    }
  }

  lemma {:induction false} TrimRightKeepsFront(a: string, b: string)
    requires a != "" && !IsSpace(Last(a))
    ensures TrimRight(a + b) == a + TrimRight(b)
  {
    if b == "" {
      assert a + b == a;
    } else if IsSpace(b[|b| - 1]) {
      assert (a + b)[..|a + b| - 1] == a + b[..|b| - 1];
      TrimRightKeepsFront(a, b[..|b| - 1]);
    }
  }

  lemma TrimAll(blanks: string)
    requires Blank(blanks)
    ensures Trim(blanks) == ""
  {
    assert "" + blanks == blanks;
    TrimDropsRight("", blanks);
  }

  // -- cutting -------------------------------------------------------------------------------------

  predicate StandsAt(s: string, sep: string, i: nat) { i + |sep| <= |s| && s[i..i + |sep|] == sep }

  /** The first place `sep` starts. */
  function Find(s: string, sep: string): (i: Option<nat>)
    ensures i.Some? ==> i.value + |sep| <= |s| && s[i.value..i.value + |sep|] == sep
  {
    if sep <= s then Some(0)
    else if s == "" then None
    else
      match Find(s[1..], sep)
      case None => None
      case Some(k) => assert s[k + 1..k + 1 + |sep|] == s[1..][k..k + |sep|]; Some(k + 1)
  }

  /** strings.Cut: what stands before and after the first `sep`. */
  function Cut(s: string, sep: string): Option<(string, string)> {
    match Find(s, sep)
    case None => None
    case Some(i) => Some((s[..i], s[i + |sep|..]))
  }

  /** A cut at a separator whose first character the front lacks. */
  lemma {:induction false} FindAfter(front: string, sep: string, back: string)
    requires sep != "" && sep[0] !in front
    ensures Find(front + sep + back, sep) == Some(|front|)
  {
    var s := front + sep + back;
    if front == "" {
      assert sep <= s;
    } else {
      assert s[0] == front[0] && front[0] in front;
      assert s[1..] == front[1..] + sep + back;
      assert forall c | c in front[1..] :: c in front;
      FindAfter(front[1..], sep, back);
    }
  }

  lemma CutAfter(front: string, sep: string, back: string)
    requires sep != "" && sep[0] !in front
    ensures Cut(front + sep + back, sep) == Some((front, back))
  {
    FindAfter(front, sep, back);
    var s := front + sep + back;
    assert s[..|front|] == front && s[|front| + |sep|..] == back;
  }

  // -- searching -----------------------------------------------------------------------------------

  lemma SlicedTwice(s: string, i: nat, n: nat, j: nat, m: nat)
    requires i + n <= |s| && j + m <= n
    ensures s[i..i + n][j..j + m] == s[i + j..i + j + m]
  {
    var a, b := s[i..i + n][j..j + m], s[i + j..i + j + m];
    assert |a| == |b| && forall k | 0 <= k < m :: a[k] == b[k];
  }

  lemma StandsOneOn(s: string, sep: string, j: nat)
    requires s != "" && j > 0
    ensures StandsAt(s, sep, j) <==> StandsAt(s[1..], sep, j - 1)
  {
    if j + |sep| <= |s| {
      assert s[1..] == s[1..1 + (|s| - 1)];
      SlicedTwice(s, 1, |s| - 1, j - 1, |sep|);
    }
  }

  lemma StandsFurther(s: string, sep: string)
    ensures StandsAt(s, sep, 0) <==> sep <= s
    ensures s != "" ==> forall j: nat | j > 0 :: StandsAt(s, sep, j) <==> StandsAt(s[1..], sep, j - 1)
  {
    if s != "" {
      forall j: nat | j > 0
        ensures StandsAt(s, sep, j) <==> StandsAt(s[1..], sep, j - 1)
      {
        StandsOneOn(s, sep, j);
      }
    }
  }

  lemma {:induction false} FirstFound(s: string, sep: string, i: nat)
    requires StandsAt(s, sep, i) && forall j: nat | j < i :: !StandsAt(s, sep, j)
    ensures Find(s, sep) == Some(i)
  {
    StandsFurther(s, sep);
    if i > 0 {
      assert !StandsAt(s, sep, 0) && s != "";
      assert StandsAt(s[1..], sep, i - 1);
      forall j: nat | j < i - 1
        ensures !StandsAt(s[1..], sep, j)
      {
        assert !StandsAt(s, sep, j + 1);
      }
      FirstFound(s[1..], sep, i - 1);
    }
  }

  lemma {:induction false} FindIsFirst(s: string, sep: string)
    ensures Find(s, sep) == None ==> forall j: nat :: !StandsAt(s, sep, j)
    ensures Find(s, sep).Some? ==> forall j: nat | j < Find(s, sep).value :: !StandsAt(s, sep, j)
  {
    StandsFurther(s, sep);
    if s == "" {
      NothingStands(sep);
    } else if !(sep <= s) {
      hide StandsAt;
      FindIsFirst(s[1..], sep);
      forall j: nat | StandsAt(s, sep, j)
        ensures 0 < j && StandsAt(s[1..], sep, j - 1)
      {
      }
    }
  }

  lemma NothingStands(sep: string)
    ensures sep != "" ==> forall j: nat :: !StandsAt("", sep, j)
  {
  }

  lemma FoundStands(s: string, sep: string)
    ensures Find(s, sep).Some? ==> StandsAt(s, sep, Find(s, sep).value)
  {
  }

  /** What stands before the first separator lacks it. */
  lemma FrontLacks(s: string, sep: string)
    requires sep != ""
    ensures Cut(s, sep).Some? ==> Find(Cut(s, sep).value.0, sep) == None
  {
    hide Find;
    FindIsFirst(s, sep);
    match Find(s, sep) {
      case None =>
      case Some(i) =>
        var front := s[..i];
        FoundStands(front, sep);
        forall j: nat | StandsAt(front, sep, j)
          ensures j < i && StandsAt(s, sep, j)
        {
          assert front[j..j + |sep|] == s[j..j + |sep|];
        }
    }
  }

  /** What a part of a text holds, the text holds. */
  lemma FoundInPart(s: string, i: nat, n: nat, sep: string)
    requires i + n <= |s|
    ensures Find(s[i..i + n], sep).Some? ==> Find(s, sep).Some?
  {
    hide Find;
    var part := s[i..i + n];
    FindIsFirst(s, sep);
    FoundStands(part, sep);
    match Find(part, sep) {
      case None =>
      case Some(j) =>
        SlicedTwice(s, i, n, j, |sep|);
        assert StandsAt(s, sep, i + j);
    }
  }

  /** Trimming takes a part of the text that holds all its other characters. */
  lemma TrimPart(s: string) returns (i: nat)
    ensures i + |Trim(s)| <= |s| && Trim(s) == s[i..i + |Trim(s)|]
    ensures forall c | c in s && !IsSpace(c) :: c in Trim(s)
  {
    hide IsSpace, TrimRight, TrimLeft;
    var kept := TrimRight(s);
    TrimRightShape(s);
    TrimLeftShape(kept);
    i := |kept| - |Trim(s)|;
    assert s[..|kept|] == kept;
    assert s == kept[..i] + Trim(s) + s[|kept|..];
    BlankLacks(kept[..i]);
    BlankLacks(s[|kept|..]);
  }

  lemma BlankLacks(blanks: string)
    requires Blank(blanks)
    ensures forall c | c in blanks :: IsSpace(c)
  {
  }

  // -- decimal numbers -----------------------------------------------------------------------------

  function Digit(n: nat): char
    requires n < 10
  {
    "0123456789"[n]
  }

  function Decimal(n: nat): (s: string)
    ensures s != ""
  {
    if n < 10 then [Digit(n)] else Decimal(n / 10) + [Digit(n % 10)]
  }

  predicate AllDigits(s: string) { forall i | 0 <= i < |s| :: IsDigit(s[i]) }

  function Number(s: string): nat
    requires AllDigits(s)
  {
    if s == "" then 0 else 10 * Number(Front(s)) + (Last(s) as int - '0' as int)
  }

  lemma {:induction false} NumberOfDecimal(n: nat)
    ensures AllDigits(Decimal(n)) && Number(Decimal(n)) == n
  {
    if n < 10 {
      assert Front(Decimal(n)) == "";
    } else {
      NumberOfDecimal(n / 10);
      assert Front(Decimal(n)) == Decimal(n / 10);
    }
  }

  // -- the order of strings ------------------------------------------------------------------------

  /** Go's string order: lexicographic, a proper prefix first. */
  predicate Before(a: string, b: string) {
    b != "" && (a == "" || a[0] < b[0] || (a[0] == b[0] && Before(a[1..], b[1..])))
  }

  lemma {:induction false} BeforeIsTotal(a: string, b: string)
    ensures a == b || Before(a, b) || Before(b, a)
    ensures !(Before(a, b) && Before(b, a)) && !Before(a, a)
  {
    if a != "" && b != "" {
      BeforeIsTotal(a[1..], b[1..]);
      if a[0] == b[0] && a[1..] == b[1..] {
        assert a == [a[0]] + a[1..] && b == [b[0]] + b[1..];
      }
    }
    if a != "" {
      BeforeIsTotal(a[1..], a[1..]);
    }
  }

  lemma {:induction false} BeforeIsTransitive(a: string, b: string, c: string)
    requires Before(a, b) && Before(b, c)
    ensures Before(a, c)
  {
    if a != "" && a[0] == b[0] && b[0] == c[0] {
      BeforeIsTransitive(a[1..], b[1..], c[1..]);
    }
  }

  /** The texts part at k: there the first has ended or has the smaller character. */
  predicate PartAt(a: string, b: string, k: nat) {
    k <= |a| && k < |b| && a[..k] == b[..k] && (k == |a| || a[k] < b[k])
  }

  /** One text comes before another when it is a proper prefix or has the smaller character where they
      first differ. */
  lemma {:induction false} BeforeMeans(a: string, b: string)
    ensures Before(a, b) <==> exists k: nat :: PartAt(a, b, k)
  {
    if b != "" {
      if a == "" || a[0] < b[0] {
        assert PartAt(a, b, 0);
      } else {
        BeforeMeans(a[1..], b[1..]);
        if a[0] == b[0] {
          if k: nat :| PartAt(a[1..], b[1..], k) {
            assert a[..k + 1] == [a[0]] + a[1..][..k] && b[..k + 1] == [b[0]] + b[1..][..k];
            assert PartAt(a, b, k + 1);
          }
        }
        if k: nat :| PartAt(a, b, k) {
          assert k > 0 && a[..k][0] == b[..k][0];
          assert a[1..][..k - 1] == a[..k][1..] && b[1..][..k - 1] == b[..k][1..];
          assert PartAt(a[1..], b[1..], k - 1);
        }
      }
    }
  }

  predicate IsLeast(s: set<string>, m: string) {
    m in s && forall x | x in s :: x == m || Before(m, x)
  }

  lemma {:induction false} HasLeast(s: set<string>)
    requires s != {}
    ensures exists m :: IsLeast(s, m)
    ensures forall m, n | IsLeast(s, m) && IsLeast(s, n) :: m == n
  {
    var x :| x in s;
    if s == {x} {
      assert IsLeast(s, x);
    } else {
      HasLeast(s - {x});
      var m :| IsLeast(s - {x}, m);
      BeforeIsTotal(x, m);
      if Before(x, m) {
        forall y | y in s && y != x
          ensures Before(x, y)
        {
          if y != m {
            BeforeIsTransitive(x, m, y);
          }
        }
        assert IsLeast(s, x);
      } else {
        assert IsLeast(s, m);
      }
    }
    forall m, n | IsLeast(s, m) && IsLeast(s, n)
      ensures m == n
    {
      BeforeIsTotal(m, n);
    }
  }

  /** sortedKeys: the keys of a map in string order. */
  function SortedKeys(keys: set<string>): (r: seq<string>)
    ensures forall x :: x in r <==> x in keys
    ensures forall i, j | 0 <= i < j < |r| :: Before(r[i], r[j])
    decreases keys
  {
    if keys == {} then []
    else
      HasLeast(keys);
      var m :| IsLeast(keys, m);
      [m] + SortedKeys(keys - {m})
  }

  lemma SortedKeysDiffer(keys: set<string>)
    ensures forall i, j | 0 <= i < j < |SortedKeys(keys)| :: SortedKeys(keys)[i] != SortedKeys(keys)[j]
  {
    var r := SortedKeys(keys);
    forall i, j | 0 <= i < j < |r|
      ensures r[i] != r[j]
    {
      BeforeIsTotal(r[i], r[j]);
    }
  }
}
