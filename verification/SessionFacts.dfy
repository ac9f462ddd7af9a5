/** The facts of an entry's context: what reading their bullets gives back, and exactly when that is
    the context that was written. */
module SessionFacts {
  import opened Options
  import opened Quoting
  import opened Section
  import opened SectionFacts
  import opened SessionLines
  import opened SessionStore
  import opened Text

  // -- colons --------------------------------------------------------------------------------------

  lemma NoColonFound(s: string)
    ensures Find(s, ":") == None <==> ':' !in s
    ensures ':' !in s ==> Find(s, ": ") == None
  {
    FindIsFirst(s, ":");
    if ':' in s {
      var j :| 0 <= j < |s| && s[j] == ':';
      assert StandsAt(s, ":", j);
    }
    match Find(s, ":") {
      case None =>
      case Some(i) => assert s[i..i + 1][0] == s[i];
    }
    match Find(s, ": ") {
      case None =>
      case Some(i) => assert s[i..i + 2][0] == s[i];
    }
  }

  lemma BlankTrims(s: string)
    ensures TrimRight(s) == "" <==> Blank(s)
  {
    TrimRightShape(s);
    if Blank(s) {
      assert "" + s == s;
      TrimDropsRight("", s);
    }
  }

  // -- one fact ------------------------------------------------------------------------------------

  /** A bullet's text, as the section parser keeps it. */
  function FactText(codec: Codec, key: string, v: Value): string { Trim(key + ": " + Show(codec, v)) }

  lemma {:induction false} SkipTrims(s: string)
    ensures Trim(SkipReSpace(s)) == Trim(s)
  {
    hide Trim;
    if s != "" && ReSpace(s[0]) {
      SkipTrims(s[1..]);
      SpaceTrimmed(s[0], s[1..]);
      assert [s[0]] + s[1..] == s;
    }
  }

  lemma FactLineIsBullet(codec: Codec, key: string, v: Value)
    ensures var line := DropReturn(FactLine(codec, key, v));
            Bullet(line).Some? && Trim(Bullet(line).value) == FactText(codec, key, v)
            && Trim(line) != "" && !(">" <= Trim(line)) && Heading(line) == None
  {
    hide Show, Trim, DropReturn;
    var text := key + ": " + Show(codec, v);
    assert FactLine(codec, key, v) == ['-'] + ([' '] + text);
    DropReturnLater('-', [' '] + text);
    DropReturnLater(' ', text);
    DashLine(DropReturn(text));
    DropReturnTrims(text);
  }

  lemma DashLine(text: string)
    ensures var line := ['-'] + ([' '] + text);
            Bullet(line).Some? && Trim(Bullet(line).value) == Trim(text)
            && Trim(line) != "" && !(">" <= Trim(line)) && Heading(line) == None
  {
    hide Trim;
    var line := ['-'] + ([' '] + text);
    assert line[1..] == [' '] + text && SkipReSpace(line) == line;
    SkipTrims([' '] + text);
    SpaceTrimmed(' ', text);
    DashTrimmed([' '] + text);
    assert ['-'] == "-";
  }

  lemma DashTrimmed(rest: string)
    ensures Trim("-" + rest) != "" && Trim("-" + rest)[0] == '-'
  {
    TrimRightKeepsFront("-", rest);
  }

  lemma FactStep(codec: Codec, st: BodyState, key: string, v: Value, keys: set<string>)
    ensures BodyStep(st, DropReturn(FactLine(codec, key, v)), keys)
         == BodyState(st.body.(bullets := st.body.bullets + [FactText(codec, key, v)]), InBullets)
  {
    hide Bullet, Trim, FactLine, Show, Heading, DropReturn, FactText;
    FactLineIsBullet(codec, key, v);
  }

  lemma ColonStays(key: string, rest: string)
    ensures ':' in Trim(key + ":" + rest)
  {
    hide Trim, IsSpace;
    var line := key + ":" + rest;
    assert line[|key|] == ':';
    ColonIsNoSpace();
    var at := TrimPart(line);
  }

  /** Any bullet is cut somewhere, and the key in front is trimmed and lacks the separator. */
  lemma FactIsCut(codec: Codec, key: string, v: Value)
    ensures FactOf(FactText(codec, key, v)).Some?
    ensures var found := Trim(FactOf(FactText(codec, key, v)).value.0);
            Trimmed(found) && Find(found, ": ") == None
  {
    hide Show, Trim, Trimmed, FactOf, Find;
    var text := FactText(codec, key, v);
    assert key + ": " + Show(codec, v) == key + ":" + (" " + Show(codec, v));
    ColonStays(key, " " + Show(codec, v));
    FrontOfFact(text);
    var front := FactOf(text).value.0;
    var i := TrimPart(front);
    FoundInPart(front, i, |Trim(front)|, ": ");
    TrimIsTrimmed(front);
  }

  lemma FrontOfFact(text: string)
    requires ':' in text
    ensures FactOf(text).Some? && Find(FactOf(text).value.0, ": ") == None
  {
    hide Cut, Find;
    NoColonFound(text);
    CutFinds(text, ":");
    FrontLacks(text, ": ");
    FrontLacks(text, ":");
    NoColonFound(FactOf(text).value.0);
  }

  lemma ColonIsNoSpace()
    ensures !IsSpace(':')
  {
  }

  lemma CutFinds(s: string, sep: string)
    ensures Cut(s, sep).Some? <==> Find(s, sep).Some?
  {
  }

  lemma ColonTrimmed(key: string, rest: string)
    requires Trimmed(key)
    ensures Trim(key + ":" + rest) == key + ":" + TrimRight(rest)
  {
    TrimRightKeepsFront(key + ":", rest);
    var t := key + ":" + TrimRight(rest);
    assert t[0] == if key == "" then ':' else key[0];
  }

  /** A bullet with a trimmed key that lacks the separator, and something to the right of it. */
  lemma FactCutAtKey(codec: Codec, key: string, v: Value)
    requires Trimmed(key) && Find(key, ": ") == None && !Blank(Show(codec, v))
    ensures FactOf(FactText(codec, key, v)) == Some((key, TrimRight(Show(codec, v))))
  {
    hide Show, Trim, TrimRight, IsSpace, Trimmed;
    var kept := TrimRight(Show(codec, v));
    assert key + ": " + Show(codec, v) == key + ":" + (" " + Show(codec, v));
    ColonTrimmed(key, " " + Show(codec, v));
    BlankTrims(Show(codec, v));
    TrimRightOfBoth(" ", Show(codec, v));
    assert key + ":" + (" " + kept) == key + ": " + kept;
    FirstSeparator(key, kept);
    assert (key + ": " + kept)[..|key|] == key && (key + ": " + kept)[|key| + 2..] == kept;
  }

  lemma FirstSeparator(key: string, rest: string)
    requires Find(key, ": ") == None
    ensures Find(key + ": " + rest, ": ") == Some(|key|)
  {
    FindIsFirst(key, ": ");
    var s := key + ": " + rest;
    assert s[|key|..|key| + 2] == ": ";
    forall j: nat | j < |key|
      ensures !StandsAt(s, ": ", j)
    {
      assert !StandsAt(key, ": ", j);
      if j + 2 <= |key| {
        assert key[j..j + 2] == s[j..j + 2];
      } else {
        assert s[j..j + 2][1] == ':';
      }
    }
    FirstFound(s, ": ", |key|);
  }

  /** A bullet with nothing to the right of its key is cut at the first bare colon. */
  lemma BlankFactCut(codec: Codec, key: string, v: Value)
    requires Trimmed(key) && Find(key, ": ") == None && Blank(Show(codec, v))
    ensures FactOf(FactText(codec, key, v)).Some?
    ensures ':' !in FactOf(FactText(codec, key, v)).value.0
    ensures ':' !in key ==> FactOf(FactText(codec, key, v)) == Some((key, ""))
  {
    hide Show, Trim, TrimRight, IsSpace, Trimmed, Cut, Find;
    assert key + ": " + Show(codec, v) == key + ":" + (" " + Show(codec, v));
    ColonTrimmed(key, " " + Show(codec, v));
    BlankTrims(Show(codec, v));
    TrimRightOfBoth(" ", Show(codec, v));
    SpaceAlone();
    var text := key + ":";
    assert key + ":" + "" == text;
    NoSeparatorEnds(key);
    CutFinds(text, ": ");
    assert ':' in text by {
      assert text[|key|] == ':';
    }
    NoColonFound(text);
    CutFinds(text, ":");
    FrontLacks(text, ":");
    NoColonFound(Cut(text, ":").value.0);
    if ':' !in key {
      CutAfter(key, ":", "");
    }
  }

  lemma SpaceAlone()
    ensures TrimRight(" ") == ""
  {
    assert " "[..0] == "";
  }

  lemma NoSeparatorEnds(key: string)
    ensures Find(key + ":", ": ").Some? ==> Find(key, ": ").Some?
  {
    hide Find;
    var text := key + ":";
    FindIsFirst(key, ": ");
    FoundStands(text, ": ");
    match Find(text, ": ") {
      case None =>
      case Some(j) =>
        assert text[j + 1] == text[j..j + 2][1] == ' ';
        assert key[j..j + 2] == text[j..j + 2];
        assert StandsAt(key, ": ", j);
    }
  }

  lemma SameTrim(codec: Codec, a: string, b: string)
    requires TrimRight(a) == TrimRight(b)
    ensures Coerce(codec, a) == Coerce(codec, b)
  {
  }

  // -- what lasts ----------------------------------------------------------------------------------

  /** A key that is found again in front of what it names. */
  predicate KeyLasts(codec: Codec, key: string, v: Value) {
    && Trimmed(key) && Find(key, ": ") == None
    && (Blank(Show(codec, v)) ==> ':' !in key)
  }

  predicate IsFlagWord(s: string) { s == "true" || s == "yes" || s == "false" || s == "no" }

  /** A fact that is read back as what it was: a text only when it looks like no flag and no number. */
  predicate FactLasts(codec: Codec, v: Value) {
    match v
    case Flag(_) => true
    case Num(x) => !IsFlagWord(ToLower(codec.showFact(x))) && codec.readNumber(codec.showFact(x)) == Some(x)
    case Str(text) => Trimmed(text) && !IsFlagWord(ToLower(text)) && codec.readNumber(text) == None
  }

  /** What a text says, read without regard to case and to the blanks around it: a flag when it is one of
      four words, else the number the library reads in it, else itself without those blanks. */
  ghost predicate Says(codec: Codec, text: string, v: Value) {
    var bare, lower := Trim(text), ToLower(Trim(text));
    if lower == "true" || lower == "yes" then v == Flag(true)
    else if lower == "false" || lower == "no" then v == Flag(false)
    else if codec.readNumber(bare).Some? then v == Num(codec.readNumber(bare).value)
    else v == Str(bare)
  }

  /** Coerce reads from every text exactly what it says. */
  lemma CoerceReadsWhatIsSaid(codec: Codec, text: string, v: Value)
    ensures Coerce(codec, text) == v <==> Says(codec, text, v)
    ensures Coerce(codec, text) == Flag(true) <==> ToLower(Trim(text)) in {"true", "yes"}
    ensures Coerce(codec, text) == Flag(false) <==> ToLower(Trim(text)) in {"false", "no"}
  {
    hide Trim, ToLower;
  }

  lemma FlagWords()
    ensures Trim("true") == "true" && ToLower("true") == "true"
    ensures Trim("false") == "false" && ToLower("false") == "false"
  {
  }

  lemma FactKept(codec: Codec, v: Value)
    requires CleanCodec(codec)
    ensures Coerce(codec, Show(codec, v)) == v <==> FactLasts(codec, v)
  {
    hide Trim, ToLower, Trimmed;
    match v {
      case Flag(on) => FlagWords();
      case Num(x) =>
        assert Clean(codec.showFact(x));
        TrimmedStays(codec.showFact(x));
      case Str(text) =>
        TrimIsTrimmed(text);
        if Trimmed(text) {
          TrimmedStays(text);
        }
    }
  }

  /** A fact's bullet is cut back into its key and its value. */
  lemma FactIsRead(codec: Codec, key: string, v: Value)
    requires KeyLasts(codec, key, v)
    ensures FactOf(FactText(codec, key, v)).Some?
    ensures Trim(FactOf(FactText(codec, key, v)).value.0) == key
    ensures Coerce(codec, FactOf(FactText(codec, key, v)).value.1) == Coerce(codec, Show(codec, v))
  {
    hide FactOf, Show, Coerce, Trim, TrimRight, FactText, IsSpace;
    var show := Show(codec, v);
    BlankTrims(show);
    TrimmedStays(key);
    if Blank(show) {
      BlankFactCut(codec, key, v);
      BlankTrims("");
      SameTrim(codec, "", show);
    } else {
      FactCutAtKey(codec, key, v);
      TrimRightTwice(show);
      SameTrim(codec, TrimRight(show), show);
    }
  }

  // -- a whole context -----------------------------------------------------------------------------

  /** The bullets of a context, in key order. */
  function FactTexts(codec: Codec, context: map<string, Value>, keys: seq<string>): (r: seq<string>)
    requires forall k | k in keys :: k in context
    ensures |r| == |keys| && forall i | 0 <= i < |r| :: r[i] == FactText(codec, keys[i], context[keys[i]])
  {
    seq(|keys|, i requires 0 <= i < |keys| => FactText(codec, keys[i], context[keys[i]]))
  }

  /** The context that is read back from the bullets of another. */
  function KeptContext(codec: Codec, context: map<string, Value>): map<string, Value> {
    ContextOf(codec, FactTexts(codec, context, SortedKeys(context.Keys)))
  }

  predicate KeysLast(codec: Codec, context: map<string, Value>) {
    forall k | k in context :: KeyLasts(codec, k, context[k])
  }

  predicate ContextLasts(codec: Codec, context: map<string, Value>) {
    KeysLast(codec, context) && forall k | k in context :: FactLasts(codec, context[k])
  }

  lemma {:induction false} ContextIsRead(codec: Codec, context: map<string, Value>, keys: seq<string>)
    requires KeysLast(codec, context) && forall k | k in keys :: k in context
    ensures ContextOf(codec, FactTexts(codec, context, keys))
         == map k | k in keys :: Coerce(codec, Show(codec, context[k]))
  {
    hide FactText, FactOf, Coerce, KeyLasts, Show, Trim;
    var texts := FactTexts(codec, context, keys);
    if keys != [] {
      var key := Last(keys);
      assert key in keys && forall k | k in Front(keys) :: k in keys;
      ContextIsRead(codec, context, Front(keys));
      assert Front(texts) == FactTexts(codec, context, Front(keys));
      FactIsRead(codec, key, context[key]);
      assert forall k :: k in keys <==> k in Front(keys) || k == key by {
        assert keys == Front(keys) + [key];
      }
    }
  }

  /** Once its keys last, every fact of a context is read back as what its text says. */
  lemma FactsSayWhatIsRead(codec: Codec, context: map<string, Value>)
    requires KeysLast(codec, context)
    ensures KeptContext(codec, context).Keys == context.Keys
    ensures forall k | k in context :: Says(codec, Show(codec, context[k]), KeptContext(codec, context)[k])
  {
    hide FactTexts, ContextOf, KeyLasts, Coerce, Show, SortedKeys, Says;
    var keys := SortedKeys(context.Keys);
    ContextIsRead(codec, context, keys);
    assert KeptContext(codec, context) == map k | k in keys :: Coerce(codec, Show(codec, context[k]));
    forall k | k in context
      ensures Says(codec, Show(codec, context[k]), KeptContext(codec, context)[k])
    {
      CoerceReadsWhatIsSaid(codec, Show(codec, context[k]), KeptContext(codec, context)[k]);
    }
  }

  lemma {:induction false} KeysAreFound(codec: Codec, texts: seq<string>, k: string)
    requires k in ContextOf(codec, texts)
    ensures exists i | 0 <= i < |texts| :: FactOf(texts[i]).Some? && Trim(FactOf(texts[i]).value.0) == k
  {
    hide FactOf, Coerce, Trim;
    var fact := FactOf(Last(texts));
    if fact.None? || Trim(fact.value.0) != k {
      KeysAreFound(codec, Front(texts), k);
      var i :| 0 <= i < |Front(texts)| && FactOf(Front(texts)[i]).Some? && Trim(FactOf(Front(texts)[i]).value.0) == k;
      assert texts[i] == Front(texts)[i];
    } else {
      assert texts[|texts| - 1] == Last(texts);
    }
  }

  /** Each key that is read back comes from some key's bullet. */
  lemma KeyComesFrom(codec: Codec, context: map<string, Value>, k: string) returns (from: string)
    requires k in KeptContext(codec, context)
    ensures from in context && FactOf(FactText(codec, from, context[from])).Some?
    ensures Trim(FactOf(FactText(codec, from, context[from])).value.0) == k
  {
    hide FactOf, Trim, FactText, SortedKeys, ContextOf;
    var keys := SortedKeys(context.Keys);
    var texts := FactTexts(codec, context, keys);
    KeysAreFound(codec, texts, k);
    var i :| 0 <= i < |texts| && FactOf(texts[i]).Some? && Trim(FactOf(texts[i]).value.0) == k;
    from := keys[i];
  }

  lemma KeptKeysAreCut(codec: Codec, context: map<string, Value>)
    ensures forall k | k in KeptContext(codec, context) :: Trimmed(k) && Find(k, ": ") == None
  {
    hide FactOf, Trim, FactText, KeptContext, Trimmed, Find;
    forall k | k in KeptContext(codec, context)
      ensures Trimmed(k) && Find(k, ": ") == None
    {
      var from := KeyComesFrom(codec, context, k);
      FactIsCut(codec, from, context[from]);
    }
  }

  /** When a context is read back as it was, each of its keys lasts. */
  lemma KeptKeysLast(codec: Codec, context: map<string, Value>)
    requires KeptContext(codec, context) == context
    ensures KeysLast(codec, context)
  {
    hide FactOf, FactText, KeptContext, Trimmed, Find, Blank, Show, Trim;
    KeptKeysAreCut(codec, context);
    forall k | k in context && Blank(Show(codec, context[k]))
      ensures ':' !in k
    {
      var from := KeyComesFrom(codec, context, k);
      if Blank(Show(codec, context[from])) {
        BlankFactCut(codec, from, context[from]);
        var front := FactOf(FactText(codec, from, context[from])).value.0;
        var i := TrimPart(front);
        assert forall c | c in front[i..i + |k|] :: c in front;
      } else {
        FactCutAtKey(codec, from, context[from]);
        TrimmedStays(from);
      }
    }
  }

  /** A context is read back as it was exactly when all its keys and facts last. */
  lemma ContextKept(codec: Codec, context: map<string, Value>)
    requires CleanCodec(codec)
    ensures KeptContext(codec, context) == context <==> ContextLasts(codec, context)
  {
    hide FactTexts, ContextOf, KeyLasts, FactLasts, Coerce, Show, SortedKeys, CleanCodec;
    if KeptContext(codec, context) == context {
      KeptKeysLast(codec, context);
    }
    if KeysLast(codec, context) {
      var keys := SortedKeys(context.Keys);
      ContextIsRead(codec, context, keys);
      forall k | k in context
        ensures Coerce(codec, Show(codec, context[k])) == context[k] <==> FactLasts(codec, context[k])
      {
        FactKept(codec, context[k]);
      }
      assert KeptContext(codec, context) == map k | k in context :: Coerce(codec, Show(codec, context[k]));
    }
  }

  lemma {:induction false} FactsRead(codec: Codec, st: BodyState, context: map<string, Value>, keys: seq<string>,
                                     fields: set<string>)
    requires forall k | k in keys :: k in context
    ensures var after := ReadBody(st, Seen(FactLines(codec, context, keys)), fields);
            after.body == st.body.(bullets := st.body.bullets + FactTexts(codec, context, keys))
  {
    hide FactText, FactLine, BodyStep, ReadBody, DropReturn, Seen, FactLines, FactTexts;
    FactsOneMore(codec, context, keys);
    if keys == [] {
      NothingRead(st, fields);
      assert st.body.bullets + [] == st.body.bullets;
    } else {
      var key, front := Last(keys), Front(keys);
      FactsRead(codec, st, context, front, fields);
      var first, line := Seen(FactLines(codec, context, front)), DropReturn(FactLine(codec, key, context[key]));
      ReadBodyAppend(st, first, [line], fields);
      ReadBodyOne(ReadBody(st, first, fields), line, fields);
      FactStep(codec, ReadBody(st, first, fields), key, context[key], fields);
    }
  }

  lemma FactsOneMore(codec: Codec, context: map<string, Value>, keys: seq<string>)
    requires forall k | k in keys :: k in context
    ensures keys == [] ==> Seen(FactLines(codec, context, keys)) == [] && FactTexts(codec, context, keys) == []
    ensures keys != [] ==>
              && Last(keys) in context && (forall k | k in Front(keys) :: k in context)
              && Seen(FactLines(codec, context, keys))
              == Seen(FactLines(codec, context, Front(keys)))
               + [DropReturn(FactLine(codec, Last(keys), context[Last(keys)]))]
              && FactTexts(codec, context, keys)
              == FactTexts(codec, context, Front(keys)) + [FactText(codec, Last(keys), context[Last(keys)])]
  {
    hide FactText, FactLine, DropReturn;
    if keys != [] {
      assert Last(keys) in keys && forall k | k in Front(keys) :: k in keys;
    }
  }

  lemma NothingRead(st: BodyState, keys: set<string>)
    ensures ReadBody(st, [], keys) == st
  {
  }

  lemma ReadBodyOne(st: BodyState, line: string, keys: set<string>)
    ensures ReadBody(st, [line], keys) == BodyStep(st, line, keys)
  {
    hide BodyStep;
    assert [line][1..] == [];
  }

  lemma ReadBodyFirst(st: BodyState, line: string, rest: seq<string>, keys: set<string>)
    ensures ReadBody(st, [line] + rest, keys) == ReadBody(BodyStep(st, line, keys), rest, keys)
  {
    hide BodyStep;
    assert ([line] + rest)[1..] == rest;
  }
}
