/** A library the JSON-lines trail's assumption holds of: an object's fields in key order, every
    character behind a mark. */
module PlainJson {
  import opened Options
  import opened Text
  import opened TrailJsonl

  function Marked(s: string): string {
    if s == "" then ";" else (if s[0] == '\n' then "n." else ['=', s[0]]) + Marked(s[1..])
  }

  function Encoded(pairs: seq<(string, string)>): string {
    if pairs == [] then "." else Marked(pairs[0].0) + (Marked(pairs[0].1) + Encoded(pairs[1..]))
  }

  function Pairs(m: Fields): (r: seq<(string, string)>)
    ensures |r| == |SortedKeys(m.Keys)|
    ensures forall i | 0 <= i < |r| :: r[i].0 == SortedKeys(m.Keys)[i] && r[i].0 in m && r[i].1 == m[r[i].0]
  {
    var keys := SortedKeys(m.Keys);
    assert forall k | k in keys :: k in m;
    seq(|keys|, i requires 0 <= i < |keys| => (keys[i], m[keys[i]]))
  }

  function Marshal(m: Fields): string { Encoded(Pairs(m)) }

  /** The object a line was made of. */
  ghost function Unmarshal(line: string): Option<Fields> {
    if m: Fields :| Marshal(m) == line then Some(m) else None
  }

  lemma {:induction false} MarkedSplit(a: string, x: string, b: string, y: string)
    requires Marked(a) + x == Marked(b) + y
    ensures a == b && x == y
    decreases |a|
  {
    var s, t := Marked(a) + x, Marked(b) + y;
    assert s[0] == t[0];
    if a == "" {
      assert x == s[1..] && y == t[1..];
    } else {
      assert s[1] == t[1];
      assert s[2..] == Marked(a[1..]) + x && t[2..] == Marked(b[1..]) + y;
      MarkedSplit(a[1..], x, b[1..], y);
      assert a == [a[0]] + a[1..] && b == [b[0]] + b[1..];
    }
  }

  lemma {:induction false} EncodedDiffer(a: seq<(string, string)>, b: seq<(string, string)>)
    requires Encoded(a) == Encoded(b)
    ensures a == b
  {
    if a != [] && b != [] {
      MarkedSplit(a[0].0, Marked(a[0].1) + Encoded(a[1..]), b[0].0, Marked(b[0].1) + Encoded(b[1..]));
      MarkedSplit(a[0].1, Encoded(a[1..]), b[0].1, Encoded(b[1..]));
      EncodedDiffer(a[1..], b[1..]);
      assert a == [a[0]] + a[1..] && b == [b[0]] + b[1..];
    }
  }

  lemma MarshalDiffers(m: Fields, n: Fields)
    requires Marshal(m) == Marshal(n)
    ensures m == n
  {
    hide SortedKeys, Encoded;
    EncodedDiffer(Pairs(m), Pairs(n));
    var p, keys, others := Pairs(m), SortedKeys(m.Keys), SortedKeys(n.Keys);
    assert forall i | 0 <= i < |p| :: keys[i] == p[i].0 == others[i];
    assert keys == others;
    forall k
      ensures k in m <==> k in n
    {
      assert k in m <==> k in keys;
      assert k in n <==> k in others;
    }
    forall k | k in m
      ensures m[k] == n[k]
    {
      assert k in keys;
      var i :| 0 <= i < |keys| && keys[i] == k;
      assert p[i].1 == m[k] && Pairs(n)[i].1 == n[k];
    }
  }

  lemma {:induction false} MarkedIsOneLine(s: string)
    ensures OneLine(Marked(s))
  {
    if s != "" {
      MarkedIsOneLine(s[1..]);
    }
  }

  lemma {:induction false} EncodedIsOneLine(pairs: seq<(string, string)>)
    ensures OneLine(Encoded(pairs)) && Encoded(pairs) != "" && Last(Encoded(pairs)) == '.'
  {
    if pairs != [] {
      MarkedIsOneLine(pairs[0].0);
      MarkedIsOneLine(pairs[0].1);
      EncodedIsOneLine(pairs[1..]);
    }
  }

  lemma NotBlank(s: string)
    requires s != "" && Last(s) == '.'
    ensures Trim(s) != ""
  {
    assert TrimRight(s) == s;
    TrimLeftShape(s);
    assert !IsSpace(Last(s));
  }

  /** The assumption on the JSON library can be met. */
  lemma PlainJsonIsCanonical(number: string -> nat)
    ensures Canonical(Json(Marshal, line => Unmarshal(line), number))
  {
    hide Marshal, Trim;
    var json := Json(Marshal, line => Unmarshal(line), number);
    forall m: Fields
      ensures json.unmarshal(json.marshal(m)) == Some(m) && OneLine(json.marshal(m)) && Trim(json.marshal(m)) != ""
    {
      MarshalShape(m);
      var n :| Unmarshal(Marshal(m)) == Some(n) && Marshal(n) == Marshal(m);
      MarshalDiffers(m, n);
    }
  }

  lemma MarshalShape(m: Fields)
    ensures OneLine(Marshal(m)) && Trim(Marshal(m)) != ""
  {
    hide Trim;
    EncodedIsOneLine(Pairs(m));
    NotBlank(Marshal(m));
  }
}
