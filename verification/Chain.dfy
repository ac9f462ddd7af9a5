/** The hash chain every trail carries: reasoninglog.go links each record to the one before it, and
    trailfile.go recomputes the links from the bytes it finds. The hash is any function whose output
    is non-empty lower-case hexadecimal. */
module Chain {
  import opened Options
  import opened Text

  const GENESIS := "ear-genesis"

  /** One persisted record: the bytes its hash was taken over, and the hash stored beside them. */
  datatype Link = Link(payload: string, stored: string)

  type Hash = string -> string

  predicate IsHex(s: string) { s != "" && forall i | 0 <= i < |s| :: IsHexDigit(s[i]) }

  ghost predicate HexOutput(hash: Hash) { forall text :: IsHex(hash(text)) }

  function ChainLink(hash: Hash, previous: string, payload: string): string { hash(previous + "\n" + payload) }

  function Payloads(links: seq<Link>): (r: seq<string>)
    ensures |r| == |links| && forall i | 0 <= i < |r| :: r[i] == links[i].payload
  {
    seq(|links|, i requires 0 <= i < |links| => links[i].payload)
  }

  /** The tip of the chain over some payloads. */
  function TipOver(hash: Hash, payloads: seq<string>): string {
    if payloads == [] then GENESIS else ChainLink(hash, TipOver(hash, Front(payloads)), Last(payloads))
  }

  /** The chain starts at a fixed word, and each tip is the hash of the tip before it, a newline and the payload. */
  lemma TipIs(hash: Hash, payloads: seq<string>, payload: string)
    ensures TipOver(hash, []) == "ear-genesis"
    ensures TipOver(hash, payloads + [payload]) == hash(TipOver(hash, payloads) + "\n" + payload)
  {
    assert Front(payloads + [payload]) == payloads;
  }

  /** The links a writer makes of some payloads. */
  function Stamp(hash: Hash, payloads: seq<string>): (r: seq<Link>)
    ensures |r| == |payloads|
  {
    if payloads == [] then []
    else Stamp(hash, Front(payloads)) + [Link(Last(payloads), TipOver(hash, payloads))]
  }

  /** Every stored hash is the one the verifier recomputes. */
  predicate Verified(hash: Hash, links: seq<Link>) {
    forall i | 0 <= i < |links| :: links[i].stored == TipOver(hash, Payloads(links[..i + 1]))
  }

  /** The first record whose link fails to reproduce. */
  ghost predicate BreaksAt(hash: Hash, links: seq<Link>, i: nat) {
    && i < |links| && Verified(hash, links[..i])
    && links[i].stored != TipOver(hash, Payloads(links[..i + 1]))
  }

  datatype Verdict = NoRecords | Broken(at: nat) | Intact(records: nat)

  /** The verifier's loop: it reports the first link that fails, and accepts exactly the trails whose
      every stored hash is reproduced. */
  method VerifyLinks(hash: Hash, links: seq<Link>) returns (verdict: Verdict)
    ensures verdict == NoRecords <==> links == []
    ensures verdict.Intact? <==> links != [] && Verified(hash, links)
    ensures verdict.Intact? ==> verdict.records == |links|
    ensures verdict.Broken? ==> BreaksAt(hash, links, verdict.at)
  {
    if links == [] {
      return NoRecords;
    }
    var tip := GENESIS;
    var i := 0;
    while i < |links|
      invariant 0 <= i <= |links|
      invariant tip == TipOver(hash, Payloads(links[..i]))
      invariant Verified(hash, links[..i])
    {
      var expected := ChainLink(hash, tip, links[i].payload);
      TipOverMore(hash, links, i);
      if links[i].stored != expected {
        assert BreaksAt(hash, links, i);
        VerifiedPrefix(hash, links, i + 1);
        return Broken(i);
      }
      assert links[..i + 1] == links[..i] + [links[i]];
      VerifiedMore(hash, links, i);
      tip := expected;
      i := i + 1;
    }
    assert links[..i] == links;
    verdict := Intact(|links|);
  }

  // -- tips ----------------------------------------------------------------------------------------

  lemma TipOverMore(hash: Hash, links: seq<Link>, i: nat)
    requires i < |links|
    ensures TipOver(hash, Payloads(links[..i + 1]))
         == ChainLink(hash, TipOver(hash, Payloads(links[..i])), links[i].payload)
  {
    assert Front(Payloads(links[..i + 1])) == Payloads(links[..i]);
  }

  lemma VerifiedMore(hash: Hash, links: seq<Link>, i: nat)
    requires i < |links| && Verified(hash, links[..i])
    requires links[i].stored == TipOver(hash, Payloads(links[..i + 1]))
    ensures Verified(hash, links[..i + 1])
  {
    hide TipOver;
    var more := links[..i + 1];
    forall k | 0 <= k < i + 1
      ensures more[k].stored == TipOver(hash, Payloads(more[..k + 1]))
    {
      assert more[..k + 1] == links[..k + 1];
      if k < i {
        assert links[..i][..k + 1] == links[..k + 1] && links[..i][k] == links[k];
      }
    }
  }

  /** Cutting off a tail is not noticed: what is left still verifies. */
  lemma VerifiedPrefix(hash: Hash, links: seq<Link>, n: nat)
    requires n <= |links|
    ensures Verified(hash, links) ==> Verified(hash, links[..n])
  {
    hide TipOver;
    forall k | 0 <= k < n && Verified(hash, links)
      ensures links[..n][k].stored == TipOver(hash, Payloads(links[..n][..k + 1]))
    {
      assert links[..n][..k + 1] == links[..k + 1];
    }
  }

  // -- written is verified -------------------------------------------------------------------------

  lemma {:induction false} StampIsVerified(hash: Hash, payloads: seq<string>)
    ensures Verified(hash, Stamp(hash, payloads)) && Payloads(Stamp(hash, payloads)) == payloads
  {
    hide TipOver, Stamp;
    if payloads == [] {
      StampNothing(hash);
    } else {
      var front, links := Stamp(hash, Front(payloads)), Stamp(hash, payloads);
      StampIsVerified(hash, Front(payloads));
      assert payloads == Front(payloads) + [Last(payloads)];
      StampMore(hash, Front(payloads), Last(payloads));
      assert links[..|front|] == front && links[..|front| + 1] == links;
      assert Payloads(links) == Payloads(front) + [Last(payloads)] == payloads;
      VerifiedMore(hash, links, |front|);
    }
  }

  /** Exactly the stamped trails verify. */
  lemma VerifiedIsStamped(hash: Hash, links: seq<Link>)
    ensures Verified(hash, links) <==> links == Stamp(hash, Payloads(links))
  {
    StampIsVerified(hash, Payloads(links));
    if Verified(hash, links) {
      VerifiedStamped(hash, links);
    }
  }

  lemma {:induction false} VerifiedStamped(hash: Hash, links: seq<Link>)
    requires Verified(hash, links)
    ensures links == Stamp(hash, Payloads(links))
  {
    hide TipOver, Stamp, Verified;
    if links == [] {
      StampNothing(hash);
    } else {
      VerifiedPrefix(hash, links, |links| - 1);
      VerifiedStamped(hash, Front(links));
      assert Payloads(links) == Payloads(Front(links)) + [Last(links).payload];
      StampMore(hash, Payloads(Front(links)), Last(links).payload);
      LastStored(hash, links);
      assert links == Front(links) + [Last(links)];
    }
  }

  lemma StampNothing(hash: Hash)
    ensures Stamp(hash, []) == []
  {
  }

  lemma StampMore(hash: Hash, payloads: seq<string>, payload: string)
    ensures Stamp(hash, payloads + [payload])
         == Stamp(hash, payloads) + [Link(payload, TipOver(hash, payloads + [payload]))]
  {
    hide TipOver;
    assert Front(payloads + [payload]) == payloads;
  }

  lemma LastStored(hash: Hash, links: seq<Link>)
    requires Verified(hash, links) && links != []
    ensures Last(links).stored == TipOver(hash, Payloads(links))
  {
    hide TipOver;
    assert links[..|links|] == links;
  }

  // -- a stored hash pins its whole prefix ---------------------------------------------------------

  /** What the verifier hashes at one position. */
  function TextAt(hash: Hash, links: seq<Link>, i: nat): string
    requires i < |links|
  {
    TipOver(hash, Payloads(links[..i])) + "\n" + links[i].payload
  }

  function Texts(hash: Hash, links: seq<Link>): set<string> {
    set i | 0 <= i < |links| :: TextAt(hash, links, i)
  }

  /** No two of these texts share a hash. */
  ghost predicate CollisionFree(hash: Hash, texts: set<string>) {
    forall x, y | x in texts && y in texts && hash(x) == hash(y) :: x == y
  }

  lemma TipIsOneLine(hash: Hash, payloads: seq<string>)
    requires HexOutput(hash)
    ensures OneLine(TipOver(hash, payloads)) && (TipOver(hash, payloads) == GENESIS <==> payloads == [])
  {
    if payloads != [] {
      var tip := TipOver(hash, payloads);
      assert IsHex(tip);
      assert GENESIS[1] == 'a' && GENESIS[2] == 'r';
      assert !IsHexDigit(GENESIS[2]);
    }
  }

  /** Two texts joined by their first newline come apart in one way only. */
  lemma UniqueSplit(a: string, b: string, p: string, q: string)
    requires OneLine(a) && OneLine(b) && a + "\n" + p == b + "\n" + q
    ensures a == b && p == q
  {
    CutAfter(a, "\n", p);
    CutAfter(b, "\n", q);
  }

  /** If two verifying trails share a stored hash, they share everything up to it, at the same
      place, unless two of the texts hashed collide. */
  lemma {:induction false} HashPinsPrefix(hash: Hash, a: seq<Link>, i: nat, b: seq<Link>, j: nat)
    requires HexOutput(hash) && CollisionFree(hash, Texts(hash, a) + Texts(hash, b))
    requires Verified(hash, a) && Verified(hash, b)
    requires i < |a| && j < |b| && a[i].stored == b[j].stored
    ensures i == j && a[..i + 1] == b[..j + 1]
  {
    hide TipOver, Payloads;
    SameText(hash, a, i, b, j);
    var ta, tb := TipOver(hash, Payloads(a[..i])), TipOver(hash, Payloads(b[..j]));
    TipIsOneLine(hash, Payloads(a[..i]));
    TipIsOneLine(hash, Payloads(b[..j]));
    UniqueSplit(ta, tb, a[i].payload, b[j].payload);
    assert |Payloads(a[..i])| == i && |Payloads(b[..j])| == j;
    if i > 0 && j > 0 {
      assert a[i - 1].stored == ta && b[j - 1].stored == tb;
      HashPinsPrefix(hash, a, i - 1, b, j - 1);
    }
    assert a[..i + 1] == a[..i] + [a[i]] && b[..j + 1] == b[..j] + [b[j]];
  }

  lemma SameText(hash: Hash, a: seq<Link>, i: nat, b: seq<Link>, j: nat)
    requires CollisionFree(hash, Texts(hash, a) + Texts(hash, b))
    requires Verified(hash, a) && Verified(hash, b)
    requires i < |a| && j < |b| && a[i].stored == b[j].stored
    ensures TextAt(hash, a, i) == TextAt(hash, b, j)
  {
    hide TipOver, Payloads;
    TipOverMore(hash, a, i);
    TipOverMore(hash, b, j);
    assert TextAt(hash, a, i) in Texts(hash, a) && TextAt(hash, b, j) in Texts(hash, b);
  }

  /** No tip ever comes back. */
  lemma TipsNeverRepeat(hash: Hash, links: seq<Link>, i: nat, j: nat)
    requires HexOutput(hash) && CollisionFree(hash, Texts(hash, links)) && Verified(hash, links)
    requires i < j < |links|
    ensures links[i].stored != links[j].stored
  {
    assert Texts(hash, links) + Texts(hash, links) == Texts(hash, links);
    if links[i].stored == links[j].stored {
      HashPinsPrefix(hash, links, i, links, j);
    }
  }

  /** Whatever was edited, inserted, removed or reordered before a surviving hash is reported at or
      before it. */
  lemma TamperingIsReported(hash: Hash, original: seq<Link>, i: nat, found: seq<Link>, j: nat)
    requires i < |original| && j < |found| && original[i].stored == found[j].stored
    requires HexOutput(hash) && CollisionFree(hash, Texts(hash, original) + Texts(hash, found[..j + 1]))
    requires Verified(hash, original)
    requires i != j || original[..i + 1] != found[..j + 1]
    ensures exists k | 0 <= k <= j :: BreaksAt(hash, found, k)
  {
    hide TipOver, TextAt;
    var kept := found[..j + 1];
    assert kept[..j + 1] == kept;
    if Verified(hash, kept) {
      HashPinsPrefix(hash, original, i, kept, j);
    }
    var k := FirstFailure(hash, kept);
    assert kept[..k + 1] == found[..k + 1] && kept[..k] == found[..k];
    assert BreaksAt(hash, found, k);
  }

  lemma {:induction false} FirstFailure(hash: Hash, links: seq<Link>) returns (k: nat)
    requires !Verified(hash, links)
    ensures BreaksAt(hash, links, k)
  {
    hide TipOver;
    assert links != [];
    k := |links| - 1;
    assert links[..k + 1] == links;
    if Verified(hash, Front(links)) {
      if links[k].stored == TipOver(hash, Payloads(links[..k + 1])) {
        VerifiedMore(hash, links, k);
      }
    } else {
      k := FirstFailure(hash, Front(links));
      assert Front(links)[..k] == links[..k] && Front(links)[..k + 1] == links[..k + 1];
    }
  }

  /** One payload edited and nothing else: the break is reported at exactly that record. */
  lemma LonePayloadEdit(hash: Hash, original: seq<Link>, i: nat, payload: string)
    requires Verified(hash, original) && i < |original| && payload != original[i].payload
    requires var tip := TipOver(hash, Payloads(original[..i]));
             CollisionFree(hash, {tip + "\n" + original[i].payload, tip + "\n" + payload})
    ensures BreaksAt(hash, original[i := original[i].(payload := payload)], i)
  {
    hide TipOver;
    var edited := original[i := original[i].(payload := payload)];
    assert edited[..i] == original[..i];
    VerifiedPrefix(hash, original, i);
    TipOverMore(hash, original, i);
    TipOverMore(hash, edited, i);
    var tip := TipOver(hash, Payloads(original[..i]));
    var was, now := tip + "\n" + original[i].payload, tip + "\n" + payload;
    assert was[|tip| + 1..] == original[i].payload && now[|tip| + 1..] == payload;
    assert was in {was, now} && now in {was, now};
  }

  // -- a link from another tip ---------------------------------------------------------------------

  lemma TipMore(hash: Hash, payloads: seq<string>, payload: string)
    ensures TipOver(hash, payloads + [payload]) == ChainLink(hash, TipOver(hash, payloads), payload)
  {
    assert Front(payloads + [payload]) == payloads;
  }

  /** A link made from another tip than the chain's fails at its own place. */
  lemma LastBreaks(hash: Hash, links: seq<Link>, payload: string, other: string)
    requires Verified(hash, links) && OneLine(other) && OneLine(TipOver(hash, Payloads(links)))
    requires var tip := TipOver(hash, Payloads(links));
             tip != other && CollisionFree(hash, {tip + "\n" + payload, other + "\n" + payload})
    ensures BreaksAt(hash, links + [Link(payload, ChainLink(hash, other, payload))], |links|)
  {
    hide TipOver, Verified;
    var more := links + [Link(payload, ChainLink(hash, other, payload))];
    var tip := TipOver(hash, Payloads(links));
    assert more[..|links|] == links;
    TipOverMore(hash, more, |links|);
    var texts := {tip + "\n" + payload, other + "\n" + payload};
    assert tip + "\n" + payload in texts && other + "\n" + payload in texts;
    if hash(tip + "\n" + payload) == hash(other + "\n" + payload) {
      UniqueSplit(tip, other, payload, payload);
    }
  }

  lemma BrokenIsNotVerified(hash: Hash, links: seq<Link>, k: nat)
    requires BreaksAt(hash, links, k)
    ensures !Verified(hash, links)
  {
    hide TipOver;
  }
}
