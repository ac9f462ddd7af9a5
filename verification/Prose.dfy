/** section.go, paragraphs: wrapped prose lines joined back into paragraphs. */
module Prose {
  import opened Text

  /** Lines grouped at the blank ones; the last group is still open. */
  function Groups(lines: seq<string>): (r: seq<seq<string>>)
    ensures r != []
  {
    if lines == [] then [[]]
    else
      var before := Groups(Front(lines));
      if Last(lines) != "" then Front(before) + [Last(before) + [Last(lines)]]
      else if Last(before) != [] then before + [[]]
      else before
  }

  function Words(group: seq<string>): string {
    if group == [] then "" else if |group| == 1 then group[0] else Words(Front(group)) + " " + Last(group)
  }

  function Filled(groups: seq<seq<string>>): seq<seq<string>> {
    if groups == [] then [] else Filled(Front(groups)) + (if Last(groups) == [] then [] else [Last(groups)])
  }

  /** The paragraphs' texts with an empty line between them. */
  function Paragraphed(groups: seq<seq<string>>): string {
    if groups == [] then ""
    else if |groups| == 1 then Words(groups[0])
    else Paragraphed(Front(groups)) + "\n\n" + Words(Last(groups))
  }

  /** What becomes of prose lines. */
  function Joined(lines: seq<string>): string { Paragraphed(Filled(Groups(lines))) }

  method Paragraphs(lines: seq<string>) returns (text: string)
    ensures text == Joined(lines)
  {
    var paras: seq<seq<string>> := [[]];
    var i := 0;
    while i < |lines|
      invariant 0 <= i <= |lines| && paras == Groups(lines[..i])
    {
      assert Front(lines[..i + 1]) == lines[..i];
      if lines[i] == "" {
        if Last(paras) != [] {
          paras := paras + [[]];
        }
      } else {
        paras := Front(paras) + [Last(paras) + [lines[i]]];
      }
      i := i + 1;
    }
    assert lines[..i] == lines;
    var joined: seq<seq<string>> := [];
    i := 0;
    while i < |paras|
      invariant 0 <= i <= |paras| && joined == Filled(paras[..i])
    {
      assert Front(paras[..i + 1]) == paras[..i];
      if |paras[i]| > 0 {
        joined := joined + [paras[i]];
      }
      i := i + 1;
    }
    assert paras[..i] == paras;
    text := Paragraphed(joined);
  }

  function Flat(groups: seq<seq<string>>): seq<string> {
    if groups == [] then [] else Flat(Front(groups)) + Last(groups)
  }

  function NotBlank(lines: seq<string>): seq<string> {
    if lines == [] then [] else NotBlank(Front(lines)) + (if Last(lines) == "" then [] else [Last(lines)])
  }

  /** No line is lost, invented or moved, and only the open group can be empty. */
  lemma {:induction false} GroupsKeepLines(lines: seq<string>)
    ensures Flat(Groups(lines)) == NotBlank(lines)
    ensures forall g | g in Front(Groups(lines)) :: g != []
  {
    if lines == [] {
      assert Groups([]) == [[]] && Front(Groups([])) == [];
    } else {
      var before, after := Groups(Front(lines)), Groups(lines);
      GroupsKeepLines(Front(lines));
      if Last(lines) != "" {
        assert Front(after) == Front(before);
      } else if Last(before) != [] {
        assert Front(after) == before && before == Front(before) + [Last(before)];
      }
    }
  }

  /** A paragraph ends exactly at a blank line: the line after another joins its group, the line after
      a blank one starts its own. */
  lemma LineJoinsOrStarts(lines: seq<string>, line: string)
    requires line != ""
    ensures lines != [] && Last(lines) != "" ==>
              Last(Groups(lines + [line])) == Last(Groups(lines)) + [line] && Last(Groups(lines)) != []
    ensures lines == [] || Last(lines) == "" ==> Last(Groups(lines + [line])) == [line]
  {
    assert Front(lines + [line]) == lines;
  }

  lemma WordsMore(group: seq<string>, line: string)
    ensures Words([line]) == line
    ensures group != [] ==> Words(group + [line]) == Words(group) + " " + line
  {
    assert Front(group + [line]) == group;
  }

  lemma FilledMore(groups: seq<seq<string>>, group: seq<string>)
    ensures Filled(groups + [group]) == if group == [] then Filled(groups) else Filled(groups) + [group]
  {
    assert Front(groups + [group]) == groups;
    assert Filled(groups) + [] == Filled(groups);
  }

  lemma ParagraphedMore(groups: seq<seq<string>>, group: seq<string>)
    ensures Paragraphed(groups + [group])
         == if groups == [] then Words(group) else Paragraphed(groups) + "\n\n" + Words(group)
  {
    assert Front(groups + [group]) == groups;
  }

  /** Nothing is filled exactly when every line is blank. */
  lemma {:induction false} FilledNone(groups: seq<seq<string>>)
    ensures Filled(groups) == [] <==> Flat(groups) == []
  {
    if groups != [] {
      FilledNone(Front(groups));
    }
  }

  lemma {:induction false} NoneNotBlank(lines: seq<string>)
    ensures NotBlank(lines) == [] <==> forall l | l in lines :: l == ""
  {
    if lines != [] {
      NoneNotBlank(Front(lines));
      assert Last(lines) in lines && forall l :: l in lines <==> l in Front(lines) || l == Last(lines) by {
        assert lines == Front(lines) + [Last(lines)];
      }
    }
  }

  /** What one line more makes of the text: a blank line nothing; any other is the text when it is the first, follows
      the line before it after one space, and after a blank line stands apart by an empty one. */
  lemma JoinedIs(lines: seq<string>, line: string)
    ensures Joined([]) == "" && Joined(lines + [""]) == Joined(lines)
    ensures line != "" ==>
              Joined(lines + [line]) == if forall l | l in lines :: l == "" then line
                                        else if Last(lines) == "" then Joined(lines) + "\n\n" + line
                                        else Joined(lines) + " " + line
  {
    hide Paragraphed, Words;
    NothingJoined();
    BlankAdds(lines);
    if line != "" {
      LineAdds(lines, line);
    }
  }

  lemma NothingJoined()
    ensures Joined([]) == ""
  {
    var groups: seq<seq<string>> := Groups([]);
    assert groups == [[]] && Front(groups) == [];
    assert Filled(groups) == [];
  }

  lemma BlankAdds(lines: seq<string>)
    ensures Joined(lines + [""]) == Joined(lines)
  {
    hide Paragraphed;
    assert Front(lines + [""]) == lines;
    FilledMore(Groups(lines), []);
  }

  lemma LineAdds(lines: seq<string>, line: string)
    requires line != ""
    ensures Joined(lines + [line]) == if forall l | l in lines :: l == "" then line
                                      else if Last(lines) == "" then Joined(lines) + "\n\n" + line
                                      else Joined(lines) + " " + line
  {
    hide Paragraphed, Words, Groups, Filled;
    var groups := Groups(lines);
    var front, last := Front(groups), Last(groups);
    GroupsMore(lines, line);
    LineJoinsOrStarts(lines, line);
    GroupsKeepLines(lines);
    NoneNotBlank(lines);
    FilledNone(groups);
    FilledMore(front, last);
    FilledMore(front, last + [line]);
    assert groups == front + [last];
    WordsMore(last, line);
    ParagraphedMore(Filled(front), last);
    ParagraphedMore(Filled(front), last + [line]);
    if Filled(front) != [] && last != [] {
      assert Paragraphed(Filled(front)) + "\n\n" + (Words(last) + " " + line)
          == Paragraphed(Filled(front)) + "\n\n" + Words(last) + " " + line;
    }
    if last == [] {
      assert [] + [line] == [line];
    }
  }

  lemma GroupsMore(lines: seq<string>, line: string)
    requires line != ""
    ensures Groups(lines + [line]) == Front(Groups(lines)) + [Last(Groups(lines)) + [line]]
    ensures Last(Groups(lines)) == [] <==> lines == [] || Last(lines) == ""
  {
    assert Front(lines + [line]) == lines;
    if lines != [] && Last(lines) == "" {
      var before := Groups(Front(lines));
      assert Groups(lines) == if Last(before) != [] then before + [[]] else before;
    }
  }
}
