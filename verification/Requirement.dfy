/**
 * Writing an answer into a requirement document as text: `chosen: "..."` goes into the block of the
 * ambiguity with this id, and every other line stays as it was written by hand.
 */
module Requirement {
  import opened Wrappers
  import opened BlockEdit
  import opened Lines
  import opened Text

  /** What stands behind `- id:` on a line, whatever the spacing. */
  function IdOn(line: string): Option<string> {
    var item := TrimStart(line);
    if !("-" <= item) then None
    else
      var key := TrimStart(item[1..]);
      if "id:" <= key then Some(Trim(key[3..])) else None
  }

  predicate Names(line: string, id: string) {
    IdOn(line) == Some(id)
  }

  /** A line that ends the block before it: the next ambiguity, or text that is not indented. */
  predicate Ends(line: string) {
    IdOn(line).Some? || (line != [] && !IsSpace(line[0]))
  }

  predicate IsChosen(line: string) {
    "chosen:" <= TrimStart(line)
  }

  function Indent(line: string): string {
    line[..|line| - |TrimStart(line)|]
  }

  /** The answer inside double quotes. */
  function Escaped(answer: string): string {
    if answer == [] then []
    else (if answer[0] == '\\' || answer[0] == '\"' then ['\\', answer[0]] else [answer[0]]) + Escaped(answer[1..])
  }

  function Chosen(answer: string): string {
    "chosen:" + (" \"" + (Escaped(answer) + "\""))
  }

  function ChosenGrammar(): Grammar {
    Grammar(Ends, IsChosen)
  }

  /** An existing line keeps its indentation; a new one gets four spaces. */
  function Answering(id: string, answer: string): Edit {
    Edit(line => Names(line, id), line => Indent(line) + Chosen(answer), "    " + Chosen(answer))
  }

  function SetText(text: string, id: string, answer: string): Option<string> {
    match SetLines(SplitLines(text), ChosenGrammar(), Answering(id, answer))
    case None => None
    case Some(lines) => Some(JoinLines(lines))
  }

  /** Without an ambiguity of this id the document is refused. */
  method WithChosen(text: string, id: string, answer: string) returns (r: Option<string>)
    ensures r == SetText(text, id, answer)
  {
    var lines := EditLines(SplitLines(text), ChosenGrammar(), Answering(id, answer));
    return if lines.Some? then Some(JoinLines(lines.value)) else None;
  }

  lemma IndentOf(indent: string, answer: string)
    requires AllSpace(indent)
    ensures TrimStart(indent + Chosen(answer)) == Chosen(answer) && Indent(indent + Chosen(answer)) == indent
  {
    TrimStartDrops(indent, Chosen(answer));
    Unsplit(indent, Chosen(answer));
  }

  lemma ChosenLine(indent: string, answer: string)
    requires AllSpace(indent) && indent != []
    ensures IsChosen(indent + Chosen(answer)) && !Ends(indent + Chosen(answer))
  {
    IndentOf(indent, answer);
    assert Chosen(answer)[0] == 'c';
  }

  lemma IndentIsSpace(line: string)
    ensures AllSpace(Indent(line))
    ensures IsChosen(line) && !Ends(line) ==> Indent(line) != []
  {
    TrimStartDropsSpace(line);
  }

  lemma RewrittenLine(line: string, answer: string)
    ensures IsChosen(line) && !Ends(line) ==>
      IsChosen(Indent(line) + Chosen(answer)) && !Ends(Indent(line) + Chosen(answer))
  {
    if IsChosen(line) && !Ends(line) {
      IndentIsSpace(line);
      ChosenLine(Indent(line), answer);
    }
  }

  lemma RewritesStayProper(id: string, answer: string)
    ensures RewritesProperly(ChosenGrammar(), Answering(id, answer))
  {
    forall line | IsChosen(line) && !Ends(line)
      ensures IsChosen(Indent(line) + Chosen(answer)) && !Ends(Indent(line) + Chosen(answer))
    {
      RewrittenLine(line, answer);
    }
  }

  lemma NamesEnd(id: string, answer: string)
    ensures HeadsEnd(ChosenGrammar(), Answering(id, answer))
  {
  }

  lemma AnsweringIsProper(id: string, answer: string)
    ensures Proper(ChosenGrammar(), Answering(id, answer))
  {
    RewritesStayProper(id, answer);
    NamesEnd(id, answer);
    AddedLine(answer);
  }

  lemma AddedLine(answer: string)
    ensures IsChosen("    " + Chosen(answer)) && !Ends("    " + Chosen(answer))
  {
    ChosenLine("    ", answer);
  }

  lemma AnsweringOverwrites(id: string, first: string, second: string)
    ensures Overwrites(ChosenGrammar(), Answering(id, first), Answering(id, second))
  {
    forall line | IsChosen(line) && !Ends(line)
      ensures Indent(Indent(line) + Chosen(first)) == Indent(line)
    {
      IndentIsSpace(line);
      IndentOf(Indent(line), first);
    }
    IndentOf("    ", first);
  }

  // Lines stay lines.

  lemma {:induction false} EscapedIsOneLine(answer: string)
    requires NewlineFree(answer)
    ensures NewlineFree(Escaped(answer))
  {
    if answer != [] {
      EscapedIsOneLine(answer[1..]);
    }
  }

  lemma ChosenIsOneLine(answer: string)
    requires NewlineFree(answer)
    ensures NewlineFree(Chosen(answer))
  {
    EscapedIsOneLine(answer);
  }

  lemma SetIsLines(lines: seq<string>, id: string, answer: string)
    requires AllLines(lines) && NewlineFree(answer)
    ensures
      var r := SetLines(lines, ChosenGrammar(), Answering(id, answer));
      r.Some? ==> AllLines(r.value) && r.value != [] && SplitLines(JoinLines(r.value)) == r.value
  {
    ChosenIsOneLine(answer);
    SetKeepsLines(lines, ChosenGrammar(), Answering(id, answer));
    var r := SetLines(lines, ChosenGrammar(), Answering(id, answer));
    if r.Some? {
      SplitJoin(r.value);
    }
  }

  lemma SetKeepsLines(lines: seq<string>, g: Grammar, e: Edit)
    requires AllLines(lines) && NewlineFree(e.added)
    requires forall line :: NewlineFree(line) ==> NewlineFree(e.rewrite(line))
    ensures SetLines(lines, g, e).Some? ==> AllLines(SetLines(lines, g, e).value) && SetLines(lines, g, e).value != []
  {
  }

  /** The last answer to a question is the one that stands. */
  lemma LastAnswerWins(text: string, id: string, first: string, second: string)
    requires NewlineFree(first)
    ensures match SetText(text, id, first)
      case Some(once) => SetText(once, id, second) == SetText(text, id, second)
      case None => SetText(text, id, second) == None
  {
    SetIsLines(SplitLines(text), id, first);
    AnsweringIsProper(id, first);
    AnsweringOverwrites(id, first, second);
    SetTwice(SplitLines(text), ChosenGrammar(), Answering(id, first), Answering(id, second));
  }

  /** Answers to different questions can be written in either order. */
  lemma AnswersCommute(text: string, id: string, answer: string, id': string, answer': string)
    requires id != id' && NewlineFree(answer) && NewlineFree(answer')
    ensures SetText(text, id, answer).Some? && SetText(text, id', answer').Some? ==>
      && SetText(SetText(text, id, answer).value, id', answer').Some?
      && SetText(SetText(text, id, answer).value, id', answer') ==
         SetText(SetText(text, id', answer').value, id, answer)
  {
    if SetText(text, id, answer).Some? && SetText(text, id', answer').Some? {
      SetIsLines(SplitLines(text), id, answer);
      SetIsLines(SplitLines(text), id', answer');
      AnsweringIsProper(id, answer);
      AnsweringIsProper(id', answer');
      SetCommutes(SplitLines(text), ChosenGrammar(), Answering(id, answer), Answering(id', answer'));
    }
  }

  /** One line of the question's block is rewritten or added; every line around it is as it was. */
  lemma OnlyTheBlockChanges(text: string, id: string, answer: string) returns (d: Parts, block: seq<string>)
    requires NewlineFree(answer)
    ensures SetText(text, id, answer).Some? ==>
      && d.For(ChosenGrammar(), Answering(id, answer).head)
      && OneLineSet(d.block, block, ChosenGrammar(), Answering(id, answer))
      && SplitLines(text) == d.Whole() && SplitLines(SetText(text, id, answer).value) == d.(block := block).Whole()
  {
    d, block := SetChangesOneLine(SplitLines(text), ChosenGrammar(), Answering(id, answer));
    SetIsLines(SplitLines(text), id, answer);
  }
}
