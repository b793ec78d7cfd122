/** The `exercise` directive (ext/ml4p/directives/exercise.py): content split
    at a `---` line into a question and an answer that share an id, and the
    HTML its nodes are written as, a collapsible answer behind a Show Answer
    button. */
module Exercise {
  import opened Wrappers
  import opened Text
  import opened Html

  /** The `ValueError` that `list.index` raises when the marker is absent. */
  datatype ValueError = NoSeparator

  /** The question and answer nodes hold the lines the directive parses into
      them; parsing them into document nodes is docutils' work. */
  datatype QuestionNode = QuestionNode(id: string, lines: seq<string>)
  datatype AnswerNode = AnswerNode(id: string, lines: seq<string>)
  datatype ExerciseNode = ExerciseNode(question: QuestionNode, answer: AnswerNode)

  const Separator: string := "---"

  /** `list.index`: the first position of `x`. */
  function IndexOf(xs: seq<string>, x: string): (r: Option<nat>)
    ensures r.None? <==> x !in xs
    ensures r.Some? ==> r.value < |xs| && xs[r.value] == x && x !in xs[..r.value]
    decreases |xs|
  {
    if xs == [] then None
    else if xs[0] == x then Some(0)
    else
      match IndexOf(xs[1..], x)
      case None => None
      case Some(i) =>
        assert xs[..i + 1] == [xs[0]] + xs[1..][..i];
        Some(i + 1)
  }

  /** `ExerciseDirective.run`; `id` is the fresh UUID. */
  function Run(content: seq<string>, id: string): Result<seq<ExerciseNode>, ValueError>
  {
    match IndexOf(content, Separator)
    case None => Err(NoSeparator)
    case Some(i) => Ok([ExerciseNode(QuestionNode(id, content[..i]), AnswerNode(id, content[i + 1..]))])
  }

  /** `run` fails exactly when no line is `---`. Otherwise it yields one
      exercise whose question is the content before the first `---` line and
      whose answer is the content after it; the marker is dropped, so the
      content is question, marker, answer. Both nodes carry the same id. */
  lemma RunSpec(content: seq<string>, id: string)
    ensures Run(content, id).Err? <==> Separator !in content
    ensures Run(content, id).Ok? ==>
      var nodes := Run(content, id).value;
      |nodes| == 1
      && nodes[0].question.id == id && nodes[0].answer.id == id
      && Separator !in nodes[0].question.lines
      && content == nodes[0].question.lines + [Separator] + nodes[0].answer.lines
  {
    match IndexOf(content, Separator)
    case None =>
    case Some(i) =>
      assert content == content[..i] + [content[i]] + content[i + 1..];
  }

  /** The marker splits the content at its first occurrence only: a second
      `---` stays in the answer. */
  lemma RunExample()
    ensures Run(["Q?", "---", "A.", "---", "B."], "x")
      == Ok([ExerciseNode(QuestionNode("x", ["Q?"]), AnswerNode("x", ["A.", "---", "B."]))])
  {
    var c := ["Q?", "---", "A.", "---", "B."];
    assert c[0] != Separator by { assert c[0][0] != Separator[0]; }
    assert IndexOf(c, Separator) == Some(1);
    assert c[..1] == ["Q?"];
    assert c[2..] == ["A.", "---", "B."];
  }

  // ---------------------------------------------------------------------
  // HTML

  /** `self.starttag(node, 'div', CLASS=c)` for a node without ids or
      classes of its own. */
  function StartDiv(c: string): string
  {
    "<div class=\"" + c + "\">\n"
  }

  const CloseDiv: string := "</div>\n"

  const ExerciseDiv: string := StartDiv("exercise")
  const TitleDiv: string := "<div class=\"exercise-title\">\n"
  const TitleText: string := "Exercise\n"
  const ContentDiv: string := "<div class=\"exercise-content\">\n"
  const QuestionDiv: string := StartDiv("exercise-question")
  const ButtonContainer: string := "<div class=\"exercise-show-answer-button-container\">\n"

  /** What `html_visit_exercise_node` appends. */
  const ExerciseOpen: seq<string> := [ExerciseDiv, TitleDiv, TitleText, CloseDiv, ContentDiv]

  /** What `html_depart_exercise_node` appends. */
  const ExerciseClose: seq<string> := [CloseDiv, CloseDiv]

  /** What `html_visit_question_node` appends. */
  const QuestionOpen: seq<string> := [QuestionDiv]

  /** The Show Answer button, aimed at the answer with the given id. */
  function ShowAnswerButton(id: string): string
  {
    "<button data-bs-toggle=\"collapse\" " + "data-bs-target=\"#" + id + "\""
      + " class=\"btn border exercise-show-answer-button\">Show Answer</button>\n"
  }

  /** What `html_depart_question_node` appends. */
  function QuestionClose(id: string): seq<string>
  {
    [ButtonContainer, ShowAnswerButton(id), CloseDiv, CloseDiv]
  }

  /** The answer's collapsible div, carrying its id. */
  function AnswerDiv(id: string): string
  {
    "<div class='exercise-answer collapse' id='" + id + "'>\n"
  }

  /** What `html_visit_answer_node` appends. */
  function AnswerOpen(id: string): seq<string>
  {
    [AnswerDiv(id)]
  }

  /** What `html_depart_answer_node` appends. */
  const AnswerClose: seq<string> := [CloseDiv]

  method VisitExercise(t: Translator)
    modifies t
    ensures t.body == old(t.body) + ExerciseOpen
  {
    t.Append(ExerciseDiv);
    t.Append(TitleDiv);
    t.Append(TitleText);
    t.Append(CloseDiv);
    t.Append(ContentDiv);
  }

  method DepartExercise(t: Translator)
    modifies t
    ensures t.body == old(t.body) + ExerciseClose
  {
    t.Append(CloseDiv);
    t.Append(CloseDiv);
  }

  method VisitQuestion(t: Translator, node: QuestionNode)
    modifies t
    ensures t.body == old(t.body) + QuestionOpen
  {
    t.Append(QuestionDiv);
  }

  method DepartQuestion(t: Translator, node: QuestionNode)
    modifies t
    ensures t.body == old(t.body) + QuestionClose(node.id)
  {
    t.Append(ButtonContainer);
    t.Append(ShowAnswerButton(node.id));
    t.Append(CloseDiv);
    t.Append(CloseDiv);
  }

  method VisitAnswer(t: Translator, node: AnswerNode)
    modifies t
    ensures t.body == old(t.body) + AnswerOpen(node.id)
  {
    t.Append(AnswerDiv(node.id));
  }

  method DepartAnswer(t: Translator, node: AnswerNode)
    modifies t
    ensures t.body == old(t.body) + AnswerClose
  {
    t.Append(CloseDiv);
  }

  // ---------------------------------------------------------------------
  // Balance of the div tags

  /** How a chunk of the body changes the number of open divs: every chunk
      these visitors append holds at most one div tag, at its start. */
  function Delta(s: string): int
  {
    if |s| >= 4 && s[..4] == "<div" then 1
    else if s == CloseDiv then -1
    else 0
  }

  /** The number of divs left open by a sequence of chunks. */
  function Depth(body: seq<string>): int
    decreases |body|
  {
    if body == [] then 0 else Depth(body[..|body| - 1]) + Delta(body[|body| - 1])
  }

  /** No prefix closes more divs than it has opened. */
  predicate NeverUnder(body: seq<string>)
  {
    forall n :: 0 <= n <= |body| ==> Depth(body[..n]) >= 0
  }

  /** Balanced: every div opened is closed, never before it is opened. */
  predicate Balanced(body: seq<string>)
  {
    Depth(body) == 0 && NeverUnder(body)
  }

  lemma {:induction false} DepthAppend(a: seq<string>, b: seq<string>)
    ensures Depth(a + b) == Depth(a) + Depth(b)
    decreases |b|
  {
    if b == [] {
      assert a + b == a;
    } else {
      var init := b[..|b| - 1];
      DepthAppend(a, init);
      assert (a + b)[..|a + b| - 1] == a + init;
    }
  }

  /** Appending a balanced sequence to one that never closes too much keeps
      that property. */
  lemma NeverUnderAppend(a: seq<string>, b: seq<string>)
    requires NeverUnder(a) && Depth(a) >= 0 && NeverUnder(b)
    ensures NeverUnder(a + b)
  {
    forall n | 0 <= n <= |a + b| ensures Depth((a + b)[..n]) >= 0 {
      if n <= |a| {
        assert (a + b)[..n] == a[..n];
      } else {
        assert (a + b)[..n] == a + b[..n - |a|];
        DepthAppend(a, b[..n - |a|]);
      }
    }
  }

  lemma BalancedAppend(a: seq<string>, b: seq<string>)
    requires Balanced(a) && Balanced(b)
    ensures Balanced(a + b)
  {
    DepthAppend(a, b);
    NeverUnderAppend(a, b);
  }

  /** Wrapping a balanced sequence between an opening run and a closing run
      that together balance gives a balanced sequence. */
  lemma BalancedWrap(open: seq<string>, inner: seq<string>, close: seq<string>)
    requires NeverUnder(open) && Balanced(inner) && Balanced(open + close)
    ensures Balanced(open + inner + close)
  {
    DepthAppend(open, close);
    DepthAppend(open, inner);
    DepthAppend(open + inner, close);
    assert Depth(open) >= 0 by { assert open[..|open|] == open; }
    NeverUnderAppend(open, inner);
    forall n | 0 <= n <= |open + inner + close| ensures Depth((open + inner + close)[..n]) >= 0 {
      if n <= |open + inner| {
        assert (open + inner + close)[..n] == (open + inner)[..n];
      } else {
        var k := n - |open + inner|;
        assert (open + inner + close)[..n] == (open + inner) + close[..k];
        assert (open + close)[..|open| + k] == open + close[..k];
        DepthAppend(open + inner, close[..k]);
        DepthAppend(open, close[..k]);
      }
    }
  }

  /** The chunks that open a div. */
  lemma DeltaOfOpeners(id: string)
    ensures Delta(ExerciseDiv) == 1 && Delta(TitleDiv) == 1 && Delta(ContentDiv) == 1
    ensures Delta(QuestionDiv) == 1 && Delta(ButtonContainer) == 1 && Delta(AnswerDiv(id)) == 1
  {
    assert ExerciseDiv[..4] == "<div";
    assert TitleDiv[..4] == "<div";
    assert ContentDiv[..4] == "<div";
    assert QuestionDiv[..4] == "<div";
    assert ButtonContainer[..4] == "<div";
    assert AnswerDiv(id)[..4] == "<div";
  }

  lemma DeltaOfCloseDiv()
    ensures Delta(CloseDiv) == -1
  {
    assert CloseDiv[..4] != "<div" by { assert CloseDiv[1] != ("<div")[1]; }
  }

  lemma DeltaOfTitleText()
    ensures Delta(TitleText) == 0
  {
    assert TitleText[..4] != "<div" by { assert TitleText[0] != '<'; }
    assert TitleText != CloseDiv by { assert TitleText[0] != CloseDiv[0]; }
  }

  lemma DeltaOfButton(id: string)
    ensures Delta(ShowAnswerButton(id)) == 0
  {
    var b := ShowAnswerButton(id);
    var lead := "<button data-bs-toggle=\"collapse\" ";
    assert b[..|lead|] == lead;
    assert b[1] == lead[1] == 'b';
    assert b[..4] != "<div" by { assert b[1] != ("<div")[1]; }
    assert b != CloseDiv by { assert b[1] != CloseDiv[1]; }
  }

  /** Each chunk the visitors append opens one div, closes one, or neither. */
  lemma DeltaOfChunks(id: string)
    ensures Delta(ExerciseDiv) == 1 && Delta(TitleDiv) == 1 && Delta(TitleText) == 0
    ensures Delta(CloseDiv) == -1 && Delta(ContentDiv) == 1 && Delta(QuestionDiv) == 1
    ensures Delta(ButtonContainer) == 1 && Delta(ShowAnswerButton(id)) == 0 && Delta(AnswerDiv(id)) == 1
  {
    DeltaOfOpeners(id);
    DeltaOfCloseDiv();
    DeltaOfTitleText();
    DeltaOfButton(id);
  }

  lemma DepthStep(b: seq<string>, n: nat)
    requires n < |b|
    ensures Depth(b[..n + 1]) == Depth(b[..n]) + Delta(b[n])
  {
    assert b[..n + 1][..n] == b[..n];
  }

  /** The number of open divs after each chunk of an exercise's own
      visit and depart. */
  lemma ExerciseDepths()
    ensures var e := ExerciseOpen + ExerciseClose;
      Depth(e[..0]) == 0 && Depth(e[..1]) == 1 && Depth(e[..2]) == 2 && Depth(e[..3]) == 2
      && Depth(e[..4]) == 1 && Depth(e[..5]) == 2 && Depth(e[..6]) == 1 && Depth(e[..7]) == 0
  {
    DeltaOfOpeners("");
    DeltaOfCloseDiv();
    DeltaOfTitleText();
    var e := ExerciseOpen + ExerciseClose;
    assert e == [ExerciseDiv, TitleDiv, TitleText, CloseDiv, ContentDiv, CloseDiv, CloseDiv];
    assert e[..0] == [];
    DepthStep(e, 0); DepthStep(e, 1); DepthStep(e, 2); DepthStep(e, 3);
    DepthStep(e, 4); DepthStep(e, 5); DepthStep(e, 6);
  }

  lemma ExercisePairBalanced()
    ensures NeverUnder(ExerciseOpen) && Balanced(ExerciseOpen + ExerciseClose)
  {
    ExerciseDepths();
    var e := ExerciseOpen + ExerciseClose;
    assert e[..7] == e;
    forall n | 0 <= n <= |e| ensures Depth(e[..n]) >= 0 {
      if n <= 3 {} else if n <= 5 {} else {}
    }
    forall n | 0 <= n <= |ExerciseOpen| ensures Depth(ExerciseOpen[..n]) >= 0 {
      assert ExerciseOpen[..n] == e[..n];
    }
  }

  lemma QuestionDepths(id: string)
    ensures var q := QuestionOpen + QuestionClose(id);
      Depth(q[..0]) == 0 && Depth(q[..1]) == 1 && Depth(q[..2]) == 2 && Depth(q[..3]) == 2
      && Depth(q[..4]) == 1 && Depth(q[..5]) == 0
  {
    DeltaOfOpeners(id);
    DeltaOfCloseDiv();
    DeltaOfButton(id);
    var q := QuestionOpen + QuestionClose(id);
    assert q == [QuestionDiv, ButtonContainer, ShowAnswerButton(id), CloseDiv, CloseDiv];
    assert q[..0] == [];
    DepthStep(q, 0); DepthStep(q, 1); DepthStep(q, 2); DepthStep(q, 3); DepthStep(q, 4);
  }

  lemma QuestionPairBalanced(id: string)
    ensures NeverUnder(QuestionOpen) && Balanced(QuestionOpen + QuestionClose(id))
  {
    QuestionDepths(id);
    var q := QuestionOpen + QuestionClose(id);
    assert q[..5] == q;
    forall n | 0 <= n <= |q| ensures Depth(q[..n]) >= 0 {
      if n <= 2 {} else {}
    }
    assert QuestionOpen[..0] == q[..0] && QuestionOpen[..1] == q[..1];
  }

  lemma AnswerPairBalanced(id: string)
    ensures NeverUnder(AnswerOpen(id)) && Balanced(AnswerOpen(id) + AnswerClose)
  {
    DeltaOfOpeners(id);
    DeltaOfCloseDiv();
    var a := AnswerOpen(id) + AnswerClose;
    assert a == [AnswerDiv(id), CloseDiv];
    DepthStep(a, 0); DepthStep(a, 1);
    assert a[..2] == a;
    assert AnswerOpen(id)[..0] == a[..0] && AnswerOpen(id)[..1] == a[..1];
  }

  /** Each visit/depart pair opens and closes the same number of divs, and
      never closes one it has not opened. */
  lemma PairsBalanced(id: string)
    ensures NeverUnder(ExerciseOpen) && Balanced(ExerciseOpen + ExerciseClose)
    ensures NeverUnder(QuestionOpen) && Balanced(QuestionOpen + QuestionClose(id))
    ensures NeverUnder(AnswerOpen(id)) && Balanced(AnswerOpen(id) + AnswerClose)
  {
    ExercisePairBalanced();
    QuestionPairBalanced(id);
    AnswerPairBalanced(id);
  }

  /** The whole exercise, with balanced HTML for the question's and the
      answer's own content, is balanced. */
  lemma ExerciseBalanced(id: string, question: seq<string>, answer: seq<string>)
    requires Balanced(question) && Balanced(answer)
    ensures Balanced(ExerciseOpen
      + (QuestionOpen + question + QuestionClose(id))
      + (AnswerOpen(id) + answer + AnswerClose)
      + ExerciseClose)
  {
    PairsBalanced(id);
    BalancedWrap(QuestionOpen, question, QuestionClose(id));
    BalancedWrap(AnswerOpen(id), answer, AnswerClose);
    BalancedAppend(QuestionOpen + question + QuestionClose(id), AnswerOpen(id) + answer + AnswerClose);
    BalancedWrap(ExerciseOpen,
      (QuestionOpen + question + QuestionClose(id)) + (AnswerOpen(id) + answer + AnswerClose),
      ExerciseClose);
    assert ExerciseOpen + ((QuestionOpen + question + QuestionClose(id)) + (AnswerOpen(id) + answer + AnswerClose)) + ExerciseClose
      == ExerciseOpen + (QuestionOpen + question + QuestionClose(id)) + (AnswerOpen(id) + answer + AnswerClose) + ExerciseClose;
  }

  /** The Show Answer button targets the answer div: both name the node's id. */
  lemma ButtonTargetsAnswer(id: string)
    ensures Contains(ShowAnswerButton(id), "data-bs-target=\"#" + id + "\"")
    ensures Contains(AnswerDiv(id), "id='" + id + "'")
  {
    ContainsMiddle("<button data-bs-toggle=\"collapse\" ", "data-bs-target=\"#" + id + "\"",
      " class=\"btn border exercise-show-answer-button\">Show Answer</button>\n");
    assert ShowAnswerButton(id) == "<button data-bs-toggle=\"collapse\" " + ("data-bs-target=\"#" + id + "\"")
      + " class=\"btn border exercise-show-answer-button\">Show Answer</button>\n";
    ContainsMiddle("<div class='exercise-answer collapse' ", "id='" + id + "'", ">\n");
    assert AnswerDiv(id) == "<div class='exercise-answer collapse' " + ("id='" + id + "'") + ">\n";
  }
}
