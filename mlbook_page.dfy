/** The mlbook theme's page script (theme/mlbook/static/mlbook.js): the body
    is set up for Bootstrap's scrollspy, header links show `#`, and the
    exercises' answer buttons switch between Show Answer and Hide Answer. */
module MlbookPage {
  import opened Dom

  const ShowAnswer: string := "Show Answer"
  const HideAnswer: string := "Hide Answer"

  /** The button's text after a click. */
  function NextLabel(text: string): (r: string)
    ensures r == HideAnswer <==> text == ShowAnswer
    ensures r == ShowAnswer || r == HideAnswer
  {
    assert ShowAnswer != HideAnswer by { assert ShowAnswer[0] != HideAnswer[0]; }
    if text == ShowAnswer then HideAnswer else ShowAnswer
  }

  /** The text after `n` clicks. */
  function AfterClicks(text: string, n: nat): string
  {
    if n == 0 then text else NextLabel(AfterClicks(text, n - 1))
  }

  /** Starting from Show Answer, the label alternates: it reads Show Answer
      after every even number of clicks and Hide Answer after every odd one. */
  lemma {:induction false} Alternates(n: nat)
    ensures AfterClicks(ShowAnswer, n) == (if n % 2 == 0 then ShowAnswer else HideAnswer)
  {
    if n > 0 {
      Alternates(n - 1);
    }
  }

  /** Two clicks return a labelled button to where it started; any other
      text becomes Show Answer after one click and then alternates. */
  lemma TwoClicks(text: string)
    ensures (text == ShowAnswer || text == HideAnswer) ==> NextLabel(NextLabel(text)) == text
    ensures text != ShowAnswer ==> NextLabel(text) == ShowAnswer
  {
  }

  class Page {
    var bodyAttributes: map<string, string>
    const headerLinks: array<string>
    const answerButtons: array<string>

    /** Header links and answer buttons are different elements. */
    predicate Valid()
      reads this
    {
      headerLinks != answerButtons
    }

    constructor (bodyAttributes: map<string, string>, headerLinks: array<string>, answerButtons: array<string>)
      requires headerLinks != answerButtons
      ensures Valid()
      ensures this.bodyAttributes == bodyAttributes
      ensures this.headerLinks == headerLinks && this.answerButtons == answerButtons
    {
      this.bodyAttributes := bodyAttributes;
      this.headerLinks := headerLinks;
      this.answerButtons := answerButtons;
    }

    /** The load handler: the body spies on `#tocbar`, and every header link
        reads `#`; the answer buttons are untouched until clicked. */
    method Load()
      requires Valid()
      modifies this`bodyAttributes, headerLinks
      ensures bodyAttributes == old(bodyAttributes)["data-bs-spy" := "scroll"]["data-bs-target" := "#tocbar"]
      ensures forall k :: 0 <= k < headerLinks.Length ==> headerLinks[k] == "#"
      ensures answerButtons[..] == old(answerButtons[..])
    {
      bodyAttributes := bodyAttributes["data-bs-spy" := "scroll"];
      bodyAttributes := bodyAttributes["data-bs-target" := "#tocbar"];
      SetAll(headerLinks, "#");
    }

    /** The click handler of answer button `i`. */
    method AnswerButtonClicked(i: nat)
      requires i < answerButtons.Length
      modifies answerButtons
      ensures answerButtons[..] == old(answerButtons[..])[i := NextLabel(old(answerButtons[i]))]
    {
      if answerButtons[i] == ShowAnswer {
        answerButtons[i] := HideAnswer;
      } else {
        answerButtons[i] := ShowAnswer;
      }
    }
  }
}
