/**
 * `LlmResponse`: the reply of the language model, a thinking process and a
 * final answer, either of which may be null, and its text layout.
 */
module LlmResponses {
  import opened Wrappers
  import opened JavaString

  const ThinkingHeader: string := "[Thinking Process]\n"
  const AnswerHeader: string := "[Final Answer]\n"

  /** The `toString` layout: the thinking section when the thinking process is
      present, then the answer section when the final answer is present. */
  function Render(thinkingProcess: Option<string>, finalAnswer: Option<string>): string {
    (if IsPresent(thinkingProcess) then ThinkingHeader + thinkingProcess.value + "\n\n" else "")
    + (if IsPresent(finalAnswer) then AnswerHeader + finalAnswer.value else "")
  }

  /** The four layouts, one per combination of present parts. */
  lemma RenderLayouts(t: Option<string>, a: Option<string>)
    ensures IsPresent(t) && IsPresent(a) ==>
              Render(t, a) == "[Thinking Process]\n" + t.value + "\n\n[Final Answer]\n" + a.value
    ensures IsPresent(t) && !IsPresent(a) ==> Render(t, a) == "[Thinking Process]\n" + t.value + "\n\n"
    ensures !IsPresent(t) && IsPresent(a) ==> Render(t, a) == "[Final Answer]\n" + a.value
    ensures !IsPresent(t) && !IsPresent(a) ==> Render(t, a) == ""
  {
  }

  /** The text is empty exactly when neither part is present, and it opens with
      the thinking header exactly when the thinking process is present. */
  lemma RenderShowsWhatIsPresent(t: Option<string>, a: Option<string>)
    ensures Render(t, a) == "" <==> !IsPresent(t) && !IsPresent(a)
    ensures ThinkingHeader <= Render(t, a) <==> IsPresent(t)
  {
    if !IsPresent(t) && IsPresent(a) {
      assert Render(t, a)[1] == 'F' != ThinkingHeader[1];
    }
  }

  /** A null part and an empty one read the same. */
  lemma NullAndEmptyRenderAlike(t: Option<string>, a: Option<string>)
    ensures Render(None, a) == Render(Some(""), a)
    ensures Render(t, None) == Render(t, Some(""))
  {
  }

  class LlmResponse {
    var thinkingProcess: Option<string>
    var finalAnswer: Option<string>

    constructor (thinkingProcess: Option<string>, finalAnswer: Option<string>)
      ensures this.thinkingProcess == thinkingProcess && this.finalAnswer == finalAnswer
    {
      this.thinkingProcess := thinkingProcess;
      this.finalAnswer := finalAnswer;
    }

    method SetThinkingProcess(thinkingProcess: Option<string>)
      modifies this
      ensures this.thinkingProcess == thinkingProcess && finalAnswer == old(finalAnswer)
    {
      this.thinkingProcess := thinkingProcess;
    }

    method SetFinalAnswer(finalAnswer: Option<string>)
      modifies this
      ensures this.finalAnswer == finalAnswer && thinkingProcess == old(thinkingProcess)
    {
      this.finalAnswer := finalAnswer;
    }

    /** True exactly when the thinking process is non-null and non-empty. */
    predicate HasThinkingProcess(): (b: bool)
      reads this
      ensures b <==> thinkingProcess.Some? && |thinkingProcess.value| > 0
    {
      IsPresent(thinkingProcess)
    }

    /** True exactly when the final answer is non-null and non-empty. */
    predicate HasFinalAnswer(): (b: bool)
      reads this
      ensures b <==> finalAnswer.Some? && |finalAnswer.value| > 0
    {
      IsPresent(finalAnswer)
    }

    /** The text is empty when neither part is present, and otherwise lists the
        present parts, thinking first. */
    function ToString(): (s: string)
      reads this
      ensures s == "" <==> !HasThinkingProcess() && !HasFinalAnswer()
      ensures ThinkingHeader <= s <==> HasThinkingProcess()
      ensures !HasThinkingProcess() && HasFinalAnswer() ==> s == AnswerHeader + finalAnswer.value
    {
      RenderShowsWhatIsPresent(thinkingProcess, finalAnswer);
      Render(thinkingProcess, finalAnswer)
    }
  }
}
