/** The clarification agent: a short description gets three standard questions. */
module Clarification {
  import opened Wrappers

  datatype ClarificationResult = ClarificationResult(needsClarification: bool, questions: seq<string>)

  function StandardQuestions(): seq<string> {
    ["Can you provide more specific details?",
     "Do you have a preferred deadline?",
     "Are there any specific file formats required?"]
  }

  /** The verdict for a description (absent counts as empty). */
  function Run(input: Option<string>): (r: ClarificationResult)
    ensures r.needsClarification <==> |input.GetOr("")| < 20
    ensures r.needsClarification ==> r.questions == StandardQuestions()
    ensures !r.needsClarification ==> r.questions == []
    ensures r.needsClarification <==> r.questions != []
  {
    var description := input.GetOr("");
    if |description| < 20 then ClarificationResult(true, StandardQuestions())
    else ClarificationResult(false, [])
  }

  /** Only the length of the description matters. */
  lemma DependsOnlyOnLength(d1: string, d2: string)
    requires |d1| == |d2|
    ensures Run(Some(d1)) == Run(Some(d2))
  {
  }
}
