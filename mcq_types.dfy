/** The result shapes produced by the platform's answer generator and
    carried through the view and its cache slot (src/types/mcq.ts). */
module McqTypes {

  /** An optional value: `None` stands for JavaScript's `null`/`undefined`. */
  datatype Option<+T> = None | Some(value: T)

  /** One answer choice of a question, e.g. label "B" with its text
      (`label` is a Dafny keyword, hence `optionLabel`). */
  datatype MCQOption = MCQOption(optionLabel: string, text: string)

  /** One multiple-choice question with its options, the label of the
      correct option and an explanation. */
  datatype MCQData = MCQData(
    question: string,
    options: seq<MCQOption>,
    correctAnswer: string,
    explanation: string)

  /** A successful result: the questions found on the screenshots, in order. */
  datatype MCQResponse = MCQResponse(questions: seq<MCQData>)
}
