/**
 * The recommendation wizard (components/RecommendationWizard.tsx): choose a
 * use case, answer its four questions one by one, then wait for the
 * recommendations; a failed request shows an error until the wizard is closed.
 * `handleAnswer` is split at its `await`: `HandleAnswer` issues the request
 * and `Receive` handles the settled reply.
 */
module RecommendationWizard {
  import opened Types
  import opened Constants

  datatype Step = SelectUseCase | AskQuestions | Generating | Failure

  const INVALID_RESULT_MESSAGE := "Could not get valid recommendations."
  const REQUEST_ERROR_MESSAGE := "An error occurred. Please check your API key and try again."

  /** The question the `i`-th answer responds to: answers past the last question repeat it. */
  function QuestionFor(useCase: UseCase, i: nat): string
  {
    Questions(useCase)[if i < |Questions(useCase)| then i else |Questions(useCase)| - 1].question
  }

  class Wizard {
    var step: Step
    var useCase: Option<UseCase>
    var answers: seq<Answer>
    var index: nat
    var error: Option<string>

    /**
     * Without a use case nothing has been answered and no question is asked.
     * With one, the index stays on a question and every answer records the
     * question it was given for. The answers either keep pace with the index
     * (one per question passed, always so while asking) or run past the last
     * question (always so while generating). A reply that arrives after the
     * wizard was restarted can leave the error step in the first shape.
     */
    ghost predicate Valid()
      reads this
    {
      && (useCase.None? ==> answers == [] && index == 0 && step != AskQuestions && step != Generating)
      && (useCase.Some? ==>
            var last := |Questions(useCase.value)| - 1;
            && step != SelectUseCase
            && index <= last
            && (|answers| == index || (index == last && |answers| > last))
            && (step == AskQuestions ==> |answers| == index)
            && (step == Generating ==> index == last && |answers| > last)
            && forall i :: 0 <= i < |answers| ==> answers[i].question == QuestionFor(useCase.value, i))
    }

    constructor()
      ensures Valid()
      ensures step == SelectUseCase && useCase == None && answers == [] && index == 0 && error == None
    {
      step := SelectUseCase;
      useCase := None;
      answers := [];
      index := 0;
      error := None;
    }

    /** `handleStart`: a chosen use case starts its questions from the first. */
    method HandleStart(selected: UseCase)
      requires Valid()
      modifies this`useCase, this`answers, this`index, this`step
      ensures Valid()
      ensures useCase == Some(selected) && answers == [] && index == 0 && step == AskQuestions
    {
      useCase := Some(selected);
      answers := [];
      index := 0;
      step := AskQuestions;
    }

    /**
     * `handleAnswer` up to its `await`: record the answer against the current
     * question; move to the next question, or after the last one start
     * generating and return the answers to send.
     */
    method HandleAnswer(answer: string) returns (request: Option<seq<Answer>>)
      requires Valid()
      modifies this`answers, this`index, this`step
      ensures Valid()
      ensures old(useCase).None? ==> request == None && answers == old(answers) && index == old(index) && step == old(step)
      ensures old(useCase).Some? ==>
        answers == old(answers) + [Answer(Questions(old(useCase).value)[old(index)].question, answer)]
      ensures old(useCase).Some? && old(index) < |Questions(old(useCase).value)| - 1 ==>
        request == None && index == old(index) + 1 && step == old(step)
      ensures old(useCase).Some? && old(index) == |Questions(old(useCase).value)| - 1 ==>
        request == Some(answers) && index == old(index) && step == Generating
      ensures old(step) == AskQuestions && request.Some? ==>
        |request.value| == |Questions(useCase.value)|
        && forall i :: 0 <= i < |request.value| ==> request.value[i].question == Questions(useCase.value)[i].question
    {
      if useCase.None? {
        return None;
      }
      var questions := Questions(useCase.value);
      answers := answers + [Answer(questions[index].question, answer)];
      if index < |questions| - 1 {
        index := index + 1;
        request := None;
      } else {
        step := Generating;
        request := Some(answers);
      }
    }

    /** `resetAndClose`: back to choosing a use case with everything cleared. */
    method ResetAndClose()
      modifies this`step, this`useCase, this`answers, this`index, this`error
      ensures Valid()
      ensures step == SelectUseCase && useCase == None && answers == [] && index == 0 && error == None
    {
      step := SelectUseCase;
      useCase := None;
      answers := [];
      index := 0;
      error := None;
    }

    /**
     * `handleAnswer` after its `await`: a batch is handed to `onComplete` (the
     * result) and the wizard resets and closes; a reply without a batch or a
     * thrown error shows the matching message. This also happens when the
     * wizard was closed while the request was pending.
     */
    method Receive(reply: Reply) returns (completed: Option<seq<Product>>)
      requires Valid()
      modifies this`step, this`useCase, this`answers, this`index, this`error
      ensures Valid()
      ensures reply.Batch? ==>
        completed == Some(reply.recommendations)
        && step == SelectUseCase && useCase == None && answers == [] && index == 0 && error == None
      ensures reply.NoBatch? ==>
        completed == None && step == Failure && error == Some(INVALID_RESULT_MESSAGE)
        && useCase == old(useCase) && answers == old(answers) && index == old(index)
      ensures reply.Failed? ==>
        completed == None && step == Failure && error == Some(REQUEST_ERROR_MESSAGE)
        && useCase == old(useCase) && answers == old(answers) && index == old(index)
    {
      if reply.Batch? {
        completed := Some(reply.recommendations);
        ResetAndClose();
      } else {
        completed := None;
        error := Some(if reply.NoBatch? then INVALID_RESULT_MESSAGE else REQUEST_ERROR_MESSAGE);
        step := Failure;
      }
    }
  }
}
