/**
 * The question-and-answer nodes of the graph: binding a reply to the
 * pending field, choosing the next node, and asking the next question.
 */
module Nodes {
  import opened Results
  import opened Text
  import opened Catalog
  import opened Agent

  /**
   * `process_user_input`: the stripped text of the latest message becomes
   * the answer to the first pending field, which leaves `missing_fields`.
   * Nothing else changes. If the latest message is not the user's, or no
   * field is pending, the node returns `{}`.
   */
  function ProcessUserInput(s: AgentState): (u: StateUpdate)
    requires s.messages != []
    ensures u.messages.None? && u.searchResults.None? && u.itinerary.None?
    ensures var last := s.messages[|s.messages| - 1];
            if last.Human? && s.missingFields != [] then
              var f := s.missingFields[0];
              && u.missingFields == Some(s.missingFields[1..])
              && u.userInfo.Some?
              && u.userInfo.value.Keys == s.userInfo.Keys + {f}
              && u.userInfo.value[f] == Strip(last.content)
              && (forall g :: g in s.userInfo && g != f ==> u.userInfo.value[g] == s.userInfo[g])
            else
              u == NoUpdate
  {
    match s.messages[|s.messages| - 1]
    case AI(_) => NoUpdate
    case Human(content) =>
      if s.missingFields == [] then NoUpdate
      else
        var field := s.missingFields[0];
        StateUpdate(None, Some(s.userInfo[field := Strip(content)]), Some(s.missingFields[1..]), None, None)
  }

  /** The two nodes the conditional edge out of `process_user_input` can lead to. */
  datatype NextNode = AskNextQuestionNode | RunSearchNode

  /** `should_ask_question_or_search`: search once no field is pending, otherwise ask. */
  function ShouldAskQuestionOrSearch(s: AgentState): (n: NextNode)
    ensures n == RunSearchNode <==> s.missingFields == []
    ensures n == AskNextQuestionNode <==> s.missingFields != []
  {
    if s.missingFields == [] then RunSearchNode else AskNextQuestionNode
  }

  const NoMoreQuestionsMessage: string := "Something went wrong, no more questions to ask."

  /**
   * `ask_next_question`: appends one assistant message, the question for
   * the first pending field (a fixed complaint when none is pending), and
   * sets nothing else.
   */
  function AskNextQuestion(s: AgentState): (u: StateUpdate)
    ensures u.userInfo.None? && u.missingFields.None? && u.searchResults.None? && u.itinerary.None?
    ensures u.messages.Some?
    ensures s.missingFields != [] ==> AppendsOne(u.messages.value, s.messages, AI(Question(s.missingFields[0])))
    ensures s.missingFields == [] ==> AppendsOne(u.messages.value, s.messages, AI(NoMoreQuestionsMessage))
  {
    if s.missingFields == [] then
      StateUpdate(Some(s.messages + [AI(NoMoreQuestionsMessage)]), None, None, None, None)
    else
      StateUpdate(Some(s.messages + [AI(Question(s.missingFields[0]))]), None, None, None, None)
  }

  /**
   * Answering the first pending field keeps `missing_fields` a suffix of
   * `ORDERED_FIELDS` and keeps the answered keys exactly the fields in
   * front of it.
   */
  lemma ProcessAnswersHead(s: AgentState)
    requires s.messages != [] && s.messages[|s.messages| - 1].Human?
    requires IsPendingSuffix(s.missingFields) && s.missingFields != []
    requires s.userInfo.Keys == Answered(s.missingFields)
    ensures var t := Apply(s, ProcessUserInput(s));
            && t.missingFields == s.missingFields[1..]
            && IsPendingSuffix(t.missingFields)
            && t.userInfo.Keys == Answered(t.missingFields)
  {
    AnswerHead(s.missingFields);
  }
}
