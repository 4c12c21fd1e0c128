/**
 * The four-node graph: `process_user_input`, then the conditional edge;
 * either `ask_next_question` and the end, or `run_search`, then
 * `generate_itinerary`, then the end. The run records the calls it makes to
 * the search and completion clients.
 */
module Graph {
  import opened Results
  import opened Text
  import opened Catalog
  import opened Agent
  import opened Nodes
  import opened Search
  import opened Itinerary

  /** A request to one of the two foreign clients, with its argument. */
  datatype ExternalCall = SearchCall(query: string) | CompletionCall(prompt: string)

  /** The state the graph ends in, and the foreign calls it made on the way, in order. */
  datatype GraphRun = GraphRun(final: AgentState, calls: seq<ExternalCall>)

  /**
   * `travel_agent_app.invoke(state)`. Whichever way the conditional edge
   * goes, exactly one assistant message is appended; the foreign clients
   * are called (search, then completion, once each) exactly when no field
   * is left pending after the answer is bound.
   */
  function InvokeGraph(s: AgentState, search: string -> Outcome<SearchResult>, complete: string -> Outcome<Response>): (r: GraphRun)
    requires s.messages != []
    ensures |r.final.messages| == |s.messages| + 1
    ensures r.final.messages[..|s.messages|] == s.messages && r.final.messages[|s.messages|].AI?
    ensures var processed := Apply(s, ProcessUserInput(s));
            && r.final.userInfo == processed.userInfo
            && r.final.missingFields == processed.missingFields
            && (r.calls == [] <==> processed.missingFields != [])
            && (r.calls != [] ==> |r.calls| == 2 && r.calls[0].SearchCall? && r.calls[1].CompletionCall?)
  {
    var processed := Apply(s, ProcessUserInput(s));
    match ShouldAskQuestionOrSearch(processed)
    case AskNextQuestionNode =>
      GraphRun(Apply(processed, AskNextQuestion(processed)), [])
    case RunSearchNode =>
      var searched := Apply(processed, RunSearch(processed, search));
      var generated := Apply(searched, GenerateItinerary(searched, complete));
      GraphRun(generated, [SearchCall(SearchQuery(processed.userInfo)), CompletionCall(ItineraryPrompt(searched))])
  }

  /**
   * One answer while fields are pending: the stripped reply is bound to
   * the first pending field, which leaves the list. If fields remain, the
   * next one's question is the one message appended and nothing else
   * changes; if none remain, the search runs once on the completed
   * answers, its text is stored, and the completion runs once on the
   * prompt built from it.
   */
  lemma AnswerStep(s: AgentState, search: string -> Outcome<SearchResult>, complete: string -> Outcome<Response>)
    requires s.messages != [] && s.messages[|s.messages| - 1].Human?
    requires s.missingFields != []
    ensures var r := InvokeGraph(s, search, complete);
            var head := s.missingFields[0];
            var rest := s.missingFields[1..];
            var info := s.userInfo[head := Strip(s.messages[|s.messages| - 1].content)];
            && r.final.userInfo == info
            && r.final.missingFields == rest
            && (rest != [] ==>
                  && r.calls == []
                  && r.final.messages == s.messages + [AI(Question(rest[0]))]
                  && r.final.searchResults == s.searchResults
                  && r.final.itinerary == s.itinerary)
            && (rest == [] ==>
                  var query := SearchQuery(info);
                  var searched := AgentState(s.messages, info, [], SearchText(search(query)), s.itinerary);
                  && r.calls == [SearchCall(query), CompletionCall(ItineraryPrompt(searched))]
                  && r.final == Apply(searched, GenerateItinerary(searched, complete)))
  {
    var processed := Apply(s, ProcessUserInput(s));
    assert processed.userInfo == s.userInfo[s.missingFields[0] := Strip(s.messages[|s.messages| - 1].content)];
    if s.missingFields[1..] != [] {
      assert AskNextQuestion(processed).messages.value == s.messages + [AI(Question(s.missingFields[1..][0]))];
    }
  }

  /** `travel_agent_app`: the compiled graph over the two clients, which can be invoked on any state holding a message. */
  function TravelAgentApp(search: string -> Outcome<SearchResult>, complete: string -> Outcome<Response>): AgentState --> GraphRun {
    (s: AgentState) requires s.messages != [] => InvokeGraph(s, search, complete)
  }

  /** The graph is given a line the user typed while a field is pending. */
  predicate Answering(s: AgentState) {
    s.messages != [] && s.messages[|s.messages| - 1].Human? && s.missingFields != []
  }

  /**
   * What `AnswerStep` proves of a run on such a state, stated for any run:
   * the stripped line is bound to the first pending field, which leaves the
   * list; one assistant message is appended; if fields remain it is the
   * next question and no client is called; otherwise the search runs on the
   * query of the completed answers, then the completion.
   */
  ghost predicate AnswerOutcome(s: AgentState, r: GraphRun)
    requires Answering(s)
  {
    var info := s.userInfo[s.missingFields[0] := Strip(s.messages[|s.messages| - 1].content)];
    var rest := s.missingFields[1..];
    && r.final.userInfo == info
    && r.final.missingFields == rest
    && |r.final.messages| == |s.messages| + 1
    && r.final.messages[..|s.messages|] == s.messages
    && r.final.messages[|s.messages|].AI?
    && (rest != [] ==>
          && r.calls == []
          && r.final.messages[|s.messages|] == AI(Question(rest[0]))
          && r.final.searchResults == s.searchResults
          && r.final.itinerary == s.itinerary)
    && (rest == [] ==>
          && |r.calls| == 2
          && r.calls[0] == SearchCall(SearchQuery(info))
          && r.calls[1].CompletionCall?)
  }

  /** A graph that treats every line typed while a field is pending as `AnswerOutcome` says. */
  ghost predicate AnswersPendingField(app: AgentState --> GraphRun) {
    forall s: AgentState :: Answering(s) ==> app.requires(s) && AnswerOutcome(s, app(s))
  }

  /** `travel_agent_app` is such a graph, whatever the clients answer. */
  lemma TravelAgentAppAnswers(search: string -> Outcome<SearchResult>, complete: string -> Outcome<Response>)
    ensures AnswersPendingField(TravelAgentApp(search, complete))
  {
    forall s: AgentState | Answering(s)
      ensures AnswerOutcome(s, InvokeGraph(s, search, complete))
    {
      AnswerStep(s, search, complete);
    }
  }
}
