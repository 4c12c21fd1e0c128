/**
 * The chat handler around the graph: `handle_user_message`, which reads one
 * line typed by the user, decides between starting a trip, refusing
 * anything but START, and running the graph, and updates the session's
 * state dictionary and chat history in place; and `start_over`, which
 * discards both.
 */
module Driver {
  import opened Results
  import opened Text
  import opened Catalog
  import opened Agent
  import opened Nodes
  import opened Search
  import opened Itinerary
  import opened Graph

  /** One row of the chat history: what the user typed (None for a line the assistant shows unprompted) and the reply. */
  datatype HistoryEntry = HistoryEntry(user: Option<string>, assistant: string)

  const ItineraryDoneReply: string := "Itinerary generated. Please click 'Start Over' to plan a new trip."
  const FallbackReply: string := "Something went wrong. Please type START to begin."
  const NoResponseReply: string := "Error: No response."

  /** The state dictionary a session gets on its first message, and after the unexpected-state fallback. */
  const InitialState: AgentState := AgentState([AI(InitialMessage)], map[], [], None, None)

  /** `user_input.strip().lower()`. */
  function Cleaned(input: string): string {
    Lower(Strip(input))
  }

  /** `state.get(key)` is truthy for an optional text: it is set and not empty. */
  predicate Truthy(o: Option<string>) {
    o.Some? && o.value != ""
  }

  /** The five arms of the handler's if-chain. */
  datatype Branch = Start | InvalidStart | ItineraryDone | RunGraph | Fallback

  /**
   * Which arm the handler takes, with the conditions tested in the order it
   * tests them: START only with nothing pending, the refusal for any other
   * line with nothing pending, and the graph whenever a field is pending.
   */
  function Classify(cleaned: string, s: AgentState): (b: Branch)
    ensures b == Start <==> s.missingFields == [] && cleaned == "start"
    ensures b == InvalidStart <==> s.missingFields == [] && cleaned != "start"
    ensures b == RunGraph <==> s.missingFields != []
  {
    if cleaned == "start" && s.missingFields == [] then Start
    else if s.missingFields == [] && cleaned != "start" then InvalidStart
    else if s.missingFields != [] || Truthy(s.itinerary) then
      if Truthy(s.itinerary) && s.missingFields == [] then ItineraryDone else RunGraph
    else Fallback
  }

  /**
   * The two inner guards can never fire: the first two arms already take
   * every state with no pending field, so the graph arm is reached exactly
   * when a field is pending, whatever the user typed.
   */
  lemma DeadBranchesUnreachable(cleaned: string, s: AgentState)
    ensures Classify(cleaned, s) != ItineraryDone
    ensures Classify(cleaned, s) != Fallback
  {
  }

  /** The reply shown for a graph run: the text of the last message when it is the assistant's. */
  function LastReply(messages: seq<Message>): string {
    if messages != [] && messages[|messages| - 1].AI? then messages[|messages| - 1].content else NoResponseReply
  }

  /** What one call of the handler leaves behind: the state, the history row it adds, and the foreign calls made. */
  datatype TurnResult = TurnResult(state: AgentState, entry: HistoryEntry, calls: seq<ExternalCall>)

  /** A graph that can be invoked on every state holding at least one message, as `travel_agent_app` can. */
  ghost predicate Invocable(app: AgentState --> GraphRun) {
    forall s: AgentState :: s.messages != [] ==> app.requires(s)
  }

  /**
   * The handler as a function of the typed line, the state dictionary it
   * finds (None on the first message) and the compiled graph it invokes.
   */
  function Turn(input: string, current: Option<AgentState>, app: AgentState --> GraphRun): (t: TurnResult)
    requires Invocable(app)
    ensures var s := if current.Some? then current.value else InitialState;
            && (t.entry.user.None? <==> s.missingFields == [] && Cleaned(input) == "start")
            && (s.missingFields == [] ==> t.calls == [])
  {
    var s := if current.Some? then current.value else InitialState;
    match Classify(Cleaned(input), s)
    case Start =>
      TurnResult(AgentState([AI(StartConfirmation)], map[], OrderedFields, s.searchResults, s.itinerary),
                 HistoryEntry(None, StartConfirmation), [])
    case InvalidStart =>
      TurnResult(s.(messages := s.messages + [Human(input), AI(InvalidStartMessage)]),
                 HistoryEntry(Some(input), InvalidStartMessage), [])
    case ItineraryDone =>
      TurnResult(s, HistoryEntry(Some(input), ItineraryDoneReply), [])
    case RunGraph =>
      var r := app(s.(messages := s.messages + [Human(input)]));
      TurnResult(r.final, HistoryEntry(Some(input), LastReply(r.final.messages)), r.calls)
    case Fallback =>
      TurnResult(InitialState, HistoryEntry(Some(input), FallbackReply), [])
  }

  /** START is recognised whatever its case and whatever whitespace surrounds it. */
  lemma StartCommandAcceptsPadding(p: string, w: string, q: string)
    requires AllSpace(p) && AllSpace(q)
    requires Lower(w) == "start"
    ensures Cleaned(p + w + q) == "start"
  {
    LowerAt(w, 0);
    LowerAt(w, 4);
    StripPadded(p, w, q);
  }

  /** Only a five-letter word that lower-cases to "start", once stripped, is the START command. */
  lemma StartCommandShape(input: string)
    requires Cleaned(input) == "start"
    ensures |Strip(input)| == 5
    ensures forall k :: 0 <= k < 5 ==> Strip(input)[k] == "start"[k] || Strip(input)[k] == "START"[k]
  {
    var w := Strip(input);
    forall k | 0 <= k < 5 ensures w[k] == "start"[k] || w[k] == "START"[k] {
      LowerAt(w, k);
    }
  }

  /**
   * With no field pending the graph never runs: START (in any case, with
   * any surrounding whitespace) begins a new trip with every field pending,
   * no answers and only the confirmation in the conversation, and anything
   * else is refused with the invalid-start reply appended after the user's
   * line. Either way the search text and itinerary of an earlier trip are
   * kept.
   */
  lemma IdleTurn(input: string, s: AgentState, app: AgentState --> GraphRun)
    requires Invocable(app)
    requires s.missingFields == []
    ensures var t := Turn(input, Some(s), app);
            && t.calls == []
            && t.state.searchResults == s.searchResults
            && t.state.itinerary == s.itinerary
            && (Cleaned(input) == "start" ==>
                  && t.state.missingFields == OrderedFields
                  && t.state.userInfo == map[]
                  && t.state.messages == [AI(StartConfirmation)]
                  && t.entry == HistoryEntry(None, StartConfirmation))
            && (Cleaned(input) != "start" ==>
                  && t.state.missingFields == []
                  && t.state.userInfo == s.userInfo
                  && t.state.messages == s.messages + [Human(input), AI(InvalidStartMessage)]
                  && t.entry == HistoryEntry(Some(input), InvalidStartMessage))
  {
  }

  /** The first message of a session is answered like one to a state with no pending field and no trip. */
  lemma FirstMessage(input: string, app: AgentState --> GraphRun)
    requires Invocable(app)
    ensures var t := Turn(input, None, app);
            && t.calls == []
            && (Cleaned(input) == "start" <==> t.entry.assistant == StartConfirmation)
            && (Cleaned(input) != "start" ==> t.state.messages == [AI(InitialMessage), Human(input), AI(InvalidStartMessage)])
  {
    IdleTurn(input, InitialState, app);
  }

  /** While a field is pending, whatever the user typed, START included, goes to the graph after their message. */
  lemma PendingRunsGraph(input: string, s: AgentState, app: AgentState --> GraphRun)
    requires Invocable(app)
    requires s.missingFields != []
    ensures var sent := s.(messages := s.messages + [Human(input)]);
            && app.requires(sent)
            && var r := app(sent);
            Turn(input, Some(s), app) == TurnResult(r.final, HistoryEntry(Some(input), LastReply(r.final.messages)), r.calls)
  {
    DeadBranchesUnreachable(Cleaned(input), s);
  }

  /**
   * While a field is pending, every line is the answer to the first
   * pending field: its stripped text is bound to that field, the field
   * leaves the list, and the user's line and one reply are appended to the
   * conversation.
   */
  lemma PendingTurn(input: string, s: AgentState, app: AgentState --> GraphRun)
    requires Invocable(app) && AnswersPendingField(app)
    requires s.missingFields != []
    ensures var t := Turn(input, Some(s), app);
            && t.entry.user == Some(input)
            && t.state.userInfo == s.userInfo[s.missingFields[0] := Strip(input)]
            && t.state.missingFields == s.missingFields[1..]
            && |t.state.messages| == |s.messages| + 2
            && t.state.messages[..|s.messages| + 1] == s.messages + [Human(input)]
            && t.entry.assistant == t.state.messages[|s.messages| + 1].content
  {
    var sent := s.(messages := s.messages + [Human(input)]);
    PendingRunsGraph(input, s, app);
    assert Answering(sent);
  }

  /** An answer that leaves a field pending is acknowledged with that field's question, and nothing is searched or generated. */
  lemma NextQuestionTurn(input: string, s: AgentState, app: AgentState --> GraphRun)
    requires Invocable(app) && AnswersPendingField(app)
    requires |s.missingFields| >= 2
    ensures var t := Turn(input, Some(s), app);
            && t.calls == []
            && t.entry == HistoryEntry(Some(input), Question(s.missingFields[1]))
            && t.state.searchResults == s.searchResults
            && t.state.itinerary == s.itinerary
  {
    var sent := s.(messages := s.messages + [Human(input)]);
    PendingRunsGraph(input, s, app);
    assert Answering(sent);
  }

  /** The answer to the last pending field makes the two foreign calls: the search on the completed answers, then a completion. */
  lemma LastAnswerTurn(input: string, s: AgentState, app: AgentState --> GraphRun)
    requires Invocable(app) && AnswersPendingField(app)
    requires |s.missingFields| == 1
    ensures var t := Turn(input, Some(s), app);
            && |t.calls| == 2
            && t.calls[0] == SearchCall(SearchQuery(s.userInfo[s.missingFields[0] := Strip(input)]))
            && t.calls[1].CompletionCall?
  {
    var sent := s.(messages := s.messages + [Human(input)]);
    PendingRunsGraph(input, s, app);
    assert Answering(sent);
  }

  /**
   * The answer to the last pending field runs the search once on the
   * completed answers and the completion once on the prompt built from
   * them and the search text; the reply is the ready banner followed by the
   * itinerary, or the apology carrying the error.
   */
  lemma FinalAnswerTurn(input: string, s: AgentState, search: string -> Outcome<SearchResult>, complete: string -> Outcome<Response>)
    requires |s.missingFields| == 1
    ensures var t := Turn(input, Some(s), TravelAgentApp(search, complete));
            var info := s.userInfo[s.missingFields[0] := Strip(input)];
            var query := SearchQuery(info);
            var searched := AgentState(s.messages + [Human(input)], info, [], SearchText(search(query)), s.itinerary);
            var outcome := complete(ItineraryPrompt(searched));
            && t.calls == [SearchCall(query), CompletionCall(ItineraryPrompt(searched))]
            && t.state.searchResults == SearchText(search(query))
            && (outcome.Ok? ==>
                  && t.state.itinerary == Some(ResponseText(outcome.value))
                  && t.entry == HistoryEntry(Some(input), ItineraryReadyMessage + "\n\n" + ResponseText(outcome.value)))
            && (outcome.Err? ==>
                  && t.state.itinerary == None
                  && t.entry == HistoryEntry(Some(input), GenerationFailedPrefix + outcome.details))
  {
    var sent := s.(messages := s.messages + [Human(input)]);
    PendingRunsGraph(input, s, TravelAgentApp(search, complete));
    assert sent.messages[|sent.messages| - 1] == Human(input);
    AnswerStep(sent, search, complete);
  }

  /**
   * What holds of the state between two messages: the pending fields are
   * the tail of `ORDERED_FIELDS` and the answers are exactly the fields in
   * front of it, or, before the first START, nothing is pending and
   * nothing answered.
   */
  ghost predicate SessionInvariant(s: AgentState) {
    && IsPendingSuffix(s.missingFields)
    && (s.userInfo.Keys == Answered(s.missingFields) || (s.missingFields == [] && s.userInfo == map[]))
  }

  /** Every message keeps the invariant, and the very first message establishes it, for any graph that binds answers as the travel graph does. */
  lemma TurnKeepsInvariant(input: string, current: Option<AgentState>, app: AgentState --> GraphRun)
    requires Invocable(app) && AnswersPendingField(app)
    requires current.Some? ==> SessionInvariant(current.value)
    ensures SessionInvariant(Turn(input, current, app).state)
  {
    var s := if current.Some? then current.value else InitialState;
    if s.missingFields == [] {
      IdleTurn(input, s, app);
      assert Answered(OrderedFields) == {};
    } else {
      PendingTurn(input, s, app);
      AnswerHead(s.missingFields);
    }
  }

  /** In particular the travel graph keeps it, whatever its clients answer. */
  lemma TravelTurnKeepsInvariant(input: string, current: Option<AgentState>,
                                 search: string -> Outcome<SearchResult>, complete: string -> Outcome<Response>)
    requires current.Some? ==> SessionInvariant(current.value)
    ensures SessionInvariant(Turn(input, current, TravelAgentApp(search, complete)).state)
  {
    TravelAgentAppAnswers(search, complete);
    TurnKeepsInvariant(input, current, TravelAgentApp(search, complete));
  }

  /** The history and state `start_over` puts in place of the session's. */
  datatype Restart = Restart(history: seq<HistoryEntry>, state: AgentState)

  /**
   * `start_over`: a history holding only the restart line and a state with
   * nothing pending, nothing answered and no trip, whose next message is
   * either START or refused.
   */
  function StartOver(): (r: Restart)
    ensures r.history == [HistoryEntry(None, RestartMessage)]
    ensures SessionInvariant(r.state)
    ensures r.state.missingFields == [] && r.state.searchResults == None && r.state.itinerary == None
    ensures r.state.userInfo == map[] && r.state.messages == [AI(RestartMessage)]
  {
    Restart([HistoryEntry(None, RestartMessage)], AgentState([AI(RestartMessage)], map[], [], None, None))
  }

  /** The session's state dictionary, which the handler updates in place. */
  class StateDict {
    var messages: seq<Message>
    var userInfo: UserInfo
    var missingFields: seq<Field>
    var searchResults: Option<string>
    var itinerary: Option<string>

    constructor (s: AgentState)
      ensures Snapshot() == s
    {
      messages := s.messages;
      userInfo := s.userInfo;
      missingFields := s.missingFields;
      searchResults := s.searchResults;
      itinerary := s.itinerary;
    }

    /** The dictionary's five entries as an `AgentState`. */
    function Snapshot(): AgentState
      reads this
    {
      AgentState(messages, userInfo, missingFields, searchResults, itinerary)
    }

    /** `dict.update(final_state)`: every one of the five keys takes the final state's value. */
    method UpdateFrom(final: AgentState)
      modifies this
      ensures Snapshot() == final
    {
      messages := final.messages;
      userInfo := final.userInfo;
      missingFields := final.missingFields;
      searchResults := final.searchResults;
      itinerary := final.itinerary;
    }
  }

  /** The chat history the UI passes in and the handler appends to. */
  class ChatHistory {
    var entries: seq<HistoryEntry>

    constructor (entries0: seq<HistoryEntry>)
      ensures entries == entries0
    {
      entries := entries0;
    }

    method Append(e: HistoryEntry)
      modifies this
      ensures entries == old(entries) + [e]
    {
      entries := entries + [e];
    }
  }

  /**
   * `handle_user_message`: a missing state dictionary is created first;
   * then the state dictionary and the history are updated in place as
   * `Turn` describes, and the dictionary is returned. The two guards that
   * cannot fire (see `DeadBranchesUnreachable`) are marked unreachable.
   */
  method HandleUserMessage(userInput: string, history: ChatHistory, current: StateDict?, app: AgentState --> GraphRun)
    returns (st: StateDict, calls: seq<ExternalCall>)
    requires Invocable(app)
    modifies history, current
    ensures current != null ==> st == current
    ensures current == null ==> fresh(st)
    ensures var t := Turn(userInput, if current == null then None else Some(old(current.Snapshot())), app);
            && st.Snapshot() == t.state
            && history.entries == old(history.entries) + [t.entry]
            && calls == t.calls
  {
    var cleaned := Lower(Strip(userInput));
    if current == null {
      st := new StateDict(InitialState);
    } else {
      st := current;
    }
    ghost var t := Turn(userInput, Some(st.Snapshot()), app);
    calls := [];
    var pending := st.missingFields;
    var itinerary := st.itinerary;
    if cleaned == "start" && pending == [] {
      st.missingFields := OrderedFields;
      st.userInfo := map[];
      st.messages := [AI(StartConfirmation)];
      history.Append(HistoryEntry(None, StartConfirmation));
      assert t == TurnResult(st.Snapshot(), HistoryEntry(None, StartConfirmation), []);
    } else if pending == [] && cleaned != "start" {
      st.messages := st.messages + [Human(userInput), AI(InvalidStartMessage)];
      history.Append(HistoryEntry(Some(userInput), InvalidStartMessage));
      assert t == TurnResult(st.Snapshot(), HistoryEntry(Some(userInput), InvalidStartMessage), []);
    } else if pending != [] || Truthy(itinerary) {
      if Truthy(itinerary) && pending == [] {
        assert false;
      }
      st.messages := st.messages + [Human(userInput)];
      var run := app(st.Snapshot());
      assert t == TurnResult(run.final, HistoryEntry(Some(userInput), LastReply(run.final.messages)), run.calls);
      st.UpdateFrom(run.final);
      history.Append(HistoryEntry(Some(userInput), LastReply(run.final.messages)));
      calls := run.calls;
    } else {
      assert false;
    }
  }
}
