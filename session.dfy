/**
 * A session as the UI drives it: one call of the handler per line typed,
 * each on the state dictionary the previous call left. The lemmas follow a
 * trip from START through the five answers. They are stated for any handler
 * that keeps the contracts below; `HandlerAnswersInOrder` and
 * `TravelHandlerGenerates` prove that `handle_user_message` over the travel
 * graph keeps them.
 */
module Session {
  import opened Results
  import opened Text
  import opened Catalog
  import opened Agent
  import opened Search
  import opened Itinerary
  import opened Graph
  import opened Driver

  /**
   * Where a run of several messages ends: the last state, the history rows
   * added, and for each message the foreign calls its turn made, in order.
   */
  datatype SessionRun = SessionRun(state: AgentState, entries: seq<HistoryEntry>, calls: seq<seq<ExternalCall>>)

  /** `handle_user_message` over a compiled graph, on the state the previous message left. */
  function HandlerOf(app: AgentState --> GraphRun): (AgentState, string) -> TurnResult
    requires Invocable(app)
  {
    (st: AgentState, x: string) => Turn(x, Some(st), app)
  }

  /** The handler called on each line in turn: one history row and one list of foreign calls per line. */
  function Replay(s: AgentState, inputs: seq<string>, handle: (AgentState, string) -> TurnResult): (r: SessionRun)
    ensures |r.entries| == |inputs| && |r.calls| == |inputs|
    decreases |inputs|
  {
    if inputs == [] then SessionRun(s, [], [])
    else
      var t := handle(s, inputs[0]);
      var rest := Replay(t.state, inputs[1..], handle);
      SessionRun(rest.state, [t.entry] + rest.entries, [t.calls] + rest.calls)
  }

  /** Running two batches of lines one after the other is running them all: the second starts where the first ended. */
  lemma {:induction false} ReplaySplit(s: AgentState, xs: seq<string>, ys: seq<string>, handle: (AgentState, string) -> TurnResult)
    ensures var a := Replay(s, xs, handle);
            var b := Replay(a.state, ys, handle);
            Replay(s, xs + ys, handle) == SessionRun(b.state, a.entries + b.entries, a.calls + b.calls)
    decreases |xs|
  {
    if xs == [] {
      assert xs + ys == ys;
    } else {
      var t := handle(s, xs[0]);
      assert (xs + ys)[0] == xs[0];
      assert (xs + ys)[1..] == xs[1..] + ys;
      ReplaySplit(t.state, xs[1..], ys, handle);
      var a := Replay(t.state, xs[1..], handle);
      var b := Replay(a.state, ys, handle);
      assert [t.entry] + (a.entries + b.entries) == ([t.entry] + a.entries) + b.entries;
      assert [t.calls] + (a.calls + b.calls) == ([t.calls] + a.calls) + b.calls;
    }
  }

  /** The last of a batch of lines is handled on the state the others left, and its row and calls come last. */
  lemma ReplaySnoc(s: AgentState, xs: seq<string>, x: string, handle: (AgentState, string) -> TurnResult)
    ensures var a := Replay(s, xs, handle);
            var t := handle(a.state, x);
            var r := Replay(s, xs + [x], handle);
            r.state == t.state && r.entries[|xs|] == t.entry && r.calls[|xs|] == t.calls
  {
    ReplaySplit(s, xs, [x], handle);
    var a := Replay(s, xs, handle);
    var t := handle(a.state, x);
    assert Replay(a.state, [x], handle) == SessionRun(t.state, [t.entry], [t.calls]);
  }

  /** What the handler does with START when nothing is pending: a new trip with every field pending and no answer, the confirmation, and no foreign call. */
  ghost predicate StartTurn(st: AgentState, t: TurnResult) {
    && t.calls == []
    && t.entry == HistoryEntry(None, StartConfirmation)
    && t.state.missingFields == OrderedFields
    && t.state.userInfo == map[]
  }

  /**
   * What the handler does with a line while a field is pending: the
   * stripped line is bound to the first pending field, which leaves the
   * list; the reply is the next field's question and no client is called,
   * or, after the last field, the search runs on the completed answers and
   * then one completion.
   */
  ghost predicate AnswerTurn(st: AgentState, x: string, t: TurnResult)
    requires st.missingFields != []
  {
    var info := st.userInfo[st.missingFields[0] := Strip(x)];
    var rest := st.missingFields[1..];
    && t.state.userInfo == info
    && t.state.missingFields == rest
    && t.entry.user == Some(x)
    && (rest != [] ==> t.calls == [] && t.entry.assistant == Question(rest[0]))
    && (rest == [] ==> |t.calls| == 2 && t.calls[0] == SearchCall(SearchQuery(info)) && t.calls[1].CompletionCall?)
  }

  /** A handler that begins a trip on START and takes answers in order, as `handle_user_message` does. */
  ghost predicate AnswersInOrder(handle: (AgentState, string) -> TurnResult) {
    && (forall st: AgentState, x: string :: st.missingFields == [] && Cleaned(x) == "start" ==> StartTurn(st, handle(st, x)))
    && (forall st: AgentState, x: string :: st.missingFields != [] ==> AnswerTurn(st, x, handle(st, x)))
  }

  /** `handle_user_message` keeps that contract over any graph that answers a pending field as the travel graph does. */
  lemma HandlerAnswersInOrder(app: AgentState --> GraphRun)
    requires Invocable(app) && AnswersPendingField(app)
    ensures AnswersInOrder(HandlerOf(app))
  {
    var handle := HandlerOf(app);
    forall st: AgentState, x: string | st.missingFields == [] && Cleaned(x) == "start"
      ensures StartTurn(st, handle(st, x))
    {
      IdleTurn(x, st, app);
    }
    forall st: AgentState, x: string | st.missingFields != []
      ensures AnswerTurn(st, x, handle(st, x))
    {
      PendingTurn(x, st, app);
      if |st.missingFields| >= 2 {
        NextQuestionTurn(x, st, app);
      } else {
        LastAnswerTurn(x, st, app);
      }
    }
  }

  /**
   * What the travel handler does with the answer to the last field: it
   * stores the search text, sends the prompt built from the completed
   * answers and that text, and replies with the ready banner and the
   * itinerary, or with the apology carrying the error.
   */
  ghost predicate GeneratingTurn(st: AgentState, x: string, t: TurnResult,
                                 search: string -> Outcome<SearchResult>, complete: string -> Outcome<Response>)
    requires st.missingFields != []
  {
    var info := st.userInfo[st.missingFields[0] := Strip(x)];
    var text := SearchText(search(SearchQuery(info)));
    var prompt := Fill(PromptTemplate, info, PromptSearchText(text));
    var outcome := complete(prompt);
    && t.calls == [SearchCall(SearchQuery(info)), CompletionCall(prompt)]
    && t.state.searchResults == text
    && (outcome.Ok? ==>
          && t.state.itinerary == Some(ResponseText(outcome.value))
          && t.entry == HistoryEntry(Some(x), ItineraryReadyMessage + "\n\n" + ResponseText(outcome.value)))
    && (outcome.Err? ==>
          && t.state.itinerary == None
          && t.entry == HistoryEntry(Some(x), GenerationFailedPrefix + outcome.details))
  }

  /** A handler that generates the itinerary on the last answer, with these clients. */
  ghost predicate GeneratesOnLastAnswer(handle: (AgentState, string) -> TurnResult,
                                        search: string -> Outcome<SearchResult>, complete: string -> Outcome<Response>) {
    forall st: AgentState, x: string :: |st.missingFields| == 1 ==> GeneratingTurn(st, x, handle(st, x), search, complete)
  }

  /** `handle_user_message` over the travel graph keeps both contracts, whatever its clients answer. */
  lemma TravelHandlerGenerates(search: string -> Outcome<SearchResult>, complete: string -> Outcome<Response>)
    ensures AnswersInOrder(HandlerOf(TravelAgentApp(search, complete)))
    ensures GeneratesOnLastAnswer(HandlerOf(TravelAgentApp(search, complete)), search, complete)
  {
    var app := TravelAgentApp(search, complete);
    TravelAgentAppAnswers(search, complete);
    HandlerAnswersInOrder(app);
    var handle := HandlerOf(app);
    forall st: AgentState, x: string | |st.missingFields| == 1
      ensures GeneratingTurn(st, x, handle(st, x), search, complete)
    {
      FinalAnswerTurn(x, st, search, complete);
    }
  }

  /** The answers bound one by one, each stripped, to the fields in order. */
  function Bind(info: UserInfo, fields: seq<Field>, answers: seq<string>): UserInfo
    requires |answers| <= |fields|
    decreases |answers|
  {
    if answers == [] then info else Bind(info[fields[0] := Strip(answers[0])], fields[1..], answers[1..])
  }

  /** Binding one more answer stores it, stripped, under the next field. */
  lemma {:induction false} BindSnoc(info: UserInfo, fields: seq<Field>, answers: seq<string>, y: string)
    requires |answers| < |fields|
    ensures Bind(info, fields, answers + [y]) == Bind(info, fields, answers)[fields[|answers|] := Strip(y)]
    decreases |answers|
  {
    if answers != [] {
      assert (answers + [y])[1..] == answers[1..] + [y];
      BindSnoc(info[fields[0] := Strip(answers[0])], fields[1..], answers[1..], y);
    }
  }

  /** After the binding, each of the first fields holds its stripped answer, and the keys are the old ones and those fields. */
  lemma {:induction false} BindBinds(info: UserInfo, fields: seq<Field>, answers: seq<string>)
    requires |answers| <= |fields|
    requires forall i, j :: 0 <= i < j < |fields| ==> fields[i] != fields[j]
    ensures var b := Bind(info, fields, answers);
            && (forall i :: 0 <= i < |answers| ==> fields[i] in b && b[fields[i]] == Strip(answers[i]))
            && (forall f :: f in b <==> f in info || f in fields[..|answers|])
            && (forall f :: f in info && f !in fields[..|answers|] ==> b[f] == info[f])
    decreases |answers|
  {
    if answers != [] {
      var next := info[fields[0] := Strip(answers[0])];
      BindBinds(next, fields[1..], answers[1..]);
      var b := Bind(info, fields, answers);
      assert b == Bind(next, fields[1..], answers[1..]);
      assert fields[..|answers|] == [fields[0]] + fields[1..][..|answers[1..]|];
      forall i | 0 <= i < |answers| ensures fields[i] in b && b[fields[i]] == Strip(answers[i]) {
        if i > 0 {
          assert fields[i] == fields[1..][i - 1];
        } else {
          assert fields[0] !in fields[1..][..|answers[1..]|];
        }
      }
    }
  }

  /**
   * Answers that leave at least one field pending are taken one per line in
   * the order the fields are pending: each is bound, stripped, to its field,
   * each reply is the question for the next field, and no foreign client
   * is called.
   */
  lemma {:induction false} CollectAnswers(s: AgentState, answers: seq<string>, handle: (AgentState, string) -> TurnResult)
    requires AnswersInOrder(handle)
    requires |answers| < |s.missingFields|
    ensures var r := Replay(s, answers, handle);
            && (forall i :: 0 <= i < |answers| ==> r.calls[i] == [])
            && r.state.missingFields == s.missingFields[|answers|..]
            && r.state.userInfo == Bind(s.userInfo, s.missingFields, answers)
            && (forall i :: 0 <= i < |answers| ==> r.entries[i] == HistoryEntry(Some(answers[i]), Question(s.missingFields[i + 1])))
    decreases |answers|
  {
    if answers != [] {
      var t := handle(s, answers[0]);
      assert AnswerTurn(s, answers[0], t);
      CollectAnswers(t.state, answers[1..], handle);
      assert s.missingFields[1..][|answers[1..]|..] == s.missingFields[|answers|..];
      var r := Replay(s, answers, handle);
      var rest := Replay(t.state, answers[1..], handle);
      forall i | 0 <= i < |answers|
        ensures r.entries[i] == HistoryEntry(Some(answers[i]), Question(s.missingFields[i + 1]))
        ensures r.calls[i] == []
      {
        if i > 0 {
          assert r.entries[i] == rest.entries[i - 1];
          assert r.calls[i] == rest.calls[i - 1];
          assert answers[1..][i - 1] == answers[i];
        }
      }
    }
  }

  /**
   * The answer to the last pending field completes the collection: the
   * answers are bound in order, each reply but the last is the next
   * question, no foreign client is called before the last answer, and the
   * last answer calls the search on the query built from the completed
   * answers and then one completion.
   */
  lemma {:induction false} CompleteAnswers(s: AgentState, answers: seq<string>, handle: (AgentState, string) -> TurnResult)
    requires AnswersInOrder(handle)
    requires |answers| == |s.missingFields| > 0
    ensures var r := Replay(s, answers, handle);
            var info := Bind(s.userInfo, s.missingFields, answers);
            && r.state.userInfo == info
            && r.state.missingFields == []
            && (forall i :: 0 <= i < |answers| - 1 ==> r.calls[i] == [])
            && |r.calls[|answers| - 1]| == 2
            && r.calls[|answers| - 1][0] == SearchCall(SearchQuery(info))
            && r.calls[|answers| - 1][1].CompletionCall?
            && (forall i :: 0 <= i < |answers| - 1 ==> r.entries[i] == HistoryEntry(Some(answers[i]), Question(s.missingFields[i + 1])))
    decreases |answers|
  {
    var t := handle(s, answers[0]);
    assert AnswerTurn(s, answers[0], t);
    if |answers| > 1 {
      CompleteAnswers(t.state, answers[1..], handle);
      var r := Replay(s, answers, handle);
      var rest := Replay(t.state, answers[1..], handle);
      assert r.calls[|answers| - 1] == rest.calls[|answers[1..]| - 1];
      forall i | 0 <= i < |answers| - 1
        ensures r.entries[i] == HistoryEntry(Some(answers[i]), Question(s.missingFields[i + 1]))
        ensures r.calls[i] == []
      {
        if i > 0 {
          assert r.entries[i] == rest.entries[i - 1];
          assert r.calls[i] == rest.calls[i - 1];
          assert answers[1..][i - 1] == answers[i];
        }
      }
    }
  }

  /**
   * A whole trip: after START (in any spelling the handler accepts) on a
   * state with nothing pending, five lines are bound, stripped, to the
   * destination, budget, activities, duration and accommodation; each of
   * the first four is answered with the next question; no foreign client is
   * called before the fifth answer, and the fifth answer runs the search
   * once on the query built from the five answers and then the completion
   * once.
   */
  lemma FullTrip(s: AgentState, command: string, answers: seq<string>, handle: (AgentState, string) -> TurnResult)
    requires AnswersInOrder(handle)
    requires s.missingFields == [] && Cleaned(command) == "start"
    requires |answers| == 5
    ensures var r := Replay(s, [command] + answers, handle);
            var info := Bind(map[], OrderedFields, answers);
            && r.entries[0] == HistoryEntry(None, StartConfirmation)
            && (forall i :: 1 <= i < 5 ==> r.entries[i] == HistoryEntry(Some(answers[i - 1]), Question(OrderedFields[i])))
            && r.state.userInfo == info
            && r.state.missingFields == []
            && (forall i :: 0 <= i < 5 ==> r.calls[i] == [])
            && |r.calls[5]| == 2
            && r.calls[5][0] == SearchCall(SearchQuery(info))
            && r.calls[5][1].CompletionCall?
  {
    var t := handle(s, command);
    assert StartTurn(s, t);
    assert ([command] + answers)[1..] == answers;
    CompleteAnswers(t.state, answers, handle);
    var rest := Replay(t.state, answers, handle);
    var r := Replay(s, [command] + answers, handle);
    forall i | 1 <= i < 5
      ensures r.entries[i] == HistoryEntry(Some(answers[i - 1]), Question(OrderedFields[i]))
      ensures r.calls[i] == []
    {
      assert r.entries[i] == rest.entries[i - 1];
      assert r.calls[i] == rest.calls[i - 1];
    }
    assert r.calls[5] == rest.calls[4];
  }

  /** When the fifth answer of a trip arrives, only the accommodation is pending and the first four answers are bound. */
  lemma BeforeLastAnswer(s: AgentState, command: string, answers: seq<string>, handle: (AgentState, string) -> TurnResult)
    requires AnswersInOrder(handle)
    requires s.missingFields == [] && Cleaned(command) == "start"
    requires |answers| == 4
    ensures var a := Replay(s, [command] + answers, handle);
            && a.state.missingFields == [Accommodation]
            && a.state.userInfo == Bind(map[], OrderedFields, answers)
  {
    var t := handle(s, command);
    assert StartTurn(s, t);
    assert ([command] + answers)[1..] == answers;
    CollectAnswers(t.state, answers, handle);
  }

  /**
   * The last turn of a whole trip with a handler that generates on the last
   * answer: the search text is stored, the prompt built from the five
   * answers and that text is sent, and the reply is the ready banner with
   * the itinerary, or the apology carrying the error.
   */
  lemma TripOutcome(s: AgentState, command: string, answers: seq<string>, handle: (AgentState, string) -> TurnResult,
                    search: string -> Outcome<SearchResult>, complete: string -> Outcome<Response>)
    requires AnswersInOrder(handle) && GeneratesOnLastAnswer(handle, search, complete)
    requires s.missingFields == [] && Cleaned(command) == "start"
    requires |answers| == 5
    ensures var r := Replay(s, [command] + answers, handle);
            var info := Bind(map[], OrderedFields, answers);
            var text := SearchText(search(SearchQuery(info)));
            var prompt := Fill(PromptTemplate, info, PromptSearchText(text));
            var outcome := complete(prompt);
            && r.calls[5] == [SearchCall(SearchQuery(info)), CompletionCall(prompt)]
            && r.state.searchResults == text
            && (outcome.Ok? ==>
                  && r.state.itinerary == Some(ResponseText(outcome.value))
                  && r.entries[5] == HistoryEntry(Some(answers[4]), ItineraryReadyMessage + "\n\n" + ResponseText(outcome.value)))
            && (outcome.Err? ==>
                  && r.state.itinerary == None
                  && r.entries[5] == HistoryEntry(Some(answers[4]), GenerationFailedPrefix + outcome.details))
  {
    var xs := [command] + answers[..4];
    assert xs + [answers[4]] == [command] + answers;
    ReplaySnoc(s, xs, answers[4], handle);
    BeforeLastAnswer(s, command, answers[..4], handle);
    var a := Replay(s, xs, handle);
    assert GeneratingTurn(a.state, answers[4], handle(a.state, answers[4]), search, complete);
    assert answers[..4] + [answers[4]] == answers;
    BindSnoc(map[], OrderedFields, answers[..4], answers[4]);
  }

  /** A whole trip through `handle_user_message` over the travel graph, whatever its clients answer. */
  lemma TravelFullTrip(s: AgentState, command: string, answers: seq<string>,
                       search: string -> Outcome<SearchResult>, complete: string -> Outcome<Response>)
    requires s.missingFields == [] && Cleaned(command) == "start"
    requires |answers| == 5
    ensures var r := Replay(s, [command] + answers, HandlerOf(TravelAgentApp(search, complete)));
            var info := Bind(map[], OrderedFields, answers);
            var text := SearchText(search(SearchQuery(info)));
            var prompt := Fill(PromptTemplate, info, PromptSearchText(text));
            var outcome := complete(prompt);
            && r.entries[0] == HistoryEntry(None, StartConfirmation)
            && (forall i :: 1 <= i < 5 ==> r.entries[i] == HistoryEntry(Some(answers[i - 1]), Question(OrderedFields[i])))
            && r.state.userInfo == info
            && r.state.missingFields == []
            && (forall i :: 0 <= i < 5 ==> r.calls[i] == [])
            && r.calls[5] == [SearchCall(SearchQuery(info)), CompletionCall(prompt)]
            && r.state.searchResults == text
            && (outcome.Ok? ==>
                  && r.state.itinerary == Some(ResponseText(outcome.value))
                  && r.entries[5] == HistoryEntry(Some(answers[4]), ItineraryReadyMessage + "\n\n" + ResponseText(outcome.value)))
            && (outcome.Err? ==>
                  && r.state.itinerary == None
                  && r.entries[5] == HistoryEntry(Some(answers[4]), GenerationFailedPrefix + outcome.details))
  {
    var handle := HandlerOf(TravelAgentApp(search, complete));
    TravelHandlerGenerates(search, complete);
    FullTrip(s, command, answers, handle);
    TripOutcome(s, command, answers, handle, search, complete);
  }

  /** The answers of a whole trip: each of the five fields holds the stripped line given for it. */
  lemma TripAnswers(answers: seq<string>)
    requires |answers| == 5
    ensures var info := Bind(map[], OrderedFields, answers);
            && (forall f: Field :: f in info)
            && (forall i :: 0 <= i < 5 ==> info[OrderedFields[i]] == Strip(answers[i]))
  {
    OrderedFieldsComplete();
    BindBinds(map[], OrderedFields, answers);
    assert OrderedFields[..5] == OrderedFields;
  }
}
