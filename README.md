# Wanderlust travel assistant, modelled in Dafny

Wanderlust is a chat assistant that plans a trip. The user types `START`,
answers five questions (destination, budget, activities, duration,
accommodation), and the assistant then runs one web search and one language
model completion to write an itinerary. This project models its core: the
field catalog, the four graph nodes (`process_user_input`,
`ask_next_question`, `run_search`, `generate_itinerary`), the conditional
edge between them, the turn handler `handle_user_message`, and
`start_over`.

Modules, in dependency order:

- `Results`: `Option` and `Outcome`, the latter being the value or the exception text of a foreign call.
- `Text`: the Python string built-ins in use (`strip`, `lower`, `join`, `startswith`, `in`) and their laws.
- `Catalog`: `ORDERED_FIELDS`, `QUESTIONS_MAP`, the fixed messages, and the pending-suffix shape of `missing_fields`.
- `Agent`: `AgentState`, the partial update a node returns, and how the graph merges it.
- `Nodes`: answer binding, routing and the next question.
- `Search`: the search query and the normalisation of the search client's result.
- `Itinerary`: the prompt, built as a template with one hole per value it interpolates, and the outcome of the completion.
- `Graph`: the wired graph as function composition. It records the calls made to the two foreign clients. `AnswersPendingField` is the contract of a graph run on a pending answer, and the travel graph is proved to meet it.
- `Driver`: the handler as a pure function `Turn` and as a method on the in-place state dictionary and chat history, which is proved equal to `Turn`. Also the reachability of its branches, the session invariant, and `start_over`.
- `Session`: a sequence of handler calls, and a whole trip from START through five answers. The lemmas are stated for any handler that keeps two contracts: `AnswersInOrder` (START begins a trip, answers are taken in order) and `GeneratesOnLastAnswer` (the itinerary is generated on the last answer). `HandlerAnswersInOrder` and `TravelHandlerGenerates` prove that `handle_user_message` over the travel graph keeps both.

The two foreign clients (web search, completion) are parameters. They are
functions from the request text to `Ok(result)` or `Err(str(e))`. The
handler and the session lemmas take the compiled graph as a parameter
`app`. They are stated for any graph that can be invoked on a state
holding a message (`Invocable`) and, where they need the answer
behaviour, for any graph meeting `AnswersPendingField`.
`Graph.TravelAgentAppAnswers` proves that `travel_agent_app` meets that
contract for every pair of clients. `Driver.TravelTurnKeepsInvariant` and
`Session.TravelFullTrip` state the results for the travel graph itself.

A search result is modelled with Python's own kinds of value: a string,
`None`, or some other object. A dictionary entry is stored as it is, so
`search_results` can end up `None`. An item that is not a string makes the
join raise inside the `try`, and the failure sentence is stored instead.

## Model

| member | source | states |
|---|---|---|
| Catalog.Index | wanderlust.py:21-27 | every field has a position in `ORDERED_FIELDS`, and that position holds it |
| Catalog.OrderedFieldsComplete | wanderlust.py:21-27 | `ORDERED_FIELDS` has five entries, contains every field and repeats none |
| Catalog.Answered | wanderlust.py:79-84 | the fields in front of a pending suffix are exactly the fields not pending |
| Catalog.AnswerHead | wanderlust.py:80-84 | dropping the head keeps `missing_fields` a suffix of `ORDERED_FIELDS`, and exactly that field joins the answered set |
| Text.TrimStartCut | wanderlust.py:70 | `lstrip` keeps a suffix that does not start with whitespace and drops only whitespace |
| Text.TrimEndCut | wanderlust.py:70 | `rstrip` keeps a prefix that does not end with whitespace and drops only whitespace |
| Text.Strip | wanderlust.py:70 | the stripped text is no longer than the input |
| Text.StripTrimmed | wanderlust.py:70 | the stripped answer has no whitespace at either end |
| Text.StripCutsOnlySpace | wanderlust.py:70 | the stripped answer is a slice of the reply with only whitespace around it |
| Text.StripPadded | wanderlust.py:251 | stripping whitespace-padded text without edge whitespace gives that text back |
| Text.StripIdempotent | wanderlust.py:70 | stripping twice is stripping once (a law of `strip` kept for the reader; the program strips each line only once) |
| Text.Lower | wanderlust.py:251 | lower-casing keeps the length |
| Text.LowerAt | wanderlust.py:251 | each character of the lower-cased text is the lower-case form of the character at the same place |
| Text.JoinSnoc | wanderlust.py:131 | joining one more part adds one separator and that part at the end |
| Text.JoinOccurs | wanderlust.py:131 | every part occurs in the joined text |
| Text.JoinHead | wanderlust.py:131 | the joined text starts with the first part |
| Nodes.ProcessUserInput | wanderlust.py:63-89 | with a human last message and a field pending: the stripped reply is bound to the first pending field, that field leaves the list, the other answers are unchanged and no other key is set; otherwise the update is empty |
| Nodes.ShouldAskQuestionOrSearch | wanderlust.py:213-221 | it goes to the search if and only if no field is pending, and otherwise to the next question |
| Nodes.AskNextQuestion | wanderlust.py:91-104 | exactly one message is appended: the question for the first pending field, or the fixed complaint when none is pending; nothing else is set |
| Nodes.ProcessAnswersHead | wanderlust.py:80-89 | binding an answer keeps `missing_fields` a suffix of `ORDERED_FIELDS` and the answered keys exactly the fields in front of it |
| Search.ClauseMentions | wanderlust.py:113-129 | each clause contains its field's value |
| Search.SentenceIfPresent | wanderlust.py:114-129 | an optional clause is included if and only if its answer is present and non-empty |
| Search.BuildSearchQuery | wanderlust.py:112-131 | the query assembled by successive appends is the declarative query: the destination clause, then the present optional clauses in the order duration, budget, activities, accommodation, joined by single spaces |
| Search.QueryStartsWithDestination | wanderlust.py:113 | the query starts with "Travel itinerary ideas for " followed by the destination, or 'anywhere' when it is missing |
| Search.QueryWithoutOptionalAnswers | wanderlust.py:113-131 | with no optional answer present, the query is the destination sentence alone |
| Search.QueryMentionsPresentAnswers | wanderlust.py:114-131 | every present optional answer occurs in the query |
| Search.FirstNonText | wanderlust.py:138 | the position it gives is that of the first item whose `page_content` (or `str()`) is not a string, or the number of items when all are strings |
| Search.Normalize | wanderlust.py:136-144 | normalising raises exactly for a list holding an item that is not a string, and only a dictionary entry can leave `None` |
| Search.AnswerBeforeResult | wanderlust.py:139-144 | a dictionary result gives its `answer` if it has one, else its `result`, each stored as it is, and else its `str()` |
| Search.NormalizeShortLists | wanderlust.py:138 | an empty list gives the empty text, and a single string item gives that string |
| Search.EveryDocAppears | wanderlust.py:137-138 | when every item is a string, every item's string occurs in the normalised text |
| Search.DocsSeparatedByBlankLines | wanderlust.py:138 | consecutive items are separated by one blank line |
| Search.SearchText | wanderlust.py:134-152 | the stored search text is `None` exactly when the search returned a dictionary whose chosen entry is `None` |
| Search.SearchFailureReported | wanderlust.py:148-152 | a failed search yields the failure sentence followed by the error details |
| Search.NonTextItemReported | wanderlust.py:137-138 | an item that is not a string makes the join raise at the first such item; the failure sentence with the `TypeError` text naming its position and type is stored |
| Search.RunSearch | wanderlust.py:107-152 | the node sets `search_results` and nothing else, to `None` only when the search returned a dictionary whose chosen entry is `None` |
| Itinerary.FillAt | wanderlust.py:162-188 | every piece of the filled prompt template sits right after the pieces before it |
| Itinerary.FillOccurs | wanderlust.py:162-188 | the text of every piece of the template occurs in the filled prompt |
| Itinerary.TemplateHoles | wanderlust.py:167-184 | the template's holes are the five answers, in the order the prompt lists them, then the search text; every other piece is fixed text |
| Itinerary.PromptEmbedsAnswersAndSearch | wanderlust.py:167-184 | the prompt contains each of the five answers, or 'Not specified' for a missing one, and the search text |
| Itinerary.GenerateItinerary | wanderlust.py:191-209 | on success the itinerary is the reply's text and one message, the ready banner plus a blank line plus the text, is appended; on failure the itinerary is None and one apology with the details is appended; nothing else is set |
| Itinerary.ItineraryOutcome | wanderlust.py:191-209 | exactly one message is appended; an itinerary is stored if and only if the completion succeeded; the new message starts with the ready banner on success and contains the error details on failure |
| Graph.InvokeGraph | wanderlust.py:225-242 | one assistant message is appended to the conversation; the answers and pending fields are those after answer binding; the clients are called (search, then completion) if and only if no field is left pending |
| Graph.AnswerStep | wanderlust.py:225-242 | on an answer with fields pending, the stripped reply is bound to the head field; if fields remain, only their question is appended and nothing else changes; otherwise the search runs on the completed answers, its text is stored, and the completion runs on the prompt built from it |
| Graph.TravelAgentAppAnswers | wanderlust.py:245 | the compiled graph meets the answer contract `AnswersPendingField` for any pair of clients |
| Driver.Classify | wanderlust.py:264-333 | the START arm is taken if and only if nothing is pending and the line is START; the refusal if and only if nothing is pending and it is not; the graph arm if and only if a field is pending |
| Driver.DeadBranchesUnreachable | wanderlust.py:283-333 | the itinerary-already-generated arm and the fallback arm are never taken |
| Driver.Turn | wanderlust.py:250-337 | the history row has no user line exactly when START begins a trip, and with nothing pending no foreign client is called |
| Driver.StartCommandAcceptsPadding | wanderlust.py:251-264 | START in any ASCII case with any surrounding whitespace is recognised |
| Driver.StartCommandShape | wanderlust.py:251-264 | only a five-letter word spelling start, in lower or upper case letter by letter, once stripped, is recognised |
| Driver.IdleTurn | wanderlust.py:263-279 | with no field pending, the graph never runs; START resets the pending fields to the full order, the answers to empty and the conversation to the confirmation; anything else appends the user's line and the invalid-start reply; the search text and itinerary are kept in both cases |
| Driver.FirstMessage | wanderlust.py:253-279 | the first message of a session is confirmed if and only if it is START; anything else leaves the welcome, the line and the invalid-start reply |
| Driver.PendingRunsGraph | wanderlust.py:283-320 | with a field pending, any line, START included, runs the graph once on the state with the line appended, and the reply is the graph's last message |
| Driver.PendingTurn | wanderlust.py:294-320 | with a field pending, the stripped line is bound to the first pending field, which leaves the list; the line and one reply are appended |
| Driver.NextQuestionTurn | wanderlust.py:294-320 | an answer that leaves a field pending is answered with that field's question, and no client is called |
| Driver.LastAnswerTurn | wanderlust.py:294-320 | the answer to the last pending field makes exactly two foreign calls: the search on the completed answers, then a completion |
| Driver.FinalAnswerTurn | wanderlust.py:294-320 | through the travel graph, that last answer stores the search text and adds the row with the user's line and the ready banner with the itinerary, or the apology with the error |
| Driver.TurnKeepsInvariant | wanderlust.py:264-320 | every handler call keeps `missing_fields` a suffix of `ORDERED_FIELDS` with the answers exactly the fields in front of it, and the first call establishes this |
| Driver.TravelTurnKeepsInvariant | wanderlust.py:264-320 | the same for the travel graph |
| Driver.StartOver | wanderlust.py:340-351 | the history holds only the restart line; the messages are only the restart message; nothing is pending; the answers are empty; there is no search text or itinerary |
| Driver.StateDict.constructor | wanderlust.py:254-261 | the new state dictionary holds the given state |
| Driver.StateDict.UpdateFrom | wanderlust.py:314 | after the update the dictionary holds the graph's final state |
| Driver.ChatHistory.constructor | wanderlust.py:250 | the history starts with the rows the UI passes in |
| Driver.ChatHistory.Append | wanderlust.py:270 | appending adds one row at the end |
| Driver.HandleUserMessage | wanderlust.py:250-337 | the state dictionary is updated in place, or created on the first message, and one row is appended to the history; the results are exactly those `Turn` describes |
| Session.Replay | wanderlust.py:373-382 | each typed line adds exactly one history row and one list of foreign calls |
| Session.ReplaySplit | wanderlust.py:373-382 | two batches of lines run one after the other give the same state, rows and calls as all the lines at once |
| Session.ReplaySnoc | wanderlust.py:373-382 | the last line is handled on the state the others left, and its row and calls come last |
| Session.HandlerAnswersInOrder | wanderlust.py:264-320 | over any graph meeting `AnswersPendingField`, the handler begins a trip on START and takes the answers in order |
| Session.TravelHandlerGenerates | wanderlust.py:294-320 | over the travel graph, the handler also generates the itinerary on the last answer, with the search text and prompt built from the answers |
| Session.BindSnoc | wanderlust.py:80-84 | binding one more answer stores it, stripped, under the next field |
| Session.BindBinds | wanderlust.py:80-84 | after binding, each field holds its stripped answer, the keys are the old ones plus the bound fields, and other keys are unchanged |
| Session.CollectAnswers | wanderlust.py:294-320 | answers that leave a field pending are bound in order; each is answered with the next question; no turn calls a client |
| Session.CompleteAnswers | wanderlust.py:294-320 | answering every pending field binds them in order; no turn before the last calls a client; the last turn calls the search on the completed answers, then one completion |
| Session.FullTrip | wanderlust.py:264-320 | after START, five answers are bound stripped in `ORDERED_FIELDS` order; each of the first four gets the next question; nothing is left pending; no client is called before the fifth answer, and the fifth turn runs the search once and then the completion once |
| Session.BeforeLastAnswer | wanderlust.py:264-320 | when the fifth answer arrives only the accommodation is pending and the first four answers are bound |
| Session.TripOutcome | wanderlust.py:155-209 | the fifth turn stores the search text, sends the prompt built from the five answers and that text, and replies with the ready banner and the itinerary, or the apology with the error |
| Session.TravelFullTrip | wanderlust.py:264-320 | all of the above for `handle_user_message` over the travel graph, whatever its clients answer |
| Session.TripAnswers | wanderlust.py:21-27 | after the five answers, every field holds the stripped line given for it |

## Left out

- The Gradio interface (wanderlust.py:354-392) is not modelled. Only the history list survives, as rows of (user line or None, reply), and `Session.Replay` calls the handler once per typed line.
- Loading the API keys and the start-up `ValueError` (wanderlust.py:11-18) are process configuration.
- The search and completion clients (wanderlust.py:46-50) are function parameters returning a value or the exception text. The search client's `max_results` is not modelled.
- LangGraph's graph builder and compiler (wanderlust.py:225-245) are replaced by function composition in `Graph.InvokeGraph`. The merge of a node's result, where every returned key overwrites, is `Agent.Apply`.
- `print` logging is left out throughout.
- The wording of the numbered instructions in the prompt (wanderlust.py:173-180) is a placeholder. The fixed text around the five answers and the search text follows the source.
- The in-place write to the shared `user_info` dictionary (wanderlust.py:81) and the in-place append to the messages list (wanderlust.py:296) are modelled on values. In both cases the mutated object is the one then stored, so the aliasing is not observable.
- Text.Lower: lower-cases only the ASCII capitals; other characters are left as they are. A non-ASCII character never lower-cases to one of the letters of "start", so the START test is unaffected.
- Field keys are an enumeration, so the `KeyError` a misspelt key could raise on `QUESTIONS_MAP` cannot arise.
- Driver.HandleUserMessage: stated for any graph that can be invoked on every state holding a message. Its equality with `Turn` is what it promises; the travel graph's own behaviour is stated by the `Driver` and `Session` lemmas that name `TravelAgentApp`.
- Session.CompleteAnswers: says only that the last turn's second call is a completion. The prompt it carries is stated by Session.TripOutcome and Driver.FinalAnswerTurn.
- Nodes.ProcessUserInput: requires at least one message, as does Graph.InvokeGraph. The source would raise `IndexError` on an empty list (wanderlust.py:65), but the handler always appends the user's line before invoking the graph (wanderlust.py:296), so the graph never sees one.
- Search.Normalize: a dictionary entry that is neither a string nor `None` is kept by its `str()`, the only way the prompt uses it. The object itself is not modelled.

## Behaviour of the code where its description differs

- START resets `missing_fields` to the full order, `user_info` to `{}` and `messages` to the confirmation, but keeps `search_results` and `itinerary` from an earlier trip (wanderlust.py:266-268). `Driver.IdleTurn` proves this.
- The stored answer is the stripped reply, not the reply as typed (wanderlust.py:70).
- Once an itinerary has been generated, no field is pending. A line other than START then gets the invalid-start reply (wanderlust.py:273), so the itinerary-already-generated arm (wanderlust.py:286-291) and the fallback arm (wanderlust.py:324-333) are never reached. Both are modelled as written in `Driver.Turn` and proved unreachable by `Driver.DeadBranchesUnreachable`.
- The state always carries `search_results`, so the "No search results available." default (wanderlust.py:158) never applies. A `None` stored from a dictionary's `answer` or `result` entry is rendered as "None" in the prompt.
