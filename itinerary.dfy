/**
 * The `generate_itinerary` node: the prompt built from the answers and the
 * search text, and what the node stores for a completion that succeeded or
 * raised.
 */
module Itinerary {
  import opened Results
  import opened Text
  import opened Catalog
  import opened Agent

  /** `user_info.get(key, 'Not specified')`: an empty answer stays empty, only a missing one is replaced. */
  function AnswerOrNotSpecified(info: UserInfo, f: Field): string {
    if f in info then info[f] else "Not specified"
  }

  /**
   * The search text as the prompt renders it. The state always has the key,
   * so the `"No search results available."` default of `state.get` never
   * applies; Python's `None` renders as "None".
   */
  function PromptSearchText(searchResults: Option<string>): string {
    if searchResults.Some? then searchResults.value else "None"
  }

  const PromptOpening: string :=
    "\n    You are an expert travel planner. Create a detailed and engaging travel itinerary based on the following user preferences:\n"
    + "    NOTE :- Do not go over the user budget.\n    \n    **User Preferences:**\n    - Destination: "

  /** Stands for the numbered instructions to the model; their wording is not modelled. */
  const TaskInstructions: string :=
    "    **Your Task:**\n    1.  **Interpret Preferences:** ...\n    2.  **Use Search Results:** ...\n"
    + "    3.  **Create a Coherent Plan:** ...\n    4.  **Engaging Tone:** ...\n\n"

  /** One piece of the prompt f-string: fixed text, the answer to a field, or the search text. */
  datatype Piece = Fixed(text: string) | AnswerTo(field: Field) | SearchResultsText

  /** The prompt f-string as a template: its fixed text with a hole for each value it interpolates. */
  const PromptTemplate: seq<Piece> := [
    Fixed(PromptOpening), AnswerTo(Destination),
    Fixed("\n    - Duration: "), AnswerTo(Duration),
    Fixed(" days\n    - Budget Description: '"), AnswerTo(Budget),
    Fixed("'\n    - Preferred Activities Description: '"), AnswerTo(Activities),
    Fixed("'\n    - Preferred Accommodation Description: '"), AnswerTo(Accommodation),
    Fixed("'\n\n" + TaskInstructions + "    **Supporting Search Results:**\n    ```\n    "), SearchResultsText,
    Fixed("\n    ```\n\n    **Generate the Itinerary:**\n    ")]

  /** The text a piece stands for, given the answers and the search text. */
  function PieceText(p: Piece, info: UserInfo, searchText: string): string {
    match p
    case Fixed(text) => text
    case AnswerTo(f) => AnswerOrNotSpecified(info, f)
    case SearchResultsText => searchText
  }

  /** The template with every hole filled in, pieces concatenated in order. */
  function Fill(template: seq<Piece>, info: UserInfo, searchText: string): string {
    if template == [] then "" else PieceText(template[0], info, searchText) + Fill(template[1..], info, searchText)
  }

  /** Every piece of a filled template sits in it, right after the pieces before it. */
  lemma {:induction false} FillAt(template: seq<Piece>, k: nat, info: UserInfo, searchText: string)
    requires k < |template|
    ensures Fill(template, info, searchText)
         == Fill(template[..k], info, searchText) + PieceText(template[k], info, searchText) + Fill(template[k + 1..], info, searchText)
  {
    if k > 0 {
      FillAt(template[1..], k - 1, info, searchText);
      assert template[1..][..k - 1] == template[1..k];
      assert template[1..][k - 1 + 1..] == template[k + 1..];
      assert template[..k][1..] == template[1..k];
    }
  }

  /** The text of every piece of a template occurs in the filled template. */
  lemma FillOccurs(template: seq<Piece>, k: nat, info: UserInfo, searchText: string)
    requires k < |template|
    ensures Occurs(PieceText(template[k], info, searchText), Fill(template, info, searchText))
  {
    FillAt(template, k, info, searchText);
    OccursBetween(Fill(template[..k], info, searchText), PieceText(template[k], info, searchText), Fill(template[k + 1..], info, searchText));
  }

  /**
   * The template's holes: the five answers, in the order destination,
   * duration, budget, activities, accommodation, then the search text; every
   * other piece is fixed text.
   */
  lemma TemplateHoles()
    ensures |PromptTemplate| == 13
    ensures forall k :: 0 <= k < 13 && k % 2 == 0 ==> PromptTemplate[k].Fixed?
    ensures PromptTemplate[1] == AnswerTo(Destination) && PromptTemplate[3] == AnswerTo(Duration)
    ensures PromptTemplate[5] == AnswerTo(Budget) && PromptTemplate[7] == AnswerTo(Activities)
    ensures PromptTemplate[9] == AnswerTo(Accommodation) && PromptTemplate[11] == SearchResultsText
  {
  }

  /** The prompt `generate_itinerary` sends for a state. */
  function ItineraryPrompt(s: AgentState): string {
    Fill(PromptTemplate, s.userInfo, PromptSearchText(s.searchResults))
  }

  /** Every one of the five answers (or 'Not specified') and the search text appear in the prompt. */
  lemma PromptEmbedsAnswersAndSearch(s: AgentState, f: Field)
    ensures Occurs(AnswerOrNotSpecified(s.userInfo, f), ItineraryPrompt(s))
    ensures Occurs(PromptSearchText(s.searchResults), ItineraryPrompt(s))
  {
    TemplateHoles();
    var k := match f
      case Destination => 1
      case Duration => 3
      case Budget => 5
      case Activities => 7
      case Accommodation => 9;
    FillOccurs(PromptTemplate, k, s.userInfo, PromptSearchText(s.searchResults));
    FillOccurs(PromptTemplate, 11, s.userInfo, PromptSearchText(s.searchResults));
  }

  /** The completion client's reply: its `content` if it has one, its `str()` otherwise. */
  datatype Response = Response(content: Option<string>, repr: string)

  function ResponseText(r: Response): string {
    if r.content.Some? then r.content.value else r.repr
  }

  const GenerationFailedPrefix: string := "Sorry, I encountered an error while generating the itinerary. Details: "

  /**
   * `generate_itinerary`: one completion request with the prompt. On
   * success the reply's text becomes `itinerary` and one message, the
   * ready banner, a blank line and the text, is appended; on failure
   * `itinerary` is set to None and one apology carrying the details is
   * appended. The answers and the search text are left alone.
   */
  function GenerateItinerary(s: AgentState, complete: string -> Outcome<Response>): (u: StateUpdate)
    ensures u.userInfo.None? && u.missingFields.None? && u.searchResults.None?
    ensures u.messages.Some? && u.itinerary.Some?
    ensures match complete(ItineraryPrompt(s))
            case Ok(reply) =>
              && u.itinerary.value == Some(ResponseText(reply))
              && AppendsOne(u.messages.value, s.messages, AI(ItineraryReadyMessage + "\n\n" + ResponseText(reply)))
            case Err(details) =>
              && u.itinerary.value == None
              && AppendsOne(u.messages.value, s.messages, AI(GenerationFailedPrefix + details))
  {
    match complete(ItineraryPrompt(s))
    case Ok(reply) =>
      var content := ResponseText(reply);
      StateUpdate(Some(s.messages + [AI(ItineraryReadyMessage + "\n\n" + content)]), None, None, None, Some(Some(content)))
    case Err(details) =>
      StateUpdate(Some(s.messages + [AI(GenerationFailedPrefix + details)]), None, None, None, Some(None))
  }

  /**
   * After the node, an itinerary is stored exactly when the completion
   * succeeded; the new last message starts with the ready banner on
   * success and carries the error details on failure.
   */
  lemma ItineraryOutcome(s: AgentState, complete: string -> Outcome<Response>)
    ensures var t := Apply(s, GenerateItinerary(s, complete));
            var outcome := complete(ItineraryPrompt(s));
            && |t.messages| == |s.messages| + 1
            && (t.itinerary.Some? <==> outcome.Ok?)
            && (outcome.Ok? ==> IsPrefix(ItineraryReadyMessage, t.messages[|s.messages|].content))
            && (outcome.Err? ==> Occurs(outcome.details, t.messages[|s.messages|].content))
  {
    var outcome := complete(ItineraryPrompt(s));
    if outcome.Err? {
      assert GenerationFailedPrefix + outcome.details == GenerationFailedPrefix + outcome.details + "";
      OccursBetween(GenerationFailedPrefix, outcome.details, "");
    }
  }
}
