/**
 * `AgentState`, the record the graph nodes read, and the partial updates
 * they return. A node returns a dictionary holding only the keys it sets;
 * the graph overwrites exactly those keys and keeps the rest.
 */
module Agent {
  import opened Results
  import opened Catalog

  /** The two kinds of message in the conversation: `HumanMessage` and `AIMessage`. */
  datatype Message = Human(content: string) | AI(content: string)

  type UserInfo = map<Field, string>

  datatype AgentState = AgentState(
    messages: seq<Message>,
    userInfo: UserInfo,
    missingFields: seq<Field>,
    searchResults: Option<string>,
    itinerary: Option<string>)

  /**
   * The dictionary a node returns: `Some(v)` for a key it sets to `v`,
   * `None` for a key it leaves out. `searchResults` and `itinerary` can be
   * set to Python's `None`, hence the nested option.
   */
  datatype StateUpdate = StateUpdate(
    messages: Option<seq<Message>>,
    userInfo: Option<UserInfo>,
    missingFields: Option<seq<Field>>,
    searchResults: Option<Option<string>>,
    itinerary: Option<Option<string>>)

  /** The empty dictionary `{}`. */
  const NoUpdate: StateUpdate := StateUpdate(None, None, None, None, None)

  /** How the graph merges a node's result into the state: every key present overwrites, the rest stays. */
  function Apply(s: AgentState, u: StateUpdate): AgentState {
    AgentState(
      if u.messages.Some? then u.messages.value else s.messages,
      if u.userInfo.Some? then u.userInfo.value else s.userInfo,
      if u.missingFields.Some? then u.missingFields.value else s.missingFields,
      if u.searchResults.Some? then u.searchResults.value else s.searchResults,
      if u.itinerary.Some? then u.itinerary.value else s.itinerary)
  }

  /** `messages` is `before` with exactly one message, `m`, appended. */
  predicate AppendsOne(messages: seq<Message>, before: seq<Message>, m: Message) {
    |messages| == |before| + 1 && messages[..|before|] == before && messages[|before|] == m
  }
}
