/**
 * The `run_search` node: the search query assembled from the answers, and
 * the normalisation of whatever the search client returns into one text.
 */
module Search {
  import opened Results
  import opened Text
  import opened Catalog
  import opened Agent

  /** `user_info.get(key)` is truthy: the key is there and its value is not the empty string. */
  predicate Present(info: UserInfo, f: Field) {
    f in info && info[f] != ""
  }

  /** `user_info.get('destination', 'anywhere')`: an empty answer stays empty, only a missing one becomes 'anywhere'. */
  function DestinationOrAnywhere(info: UserInfo): string {
    if Destination in info then info[Destination] else "anywhere"
  }

  /** The text in front of a field's value in its sentence of the query. */
  function ClauseLead(f: Field): string {
    match f
    case Destination => "Travel itinerary ideas for "
    case Duration => "for about "
    case Budget => "User's budget is described as: '"
    case Activities => "User is looking for activities like: '"
    case Accommodation => "User's accommodation preference is: '"
  }

  /** The text after a field's value in its sentence of the query. */
  function ClauseTail(f: Field): string {
    match f
    case Destination => ""
    case Duration => " days."
    case _ => "'."
  }

  /** The sentence the query uses for a field's value. */
  function Clause(f: Field, v: string): string {
    ClauseLead(f) + v + ClauseTail(f)
  }

  /** The value is a piece of its clause. */
  lemma ClauseMentions(f: Field, v: string)
    ensures Occurs(v, Clause(f, v))
  {
    OccursBetween(ClauseLead(f), v, ClauseTail(f));
  }

  /** The optional clauses, in the order `run_search` tries them. */
  const ClauseOrder: seq<Field> := [Duration, Budget, Activities, Accommodation]

  /** The sentence for an optional field: one when its answer is present, none otherwise. */
  function SentenceIfPresent(info: UserInfo, f: Field): (r: seq<string>)
    ensures |r| == 1 <==> Present(info, f)
    ensures r == [] <==> !Present(info, f)
  {
    if Present(info, f) then [Clause(f, info[f])] else []
  }

  /**
   * The parts of the query: the destination sentence, then the duration,
   * budget, activities and accommodation sentences, each only when its
   * answer is present.
   */
  function QueryParts(info: UserInfo): seq<string> {
    [Clause(Destination, DestinationOrAnywhere(info))]
      + SentenceIfPresent(info, Duration)
      + SentenceIfPresent(info, Budget)
      + SentenceIfPresent(info, Activities)
      + SentenceIfPresent(info, Accommodation)
  }

  /** The query `run_search` sends: its parts joined with single spaces. */
  function SearchQuery(info: UserInfo): string {
    Join(QueryParts(info), " ")
  }

  /**
   * The query as `run_search` assembles it: start from the destination
   * sentence and append each optional sentence whose answer is present.
   */
  method BuildSearchQuery(info: UserInfo) returns (query: string)
    ensures query == SearchQuery(info)
  {
    var parts := [Clause(Destination, DestinationOrAnywhere(info))];
    ghost var lead := parts;
    if Present(info, Duration) {
      parts := parts + [Clause(Duration, info[Duration])];
    }
    assert parts == lead + SentenceIfPresent(info, Duration);
    if Present(info, Budget) {
      parts := parts + [Clause(Budget, info[Budget])];
    }
    assert parts == lead + SentenceIfPresent(info, Duration) + SentenceIfPresent(info, Budget);
    if Present(info, Activities) {
      parts := parts + [Clause(Activities, info[Activities])];
    }
    assert parts == lead + SentenceIfPresent(info, Duration) + SentenceIfPresent(info, Budget)
                         + SentenceIfPresent(info, Activities);
    if Present(info, Accommodation) {
      parts := parts + [Clause(Accommodation, info[Accommodation])];
    }
    assert parts == QueryParts(info);
    query := Join(parts, " ");
  }

  /** The query opens with "Travel itinerary ideas for " and the destination, or 'anywhere' when there is none. */
  lemma QueryStartsWithDestination(info: UserInfo)
    ensures var lead := ClauseLead(Destination) + DestinationOrAnywhere(info);
            IsPrefix(lead, SearchQuery(info))
  {
    JoinHead(QueryParts(info), " ");
  }

  /** Without any optional answer the query is the destination sentence alone. */
  lemma QueryWithoutOptionalAnswers(info: UserInfo)
    requires forall f :: f in ClauseOrder ==> !Present(info, f)
    ensures SearchQuery(info) == ClauseLead(Destination) + DestinationOrAnywhere(info)
  {
    assert QueryParts(info) == [Clause(Destination, DestinationOrAnywhere(info))];
  }

  /** Each present optional answer appears in the query. */
  lemma QueryMentionsPresentAnswers(info: UserInfo, f: Field)
    requires f in ClauseOrder && Present(info, f)
    ensures Occurs(info[f], SearchQuery(info))
  {
    var parts := QueryParts(info);
    var before := [Clause(Destination, DestinationOrAnywhere(info))]
      + (if f == Duration then [] else SentenceIfPresent(info, Duration))
      + (if f in {Duration, Budget} then [] else SentenceIfPresent(info, Budget))
      + (if f in {Duration, Budget, Activities} then [] else SentenceIfPresent(info, Activities));
    assert parts[|before|] == Clause(f, info[f]);
    ClauseMentions(f, info[f]);
    JoinOccurs(parts, |before|, " ");
    OccursTransitive(info[f], Clause(f, info[f]), SearchQuery(info));
  }

  /** A Python value the search client can hand back: a string, `None`, or another object, known by its type's name and its `str()`. */
  datatype PyValue = Str(text: string) | NoneValue | Object(typeName: string, repr: string)

  /** `type(v).__name__`. */
  function TypeName(v: PyValue): string {
    match v
    case Str(_) => "str"
    case NoneValue => "NoneType"
    case Object(name, _) => name
  }

  /** One result item: its `page_content` attribute when it has one, and its `str()`. */
  datatype Doc = Doc(pageContent: Option<PyValue>, repr: string)

  /**
   * The shapes the search client's result is told apart by: a list of
   * items, a dictionary (its entries and its `str()`), or any other value
   * (its `str()`).
   */
  datatype SearchResult =
    | DocList(docs: seq<Doc>)
    | Dict(entries: map<string, PyValue>, repr: string)
    | Other(repr: string)

  /** `getattr(doc, 'page_content', str(doc))`. */
  function DocValue(d: Doc): PyValue {
    if d.pageContent.Some? then d.pageContent.value else Str(d.repr)
  }

  /** Every item yields a string, so joining them cannot raise. */
  predicate AllText(docs: seq<Doc>) {
    forall k :: 0 <= k < |docs| ==> DocValue(docs[k]).Str?
  }

  /** The position of the first item that does not yield a string, or the number of items when all do. */
  function FirstNonText(docs: seq<Doc>): (i: nat)
    ensures i <= |docs|
    ensures forall k :: 0 <= k < i ==> DocValue(docs[k]).Str?
    ensures i < |docs| ==> !DocValue(docs[i]).Str?
  {
    if docs == [] || !DocValue(docs[0]).Str? then 0 else 1 + FirstNonText(docs[1..])
  }

  /** The items' strings, in order. */
  function DocTexts(docs: seq<Doc>): seq<string>
    requires AllText(docs)
  {
    seq(|docs|, k requires 0 <= k < |docs| => DocValue(docs[k]).text)
  }

  /** `str(n)` for a natural number. */
  function Decimal(n: nat): string {
    if n < 10 then ["0123456789"[n]] else Decimal(n / 10) + ["0123456789"[n % 10]]
  }

  /** The text of the `TypeError` that `str.join` raises at item `k`, which is not a string. */
  function JoinErrorText(k: nat, v: PyValue): string {
    "sequence item " + Decimal(k) + ": expected str instance, " + TypeName(v) + " found"
  }

  /**
   * What `search_results` holds for a dictionary entry stored as it is, as
   * the prompt renders it: a string itself, `None` as None, any other object
   * by its `str()`.
   */
  function StoredValue(v: PyValue): Option<string> {
    match v
    case Str(t) => Some(t)
    case NoneValue => None
    case Object(_, repr) => Some(repr)
  }

  /**
   * The result normalised into what `search_results` is set to (`Ok`), or
   * the text of the exception the normalisation raises (`Err`): the items
   * joined by blank lines, `answer` before `result`, `str()` otherwise. Only
   * a list holding an item that is not a string raises, and only a
   * dictionary entry can leave `None`.
   */
  function Normalize(r: SearchResult): (n: Outcome<Option<string>>)
    ensures n.Err? <==> r.DocList? && !AllText(r.docs)
    ensures n.Ok? && n.value.None? ==> r.Dict?
  {
    match r
    case DocList(docs) =>
      var i := FirstNonText(docs);
      if i < |docs| then Err(JoinErrorText(i, DocValue(docs[i])))
      else Ok(Some(Join(DocTexts(docs), "\n\n")))
    case Dict(entries, repr) =>
      if "answer" in entries then Ok(StoredValue(entries["answer"]))
      else if "result" in entries then Ok(StoredValue(entries["result"]))
      else Ok(Some(repr))
    case Other(repr) => Ok(Some(repr))
  }

  /** A dictionary with an `answer` yields it, whatever else it holds; one with only a `result` yields that; any other yields its `str()`. */
  lemma AnswerBeforeResult(entries: map<string, PyValue>, repr: string)
    ensures "answer" in entries ==> Normalize(Dict(entries, repr)) == Ok(StoredValue(entries["answer"]))
    ensures "answer" !in entries && "result" in entries ==> Normalize(Dict(entries, repr)) == Ok(StoredValue(entries["result"]))
    ensures "answer" !in entries && "result" !in entries ==> Normalize(Dict(entries, repr)) == Ok(Some(repr))
  {
  }

  /** No items give the empty text, and a single item gives its own string. */
  lemma NormalizeShortLists(d: Doc)
    ensures Normalize(DocList([])) == Ok(Some(""))
    ensures DocValue(d).Str? ==> Normalize(DocList([d])) == Ok(Some(DocValue(d).text))
  {
  }

  /** When every item yields a string, the string of every item appears in the normalised text. */
  lemma EveryDocAppears(docs: seq<Doc>, k: nat)
    requires AllText(docs) && k < |docs|
    ensures var n := Normalize(DocList(docs));
            n.Ok? && n.value.Some? && Occurs(DocValue(docs[k]).text, n.value.value)
  {
    JoinOccurs(DocTexts(docs), k, "\n\n");
  }

  /** One more item adds one blank line and that item's string at the end. */
  lemma DocsSeparatedByBlankLines(docs: seq<Doc>, d: Doc)
    requires docs != [] && AllText(docs) && DocValue(d).Str?
    ensures AllText(docs + [d])
    ensures Normalize(DocList(docs + [d])) == Ok(Some(Join(DocTexts(docs), "\n\n") + "\n\n" + DocValue(d).text))
  {
    assert AllText(docs + [d]) by {
      forall k | 0 <= k < |docs + [d]| ensures DocValue((docs + [d])[k]).Str? {
        if k < |docs| { assert (docs + [d])[k] == docs[k]; }
      }
    }
    assert DocTexts(docs + [d]) == DocTexts(docs) + [DocValue(d).text];
    JoinSnoc(DocTexts(docs), DocValue(d).text, "\n\n");
  }

  const SearchFailedPrefix: string := "Search failed or timed out. Details: "

  /** The dictionary entry the normalisation picks holds `None`. */
  predicate ChoosesNone(entries: map<string, PyValue>) {
    if "answer" in entries then entries["answer"] == NoneValue
    else "result" in entries && entries["result"] == NoneValue
  }

  /**
   * What `run_search` stores: the normalised result, or the failure sentence
   * with the text of the exception raised by the client or by the
   * normalisation. It is `None` only for a dictionary whose chosen entry is
   * `None`.
   */
  function SearchText(outcome: Outcome<SearchResult>): (t: Option<string>)
    ensures t.None? <==> outcome.Ok? && outcome.value.Dict? && ChoosesNone(outcome.value.entries)
  {
    match outcome
    case Ok(r) =>
      (match Normalize(r)
       case Ok(text) => text
       case Err(details) => Some(SearchFailedPrefix + details))
    case Err(details) => Some(SearchFailedPrefix + details)
  }

  /** A failed search does not stop the turn: the text stored starts with the failure sentence and carries the details. */
  lemma SearchFailureReported(details: string)
    ensures var text := SearchText(Err(details));
            text.Some? && IsPrefix(SearchFailedPrefix, text.value) && Occurs(details, text.value)
  {
    assert SearchFailedPrefix + details == SearchFailedPrefix + details + "";
    OccursBetween(SearchFailedPrefix, details, "");
  }

  /**
   * An item that is not a string makes the join raise inside the `try`, at
   * the first such item: the failure sentence is stored with the
   * `TypeError` text naming that item's position and type.
   */
  lemma NonTextItemReported(docs: seq<Doc>, k: nat)
    requires k < |docs| && !DocValue(docs[k]).Str?
    requires forall j :: 0 <= j < k ==> DocValue(docs[j]).Str?
    ensures Normalize(DocList(docs)) == Err(JoinErrorText(k, DocValue(docs[k])))
    ensures SearchText(Ok(DocList(docs))) == Some(SearchFailedPrefix + JoinErrorText(k, DocValue(docs[k])))
  {
    var i := FirstNonText(docs);
    assert i == k;
  }

  /**
   * `run_search`: one search with the query built from the answers; the
   * node sets `search_results` and nothing else, to a text unless the
   * search returned a dictionary whose chosen entry is `None`.
   */
  function RunSearch(s: AgentState, search: string -> Outcome<SearchResult>): (u: StateUpdate)
    ensures u.messages.None? && u.userInfo.None? && u.missingFields.None? && u.itinerary.None?
    ensures u.searchResults.Some?
    ensures var outcome := search(SearchQuery(s.userInfo));
            u.searchResults.value.None? <==> outcome.Ok? && outcome.value.Dict? && ChoosesNone(outcome.value.entries)
  {
    var query := SearchQuery(s.userInfo);
    StateUpdate(None, None, None, Some(SearchText(search(query))), None)
  }
}
