/**
 * openwebui_mcp.py: the two tools the MCP server exposes, `list_collections`
 * and `rag_query`, and the configuration they read from the environment.
 * Each tool's requests go to the server URL; the server's replies are inputs.
 */
module CollectionTools {
  import opened Values
  import opened Strings
  import opened Http
  import opened Search

  const DefaultModel: string := "gemma3:27b"

  /** OPENWEBUI_URL (None when unset, read as "") with every trailing slash removed. */
  function ServerUrl(env: Option<string>): (r: string)
    ensures r <= EnvGet(env, "")
    ensures r == [] || r[|r| - 1] != '/'
    ensures forall i :: |r| <= i < |EnvGet(env, "")| ==> EnvGet(env, "")[i] == '/'
  {
    TrimTrailing(EnvGet(env, ""), '/')
  }

  /** The model `rag_query` uses when the caller names none: OPENWEBUI_DEFAULT_MODEL, else gemma3:27b. */
  function ModelFor(requested: Option<string>, env: Option<string>): (r: string)
    ensures requested.Some? ==> r == requested.value
    ensures requested.None? && env.Some? ==> r == env.value
    ensures requested.None? && env.None? ==> r == DefaultModel
  {
    if requested.Some? then requested.value else EnvGet(env, DefaultModel)
  }

  /** `_session()`'s headers: a bearer Authorization header only when the key is non-empty. */
  function SessionHeaders(key: string): (r: seq<(string, string)>)
    ensures (exists i :: 0 <= i < |r| && r[i].0 == "Authorization") <==> key != ""
    ensures forall i :: 0 <= i < |r| ==> r[i] == ("Authorization", "Bearer " + key)
  {
    if key != "" then
      var headers := [("Authorization", "Bearer " + key)];
      assert headers[0].0 == "Authorization";
      headers
    else []
  }

  /** `data.get("items", data) if isinstance(data, dict) else data`: unwrap an `items` envelope. */
  function Items(data: Json): (r: Json)
    ensures data.Obj? && Lookup(data.fields, "items").Some? ==> r == Lookup(data.fields, "items").value
    ensures !(data.Obj? && Lookup(data.fields, "items").Some?) ==> r == data
  {
    if data.Obj? then DictGet(data, "items", data).value else data
  }

  /** The collections a knowledge listing reply yields when iterated, envelope or bare list. */
  function Collections(listing: Reply): (r: Result<seq<Json>>)
    ensures CheckedJson(listing).Ok? && Items(CheckedJson(listing).value).Arr? ==>
              r == Ok(Items(CheckedJson(listing).value).items)
    ensures CheckedJson(listing).Err? ==> r == Err(CheckedJson(listing).error)
  {
    match CheckedJson(listing)
    case Err(e) => Err(e)
    case Ok(data) => Iterate(Items(data))
  }

  /** How openwebui_mcp.py reads a collection's name: `kb["name"]`, which raises when absent. */
  function NameOf(kb: Json): Result<Json>
  {
    Subscript(kb, "name")
  }

  /** One entry of `list_collections`' result. */
  datatype Summary = Summary(id: Json, name: Json)

  /** Whether a collection has both fields the projection reads. */
  predicate HasIdAndName(kb: Json)
  {
    Subscript(kb, "id").Ok? && Subscript(kb, "name").Ok?
  }

  /** `[{"id": kb["id"], "name": kb["name"]} for kb in items]`: one summary per item, in order, or the first exception. */
  function Project(items: seq<Json>): (r: Result<seq<Summary>>)
    ensures r.Ok? <==> forall i :: 0 <= i < |items| ==> HasIdAndName(items[i])
    ensures r.Ok? ==> |r.value| == |items|
    ensures r.Ok? ==> forall i :: 0 <= i < |items| ==>
              r.value[i] == Summary(Subscript(items[i], "id").value, Subscript(items[i], "name").value)
  {
    if items == [] then Ok([])
    else
      var rest := Project(items[1..]);
      assert forall i :: 0 < i < |items| ==> items[i] == items[1..][i - 1];
      match Subscript(items[0], "id")
      case Err(e) => Err(e)
      case Ok(id) =>
        match Subscript(items[0], "name")
        case Err(e) => Err(e)
        case Ok(name) =>
          match rest
          case Err(e) => Err(e)
          case Ok(summaries) => Ok([Summary(id, name)] + summaries)
  }

  /** The first exception the projection meets: reading the id, then the name, of the first incomplete item. */
  lemma {:induction false} ProjectStopsAtFirstIncomplete(items: seq<Json>, k: nat)
    requires k < |items| && !HasIdAndName(items[k])
    requires forall j :: 0 <= j < k ==> HasIdAndName(items[j])
    ensures Project(items) ==
              if Subscript(items[k], "id").Err? then Err(Subscript(items[k], "id").error)
              else Err(Subscript(items[k], "name").error)
  {
    if k > 0 {
      assert forall j :: 0 <= j < k - 1 ==> items[1..][j] == items[j + 1];
      ProjectStopsAtFirstIncomplete(items[1..], k - 1);
    }
  }

  /** `list_collections()`: the id and name of every collection the listing reply holds. */
  function ListCollections(listing: Reply): (r: Result<seq<Summary>>)
    ensures Collections(listing).Err? ==> r == Err(Collections(listing).error)
    ensures Collections(listing).Ok? ==> r == Project(Collections(listing).value)
  {
    match Collections(listing)
    case Err(e) => Err(e)
    case Ok(items) => Project(items)
  }

  /** `[kb["name"] for kb in collections]`: every name, in order, or the first exception. */
  function Names(items: seq<Json>): (r: Result<seq<Json>>)
    ensures r.Ok? <==> forall i :: 0 <= i < |items| ==> NameOf(items[i]).Ok?
    ensures r.Ok? ==> |r.value| == |items| && forall i :: 0 <= i < |items| ==> r.value[i] == NameOf(items[i]).value
  {
    if items == [] then Ok([])
    else
      assert forall i :: 0 < i < |items| ==> items[i] == items[1..][i - 1];
      match NameOf(items[0])
      case Err(e) => Err(e)
      case Ok(name) =>
        match Names(items[1..])
        case Err(e) => Err(e)
        case Ok(names) => Ok([name] + names)
  }
  /** The exception the name list raises is the one reading the first unreadable name. */
  lemma {:induction false} NamesStopsAtFirstUnreadable(items: seq<Json>, k: nat)
    requires k < |items| && NameOf(items[k]).Err?
    requires forall j :: 0 <= j < k ==> NameOf(items[j]).Ok?
    ensures Names(items) == Err(NameOf(items[k]).error)
  {
    if k > 0 {
      assert forall j :: 0 <= j < k - 1 ==> items[1..][j] == items[j + 1];
      NamesStopsAtFirstUnreadable(items[1..], k - 1);
    }
  }


  /** `r.json()["choices"][0]["message"]["content"]` after `raise_for_status`. */
  function AnswerOf(completion: Reply): (r: Result<Json>)
    ensures CheckedJson(completion).Err? ==> r == Err(CheckedJson(completion).error)
    ensures CheckedJson(completion).Ok? && !CheckedJson(completion).value.Obj? ==> r == Err(WrongType)
    ensures r.Ok? ==> RaiseForStatus(completion).Ok? && completion.value.body.Some?
  {
    match CheckedJson(completion)
    case Err(e) => Err(e)
    case Ok(data) =>
      match Subscript(data, "choices")
      case Err(e) => Err(e)
      case Ok(choices) =>
        match First(choices)
        case Err(e) => Err(e)
        case Ok(choice) =>
          match Subscript(choice, "message")
          case Err(e) => Err(e)
          case Ok(message) => Subscript(message, "content")
  }

  /** What `rag_query` returns: the model's answer, or the not-found message's collection name and available names. */
  datatype RagAnswer = Answered(content: Json) | NotFound(name: string, available: seq<Json>)

  /** The tool's result (or exception) and the requests it sent. */
  datatype RagRun = RagRun(answer: Result<RagAnswer>, calls: seq<Call>)

  /**
   * `rag_query`: resolve the collection name to the id of the first collection
   * with that name; when there is none, or its id is null, report the names
   * available without asking the model; otherwise send one chat completion
   * restricted to that collection and return the answer's content.
   */
  function RagQuery(base: string, question: string, collectionName: string, model: string,
                    listing: Reply, completion: Reply): (r: RagRun)
    ensures 1 <= |r.calls| <= 2 && r.calls[0] == ListKnowledge(base)
    ensures |r.calls| == 2 ==>
              && r.calls[1].ChatCompletion?
              && r.calls[1].base == base && r.calls[1].model == model && r.calls[1].question == question
              && r.calls[1].collectionId != Null
    ensures Collections(listing).Err? ==> r == RagRun(Err(Collections(listing).error), [ListKnowledge(base)])
    ensures r.answer.Ok? && r.answer.value.Answered? ==>
              |r.calls| == 2 && AnswerOf(completion) == Ok(r.answer.value.content)
    ensures r.answer.Ok? && r.answer.value.NotFound? ==>
              |r.calls| == 1 && r.answer.value.name == collectionName
  {
    var list := [ListKnowledge(base)];
    match Collections(listing)
    case Err(e) => RagRun(Err(e), list)
    case Ok(items) =>
      match FirstIdNamed(items, collectionName, NameOf)
      case Err(e) => RagRun(Err(e), list)
      case Ok(found) =>
        if found.None? || found.value == Null then
          match Names(items)
          case Err(e) => RagRun(Err(e), list)
          case Ok(names) => RagRun(Ok(NotFound(collectionName, names)), list)
        else
          var asked := list + [ChatCompletion(base, model, question, found.value)];
          match AnswerOf(completion)
          case Err(e) => RagRun(Err(e), asked)
          case Ok(content) => RagRun(Ok(Answered(content)), asked)
  }

  /**
   * Any successful reply whose body is a dict with a non-empty "choices" list,
   * whose first choice is a dict with a "message" dict holding "content",
   * yields that content.
   */
  lemma AnswerOfCompletion(code: int, fields: seq<(string, Json)>, choices: seq<Json>,
                           choice: seq<(string, Json)>, message: seq<(string, Json)>, content: Json)
    requires !(400 <= code < 600)
    requires Lookup(fields, "choices") == Some(Arr(choices))
    requires choices != [] && choices[0] == Obj(choice)
    requires Lookup(choice, "message") == Some(Obj(message))
    requires Lookup(message, "content") == Some(content)
    ensures AnswerOf(Ok(Response(code, Some(Obj(fields))))) == Ok(content)
  {
  }

  /** The first collection with the name and a non-null id is the one the completion is restricted to. */
  lemma RagUsesFirstMatch(base: string, question: string, collectionName: string, model: string,
                          listing: Reply, completion: Reply, items: seq<Json>, k: nat, id: Json)
    requires Collections(listing) == Ok(items)
    requires IsFirstNamed(items, collectionName, NameOf, k)
    requires Subscript(items[k], "id") == Ok(id) && id != Null
    ensures var run := RagQuery(base, question, collectionName, model, listing, completion);
            && run.calls == [ListKnowledge(base), ChatCompletion(base, model, question, id)]
            && (AnswerOf(completion).Ok? ==> run.answer == Ok(Answered(AnswerOf(completion).value)))
            && (AnswerOf(completion).Err? ==> run.answer == Err(AnswerOf(completion).error))
  {
    FindsFirstNamed(items, collectionName, NameOf, k);
  }

  /** When no collection has the name, the tool lists every collection's name and asks nothing. */
  lemma RagNotFoundListsAll(base: string, question: string, collectionName: string, model: string,
                            listing: Reply, completion: Reply, items: seq<Json>)
    requires Collections(listing) == Ok(items)
    requires forall i :: 0 <= i < |items| ==> NameOf(items[i]).Ok? && NameOf(items[i]).value != Str(collectionName)
    ensures var run := RagQuery(base, question, collectionName, model, listing, completion);
            && run.calls == [ListKnowledge(base)]
            && run.answer.Ok? && run.answer.value.NotFound?
            && run.answer.value.name == collectionName
            && |run.answer.value.available| == |items|
            && forall i :: 0 <= i < |items| ==> run.answer.value.available[i] == NameOf(items[i]).value
  {
    FindsNothing(items, collectionName, NameOf);
  }

  /**
   * A chat completion is sent exactly when the listing yields collections and
   * the first one with the name has a non-null id; it is restricted to that id.
   */
  lemma CompletionOnlyWhenResolved(base: string, question: string, collectionName: string, model: string,
                                   listing: Reply, completion: Reply)
    ensures var run := RagQuery(base, question, collectionName, model, listing, completion);
            && run.calls[0] == ListKnowledge(base)
            && 1 <= |run.calls| <= 2
            && (|run.calls| == 2 <==>
                  && Collections(listing).Ok?
                  && exists k: nat :: && IsFirstNamed(Collections(listing).value, collectionName, NameOf, k)
                                      && Subscript(Collections(listing).value[k], "id").Ok?
                                      && Subscript(Collections(listing).value[k], "id").value != Null)
            && (|run.calls| == 2 ==>
                  exists k: nat :: && IsFirstNamed(Collections(listing).value, collectionName, NameOf, k)
                                   && run.calls[1] == ChatCompletion(base, model, question,
                                                                     Subscript(Collections(listing).value[k], "id").value))
  {
    var run := RagQuery(base, question, collectionName, model, listing, completion);
    if Collections(listing).Ok? {
      var items := Collections(listing).value;
      var found := FirstIdNamed(items, collectionName, NameOf);
      if found.Ok? && found.value.Some? {
        FoundIsFirstNamed(items, collectionName, NameOf, found.value.value);
      }
      forall k: nat | IsFirstNamed(items, collectionName, NameOf, k)
        ensures found == (match Subscript(items[k], "id") case Ok(id) => Ok(Some(id)) case Err(e) => Err(e))
      {
        FindsFirstNamed(items, collectionName, NameOf, k);
      }
    }
  }

  /**
   * A first match whose id is null reads as "not found": the tool then reads
   * every name, so an unnamed collection after the match makes it raise.
   */
  lemma NullIdReadsAsNotFound(base: string, question: string, collectionName: string, model: string,
                              listing: Reply, completion: Reply, items: seq<Json>, k: nat)
    requires Collections(listing) == Ok(items)
    requires IsFirstNamed(items, collectionName, NameOf, k)
    requires Subscript(items[k], "id") == Ok(Null)
    ensures var run := RagQuery(base, question, collectionName, model, listing, completion);
            && run.calls == [ListKnowledge(base)]
            && run.answer == (match Names(items)
                              case Ok(names) => Ok(NotFound(collectionName, names))
                              case Err(e) => Err(e))
  {
    FindsFirstNamed(items, collectionName, NameOf, k);
  }
}
