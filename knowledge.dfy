/**
 * `get_or_create_knowledge` (ingest.py): list the knowledge bases, reuse the
 * first one with the requested name, and create one only when none has it.
 */
module Knowledge {
  import opened Values
  import opened Http
  import opened Search

  /** How ingest.py reads a listed item's name: `kb.get("name")`, None when absent. */
  function ListedName(kb: Json): Result<Json>
  {
    DictGet(kb, "name", Null)
  }

  /** `for kb in r.json()` after `r.raise_for_status()`: the items the loop visits. */
  function ListedItems(listing: Reply): Result<seq<Json>>
  {
    match CheckedJson(listing)
    case Err(e) => Err(e)
    case Ok(data) => Iterate(data)
  }

  /** `r.json()["id"]` of the create request's reply. */
  function CreatedId(creation: Reply): Result<Json>
  {
    match CheckedJson(creation)
    case Err(e) => Err(e)
    case Ok(data) => Subscript(data, "id")
  }

  /** The knowledge-base id (or the exception) and the requests sent to obtain it. */
  datatype Resolution = Resolution(kbId: Result<Json>, calls: seq<Call>)

  /** What `get_or_create_knowledge` returns and sends, given the server's two possible replies. */
  function Resolve(base: string, name: string, listing: Reply, creation: Reply): Resolution
  {
    match ListedItems(listing)
    case Err(e) => Resolution(Err(e), [ListKnowledge(base)])
    case Ok(items) =>
      match FirstIdNamed(items, name, ListedName)
      case Err(e) => Resolution(Err(e), [ListKnowledge(base)])
      case Ok(Some(id)) => Resolution(Ok(id), [ListKnowledge(base)])
      case Ok(None) => Resolution(CreatedId(creation), [ListKnowledge(base), CreateKnowledge(base, name)])
  }

  method GetOrCreateKnowledge(base: string, name: string, listing: Reply, creation: Reply)
    returns (kbId: Result<Json>, calls: seq<Call>)
    ensures Resolution(kbId, calls) == Resolve(base, name, listing, creation)
  {
    calls := [ListKnowledge(base)];
    var data := CheckedJson(listing);
    if data.Err? {
      return Err(data.error), calls;
    }
    var listed := Iterate(data.value);
    if listed.Err? {
      return Err(listed.error), calls;
    }
    var items := listed.value;
    var i := 0;
    while i < |items|
      invariant 0 <= i <= |items|
      invariant FirstIdNamed(items, name, ListedName) == FirstIdNamed(items[i..], name, ListedName)
    {
      var kb := items[i];
      assert items[i..][0] == kb && items[i..][1..] == items[i + 1..];
      var kbName := DictGet(kb, "name", Null);
      if kbName.Err? {
        return Err(kbName.error), calls;
      }
      if kbName.value == Str(name) {
        var id := Subscript(kb, "id");
        if id.Err? {
          return Err(id.error), calls;
        }
        return Ok(id.value), calls;
      }
      i := i + 1;
    }
    calls := calls + [CreateKnowledge(base, name)];
    kbId := CreatedId(creation);
  }

  /** An existing knowledge base with the name is reused: its id is returned and nothing is created. */
  lemma ReusesFirstMatch(base: string, name: string, listing: Reply, creation: Reply, items: seq<Json>, k: nat, id: Json)
    requires ListedItems(listing) == Ok(items)
    requires IsFirstNamed(items, name, ListedName, k)
    requires Subscript(items[k], "id") == Ok(id)
    ensures Resolve(base, name, listing, creation) == Resolution(Ok(id), [ListKnowledge(base)])
  {
    FindsFirstNamed(items, name, ListedName, k);
  }

  /**
   * Exactly one create request is sent when the listing decodes and no listed
   * item has the name, and none otherwise; after it the created id is returned.
   */
  lemma CreatesOnlyWhenAbsent(base: string, name: string, listing: Reply, creation: Reply)
    ensures var res := Resolve(base, name, listing, creation);
            && res.calls[0] == ListKnowledge(base)
            && (CreateKnowledge(base, name) in res.calls <==>
                  && ListedItems(listing).Ok?
                  && forall j :: 0 <= j < |ListedItems(listing).value| ==>
                       var n := ListedName(ListedItems(listing).value[j]);
                       n.Ok? && n.value != Str(name))
            && (CreateKnowledge(base, name) in res.calls ==>
                  res.calls == [ListKnowledge(base), CreateKnowledge(base, name)] && res.kbId == CreatedId(creation))
  {
    if ListedItems(listing).Ok? {
      FindsNothing(ListedItems(listing).value, name, ListedName);
    }
  }

  /**
   * An item whose "name" member appears twice is read by its last "name", as
   * `json.loads` keeps it: an item listed as {"name": "x", "id": ..., "name": "y"}
   * is not reused for "x", and the knowledge base is created.
   */
  lemma DuplicatedNameKeepsLast(base: string, creation: Reply, id: Json)
    ensures var fields := [("name", Str("x")), ("id", id), ("name", Str("y"))];
            Resolve(base, "x", Ok(Response(200, Some(Arr([Obj(fields)])))), creation).calls
              == [ListKnowledge(base), CreateKnowledge(base, "x")]
  {
    var fields := [("name", Str("x")), ("id", id), ("name", Str("y"))];
    LookupFindsLast(fields, "name", 2);
    assert ListedName(Obj(fields)) == Ok(Str("y"));
    assert FirstIdNamed([Obj(fields)], "x", ListedName) == Ok(None);
  }

  /** Items without a name are passed over, but a listed item that is not an object stops the run. */
  lemma {:induction false} NonObjectItemRaises(name: string, items: seq<Json>, k: nat)
    requires k < |items| && !items[k].Obj?
    requires forall j :: 0 <= j < k ==> items[j].Obj? && ListedName(items[j]).value != Str(name)
    ensures FirstIdNamed(items, name, ListedName) == Err(WrongType)
  {
    if k > 0 {
      assert forall j :: 0 <= j < k - 1 ==> items[1..][j] == items[j + 1];
      NonObjectItemRaises(name, items[1..], k - 1);
    }
  }

  /**
   * A listing wrapped in an object (`{"items": [...]}`) is iterated by its keys,
   * which are strings without `.get`: the lookup raises before any create.
   */
  lemma WrappedListingRaises(base: string, name: string, listing: Reply, creation: Reply)
    requires CheckedJson(listing).Ok? && CheckedJson(listing).value.Obj?
    requires CheckedJson(listing).value.fields != []
    ensures Resolve(base, name, listing, creation) == Resolution(Err(WrongType), [ListKnowledge(base)])
  {
    var items := ListedItems(listing).value;
    assert items[0].Str?;
  }
}
