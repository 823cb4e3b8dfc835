/**
 * The first-match search both scripts run over a knowledge-base listing: the
 * id of the first item whose name equals the requested one. They differ only
 * in how they read an item's name: ingest.py uses `kb.get("name")` (a missing
 * name reads as None), openwebui_mcp.py uses `kb["name"]` (a missing name raises).
 */
module Search {
  import opened Values

  /** The id of the first item named `name`, None when no item is; the first exception ends the search. */
  function FirstIdNamed(items: seq<Json>, name: string, nameOf: Json -> Result<Json>): (r: Result<Option<Json>>)
    ensures r == Ok(None) ==> forall j :: 0 <= j < |items| ==> nameOf(items[j]).Ok? && nameOf(items[j]).value != Str(name)
  {
    if items == [] then Ok(None)
    else match nameOf(items[0])
      case Err(e) => Err(e)
      case Ok(n) =>
        if n == Str(name) then
          match Subscript(items[0], "id")
          case Ok(id) => Ok(Some(id))
          case Err(e) => Err(e)
        else FirstIdNamed(items[1..], name, nameOf)
  }

  /** Item `k` is the first item named `name`, and every item before it has a readable name. */
  ghost predicate IsFirstNamed(items: seq<Json>, name: string, nameOf: Json -> Result<Json>, k: nat)
  {
    && k < |items|
    && (forall j :: 0 <= j < k ==> nameOf(items[j]).Ok? && nameOf(items[j]).value != Str(name))
    && nameOf(items[k]) == Ok(Str(name))
  }

  /** The search reports the id of the first item named `name` (or the exception reading that id). */
  lemma {:induction false} FindsFirstNamed(items: seq<Json>, name: string, nameOf: Json -> Result<Json>, k: nat)
    requires IsFirstNamed(items, name, nameOf, k)
    ensures FirstIdNamed(items, name, nameOf) ==
              match Subscript(items[k], "id")
              case Ok(id) => Ok(Some(id))
              case Err(e) => Err(e)
  {
    if k > 0 {
      assert IsFirstNamed(items[1..], name, nameOf, k - 1) by {
        forall j | 0 <= j < k - 1 ensures nameOf(items[1..][j]).Ok? && nameOf(items[1..][j]).value != Str(name) {
          assert items[1..][j] == items[j + 1];
        }
      }
      FindsFirstNamed(items[1..], name, nameOf, k - 1);
    }
  }

  /** The search finds nothing exactly when every item has a readable name and none is `name`. */
  lemma {:induction false} FindsNothing(items: seq<Json>, name: string, nameOf: Json -> Result<Json>)
    ensures FirstIdNamed(items, name, nameOf) == Ok(None) <==>
              forall j :: 0 <= j < |items| ==> nameOf(items[j]).Ok? && nameOf(items[j]).value != Str(name)
  {
    if items != [] {
      FindsNothing(items[1..], name, nameOf);
      assert forall j :: 0 < j < |items| ==> items[j] == items[1..][j - 1];
    }
  }

  /** A reported id belongs to the first item named `name`. */
  lemma {:induction false} FoundIsFirstNamed(items: seq<Json>, name: string, nameOf: Json -> Result<Json>, id: Json)
    requires FirstIdNamed(items, name, nameOf) == Ok(Some(id))
    ensures exists k: nat :: IsFirstNamed(items, name, nameOf, k) && Subscript(items[k], "id") == Ok(id)
  {
    var n := nameOf(items[0]).value;
    if n != Str(name) {
      FoundIsFirstNamed(items[1..], name, nameOf, id);
      var k: nat :| IsFirstNamed(items[1..], name, nameOf, k) && Subscript(items[1..][k], "id") == Ok(id);
      assert IsFirstNamed(items, name, nameOf, k + 1) by {
        forall j | 0 <= j < k + 1 ensures nameOf(items[j]).Ok? && nameOf(items[j]).value != Str(name) {
          if j > 0 {
            assert items[j] == items[1..][j - 1];
          }
        }
      }
    } else {
      assert IsFirstNamed(items, name, nameOf, 0);
    }
  }
}
