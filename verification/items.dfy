/**
 * The item routes: `GET /`, `POST /`, `GET /:id`, `PUT /:id` and
 * `DELETE /:id` over the `secondChanceItems` collection. Each handler is a
 * method of `Catalog`, the in-memory collection; it returns either a reply
 * (status code and JSON body) or `Forwarded`, meaning the handler threw and
 * passed the error to `next`. The clock is a parameter.
 */
module Items {
  import opened Wrappers
  import opened Json
  import JsNumber

  /** An item document: field name to value. The request body has the same shape. */
  type Doc = map<string, Value>

  /** The JSON body of a reply. */
  datatype Body =
    | Failure(error: string)
    | Listing(items: seq<Doc>)
    | Found(item: Doc)
    | Deleted(deleted: string)

  datatype Outcome = Reply(status: nat, body: Body) | Forwarded

  const NotFound := Reply(404, Failure("Item not found"))

  /** `!doc[field]`: the field is absent or falsy. */
  predicate Missing(doc: Doc, field: string)
  {
    field !in doc || Falsy(doc[field])
  }

  /** Create's required-field check. */
  predicate LacksRequired(body: Doc)
  {
    Missing(body, "category") || Missing(body, "condition") ||
    Missing(body, "age_days") || Missing(body, "description")
  }

  /** The document's `id` field has the string value id. */
  predicate HasId(doc: Doc, id: string)
  {
    "id" in doc && doc["id"] == Str(id)
  }

  /** `findOne({ id })`: the position of the first document whose `id` is the string id. */
  function FirstWithId(items: seq<Doc>, id: string): (r: Option<nat>)
    ensures r.Some? ==> r.value < |items| && HasId(items[r.value], id)
    ensures r.Some? ==> forall j :: 0 <= j < r.value ==> !HasId(items[j], id)
    ensures r.None? <==> forall j :: 0 <= j < |items| ==> !HasId(items[j], id)
  {
    if items == [] then None
    else if HasId(items[0], id) then Some(0)
    else match FirstWithId(items[1..], id)
      case None => None
      case Some(k) => Some(k + 1)
  }

  /** How many documents carry the string id. */
  function CountWithId(items: seq<Doc>, id: string): nat
  {
    if items == [] then 0 else (if HasId(items[0], id) then 1 else 0) + CountWithId(items[1..], id)
  }

  // ---------------------------------------------------------------------------
  // Id assignment

  /** The sort key of a document: its `id`, or null when it has none. */
  function SortKey(doc: Doc): Value
  {
    if "id" in doc then doc["id"] else Null
  }

  /**
   * `find().sort({ id: -1 }).limit(1)`: the position of a document that no
   * other document sorts above (the earliest one among equal keys).
   */
  function TopIndex(items: seq<Doc>): (r: nat)
    requires items != []
    ensures r < |items|
    ensures forall j :: 0 <= j < |items| ==> !Below(SortKey(items[r]), SortKey(items[j]))
  {
    var last := |items| - 1;
    if last == 0 then
      BelowIrreflexive(SortKey(items[0]));
      0
    else
      var best := TopIndex(items[..last]);
      assert forall j :: 0 <= j < last ==> items[..last][j] == items[j];
      if Below(SortKey(items[best]), SortKey(items[last])) then
        assert forall j :: 0 <= j < last ==> !Below(SortKey(items[last]), SortKey(items[j])) by {
          forall j | 0 <= j < last && Below(SortKey(items[last]), SortKey(items[j]))
            ensures false
          {
            BelowTransitive(SortKey(items[best]), SortKey(items[last]), SortKey(items[j]));
          }
        }
        BelowIrreflexive(SortKey(items[last]));
        last
      else best
  }

  /**
   * The result of the descending query with limit 1: nothing on an empty
   * collection, else one document of the collection that no other sorts above.
   */
  function TopQuery(items: seq<Doc>): (r: seq<Doc>)
    ensures |r| <= 1 && (r == [] <==> items == [])
    ensures r != [] ==> r[0] in items && forall j :: 0 <= j < |items| ==> !Below(SortKey(r[0]), SortKey(items[j]))
  {
    if items == [] then [] else [items[TopIndex(items)]]
  }

  /** The `id` field as `parseInt` sees it: `String(item.id)`, "undefined" when absent. */
  function IdText(doc: Doc): string
  {
    if "id" in doc then ToJsString(doc["id"]) else "undefined"
  }

  /** `(parseInt(item.id) + 1).toString()`. */
  function NextId(top: Doc): Value
  {
    Str(JsNumber.ToString(JsNumber.Plus1(JsNumber.ParseInt(IdText(top)))))
  }

  /**
   * The document Create inserts: the body, with `id` replaced by the next id
   * after the top document when there is one, and `date_added` set to the
   * clock in whole seconds.
   */
  function NewItem(items: seq<Doc>, body: Doc, nowMillis: int): (r: Doc)
    ensures r.Keys == body.Keys + {"date_added"} + (if items == [] then {} else {"id"})
    ensures forall f :: f in body && f != "id" && f != "date_added" ==> r[f] == body[f]
    ensures r["date_added"] == Num(nowMillis / 1000)
    ensures items == [] && "id" in body ==> r["id"] == body["id"]
    ensures items != [] ==> r["id"] == NextId(items[TopIndex(items)])
  {
    var item := if items == [] then body else body["id" := NextId(items[TopIndex(items)])];
    assert item.Keys == body.Keys + (if items == [] then {} else {"id"});
    var r := item["date_added" := Num(nowMillis / 1000)];
    assert r.Keys == item.Keys + {"date_added"};
    r
  }

  class Catalog {
    /** The documents of the `secondChanceItems` collection, in natural order. */
    var items: seq<Doc>

    constructor (initial: seq<Doc>)
      ensures items == initial
    {
      items := initial;
    }

    /** GET /: every document, in the store's order. */
    method List() returns (out: Outcome)
      ensures out == Reply(200, Listing(items))
    {
      var found := items;
      out := Reply(200, Listing(found));
    }

    /**
     * POST /. A body lacking category, condition, age_days or description is
     * refused. Otherwise the body takes the next id (on an empty collection
     * it keeps whatever id it came with) and `date_added`, and is inserted;
     * the assignment to a constant after the insert then throws, so the
     * error goes to `next`.
     */
    method Create(body: Doc, nowMillis: int) returns (out: Outcome)
      modifies this
      ensures LacksRequired(body) ==>
        out == Reply(400, Failure("Missing required fields")) && items == old(items)
      ensures !LacksRequired(body) ==>
        out == Forwarded && items == old(items) + [NewItem(old(items), body, nowMillis)]
    {
      if LacksRequired(body) {
        return Reply(400, Failure("Missing required fields"));
      }
      var item := body;
      var lastItem := TopQuery(items);
      var k := 0;
      while k < |lastItem|
        invariant 0 <= k <= |lastItem|
        invariant item == if k == 0 then body else body["id" := NextId(lastItem[k - 1])]
      {
        item := item["id" := NextId(lastItem[k])];
        k := k + 1;
      }
      item := item["date_added" := Num(nowMillis / 1000)];
      items := items + [item];
      out := Forwarded;
    }

    /** GET /:id: the first document with that id, or 404. */
    method Get(id: string) returns (out: Outcome)
      ensures FirstWithId(items, id).None? ==> out == NotFound
      ensures FirstWithId(items, id).Some? ==>
        out.Reply? && out.status == 200 && out.body.Found? && HasId(out.body.item, id) &&
        out.body.item == items[FirstWithId(items, id).value]
    {
      var found := FirstWithId(items, id);
      if found.None? {
        return NotFound;
      }
      out := Reply(200, Found(items[found.value]));
    }

    /**
     * PUT /:id. An unknown id gets 404. For a known id the new field values
     * go into a fetched copy, and the write-back names an unbound `id`, so
     * the handler throws before reaching the store: the error goes to `next`
     * and the collection is never changed.
     */
    method Update(id: string, body: Doc) returns (out: Outcome)
      ensures FirstWithId(items, id).None? ==> out == NotFound
      ensures FirstWithId(items, id).Some? ==> out == Forwarded
    {
      var found := FirstWithId(items, id);
      if found.None? {
        return NotFound;
      }
      // The copy also gets age_years and updatedAt (lines 98-101); it is
      // discarded when the write-back throws.
      var item := items[found.value];
      item := item["category" := FieldOrNull(body, "category")];
      item := item["condition" := FieldOrNull(body, "condition")];
      item := item["age_days" := FieldOrNull(body, "age_days")];
      item := item["description" := FieldOrNull(body, "description")];
      out := Forwarded;
    }

    /** DELETE /:id: removes the first document with that id, or answers 404. */
    method Delete(id: string) returns (out: Outcome)
      modifies this
      ensures FirstWithId(old(items), id).None? ==> out == NotFound && items == old(items)
      ensures FirstWithId(old(items), id).Some? ==>
        var i := FirstWithId(old(items), id).value;
        && items == old(items)[..i] + old(items)[i + 1..]
        && out == Reply(200, Deleted("deleted item successfully"))
    {
      var found := FirstWithId(items, id);
      if found.None? {
        return NotFound;
      }
      items := items[..found.value] + items[found.value + 1..];
      out := Reply(200, Deleted("deleted item successfully"));
    }
  }

  /** `body[field]` as copied into a document: undefined is stored as null. */
  function FieldOrNull(body: Doc, field: string): Value
  {
    if field in body then body[field] else Null
  }

  // ---------------------------------------------------------------------------
  // Properties of id assignment

  /** The top document's key is the largest key of the collection. */
  lemma {:induction false} TopIsMaximum(items: seq<Doc>, j: nat)
    requires items != [] && j < |items|
    ensures SortKey(items[j]) == SortKey(items[TopIndex(items)]) ||
            Below(SortKey(items[j]), SortKey(items[TopIndex(items)]))
  {
    var t := TopIndex(items);
    if SortKey(items[j]) != SortKey(items[t]) {
      BelowTotal(SortKey(items[j]), SortKey(items[t]));
    }
  }

  /** When the top id parses to n, the new id is the decimal text of n + 1, which parses back to n + 1. */
  lemma {:induction false} NextIdFollowsTop(items: seq<Doc>, body: Doc, nowMillis: int, n: int)
    requires items != [] && JsNumber.ParseInt(IdText(items[TopIndex(items)])) == JsNumber.Int(n)
    ensures NewItem(items, body, nowMillis)["id"] == Str(JsNumber.IntToString(n + 1))
    ensures JsNumber.ParseInt(IdText(NewItem(items, body, nowMillis))) == JsNumber.Int(n + 1)
  {
    NextIdOfInt(items[TopIndex(items)], n);
    JsNumber.ParseIntOfIntToString(n + 1);
  }

  /** The id after a top id that parses to n is the decimal text of n + 1. */
  lemma {:induction false} NextIdOfInt(top: Doc, n: int)
    requires JsNumber.ParseInt(IdText(top)) == JsNumber.Int(n)
    ensures NextId(top) == Str(JsNumber.IntToString(n + 1))
  {
  }

  /** When the top id does not parse (absent, or text without leading digits), the new id is "NaN". */
  lemma {:induction false} NextIdAfterNaN(items: seq<Doc>, body: Doc, nowMillis: int)
    requires items != [] && JsNumber.ParseInt(IdText(items[TopIndex(items)])) == JsNumber.NaN
    ensures NewItem(items, body, nowMillis)["id"] == Str("NaN")
  {
  }

  /**
   * Once the top id is "NaN", Create assigns "NaN" and the top id after the
   * insert is still "NaN"; by induction, every later Create assigns "NaN".
   */
  lemma {:induction false} NaNIdIsSticky(items: seq<Doc>, body: Doc, nowMillis: int)
    requires items != [] && SortKey(items[TopIndex(items)]) == Str("NaN")
    ensures NewItem(items, body, nowMillis)["id"] == Str("NaN")
    ensures var after := items + [NewItem(items, body, nowMillis)];
      SortKey(after[TopIndex(after)]) == Str("NaN")
  {
    JsNumber.ParseIntOfToString(JsNumber.NaN);
    var after := items + [NewItem(items, body, nowMillis)];
    assert after[..|after| - 1] == items;
    BelowIrreflexive(Str("NaN"));
  }

  /** The document's `id` is the string "NaN". */
  predicate IdIsNaN(doc: Doc)
  {
    "id" in doc && doc["id"] == Str("NaN")
  }

  /** The collection after a run of valid Creates, one per body, all at the same clock. */
  function CreateMany(items: seq<Doc>, bodies: seq<Doc>, nowMillis: int): (r: seq<Doc>)
    ensures |r| == |items| + |bodies|
    ensures forall k :: 0 <= k < |items| ==> r[k] == items[k]
    decreases |bodies|
  {
    if bodies == [] then items
    else CreateMany(items + [NewItem(items, bodies[0], nowMillis)], bodies[1..], nowMillis)
  }

  /** From a "NaN" top, every document a run of Creates inserts has the id "NaN". */
  lemma {:induction false} NaNIdForever(items: seq<Doc>, bodies: seq<Doc>, nowMillis: int)
    requires items != [] && SortKey(items[TopIndex(items)]) == Str("NaN")
    ensures forall k :: |items| <= k < |items| + |bodies| ==> IdIsNaN(CreateMany(items, bodies, nowMillis)[k])
    decreases |bodies|
  {
    if bodies != [] {
      var created := NewItem(items, bodies[0], nowMillis);
      NaNIdIsSticky(items, bodies[0], nowMillis);
      var next := items + [created];
      NaNIdForever(next, bodies[1..], nowMillis);
      var r := CreateMany(items, bodies, nowMillis);
      assert r == CreateMany(next, bodies[1..], nowMillis);
      assert r[|items|] == next[|items|] == created;
    }
  }

  /**
   * String ids sort as text, so "9" is above "10": a collection holding both
   * makes Create assign "10" a second time.
   */
  lemma {:induction false} DuplicateIdAfterNine(body: Doc, nowMillis: int)
    ensures var items := [map["id" := Str("9")], map["id" := Str("10")]];
      NewItem(items, body, nowMillis)["id"] == items[1]["id"]
  {
    var items: seq<Doc> := [map["id" := Str("9")], map["id" := Str("10")]];
    assert JsNumber.IntToString(9) == "9";
    assert JsNumber.IntToString(10) == "10";
    assert !StrBelow("9", "10");
    assert items[..1] == [items[0]];
    assert TopIndex(items) == 0;
    JsNumber.ParseIntOfIntToString(9);
  }

  // ---------------------------------------------------------------------------
  // Properties of deletion

  /** No document carries the id exactly when the lookup misses. */
  lemma {:induction false} CountZeroIffNotFound(items: seq<Doc>, id: string)
    ensures CountWithId(items, id) == 0 <==> FirstWithId(items, id).None?
  {
    if items != [] {
      CountZeroIffNotFound(items[1..], id);
    }
  }

  /** Removing a document that carries the id lowers the count of that id by one. */
  lemma {:induction false} RemoveLowersCount(items: seq<Doc>, i: nat, id: string)
    requires i < |items| && HasId(items[i], id)
    ensures CountWithId(items[..i] + items[i + 1..], id) == CountWithId(items, id) - 1
  {
    if i > 0 {
      var rest := items[1..];
      var removed := items[..i] + items[i + 1..];
      RemoveLowersCount(rest, i - 1, id);
      assert removed[0] == items[0];
      assert removed[1..] == rest[..i - 1] + rest[i..];
      assert CountWithId(removed, id) ==
        (if HasId(items[0], id) then 1 else 0) + CountWithId(rest[..i - 1] + rest[i..], id);
    } else {
      assert items[..0] + items[1..] == items[1..];
    }
  }

  /**
   * Deleting twice: after the first delete of an id that one document
   * carried, the lookup misses, so a second delete answers 404.
   */
  lemma {:induction false} SecondDeleteMisses(items: seq<Doc>, id: string)
    requires CountWithId(items, id) == 1
    ensures FirstWithId(items, id).Some?
    ensures var i := FirstWithId(items, id).value;
      FirstWithId(items[..i] + items[i + 1..], id).None?
  {
    CountZeroIffNotFound(items, id);
    var i := FirstWithId(items, id).value;
    RemoveLowersCount(items, i, id);
    CountZeroIffNotFound(items[..i] + items[i + 1..], id);
  }

  /** Deleting an unknown id twice answers 404 both times and changes nothing. */
  method DeleteUnknownTwice(initial: seq<Doc>, id: string)
    returns (first: Outcome, second: Outcome, after: seq<Doc>)
    requires FirstWithId(initial, id).None?
    ensures first == second == NotFound && after == initial
  {
    var catalog := new Catalog(initial);
    first := catalog.Delete(id);
    second := catalog.Delete(id);
    after := catalog.items;
  }

  /** A valid Create on an empty collection stores the body with only `date_added` added. */
  method CreateOnEmpty(body: Doc, nowMillis: int) returns (out: Outcome, stored: seq<Doc>)
    requires !LacksRequired(body)
    ensures out == Forwarded && |stored| == 1
    ensures ("id" in stored[0] <==> "id" in body) && ("id" in body ==> stored[0]["id"] == body["id"])
    ensures stored[0] == body["date_added" := Num(nowMillis / 1000)]
  {
    var catalog := new Catalog([]);
    out := catalog.Create(body, nowMillis);
    stored := catalog.items;
  }
}
