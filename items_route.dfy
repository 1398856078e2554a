/** The items API: one JSON document (`items.json` in the blob store) holding the
    whole dashboard list, read in full and written back in full on every change. */
module ItemsRoute {
  import opened Wrappers

  /** One dashboard entry. */
  datatype Item = Item(id: string, title: string, subtitle: string, link: string, image: string)

  /** A string body field as JavaScript's `!` sees it: missing and `''` are falsy. */
  predicate Truthy(v: Option<string>)
  {
    v.Some? && v.value != ""
  }

  /** `v || ''`: the field when it is truthy, the empty string otherwise. */
  function OrEmpty(v: Option<string>): (s: string)
    ensures Truthy(v) ==> s == v.value
    ensures !Truthy(v) ==> s == ""
  {
    if Truthy(v) then v.value else ""
  }

  /** The body of a POST: `{title, subtitle?, link, image?}`. */
  datatype PostBody = PostBody(title: Option<string>, subtitle: Option<string>, link: Option<string>, image: Option<string>)

  /** The body of a DELETE: `{id}`. */
  datatype DeleteBody = DeleteBody(id: Option<string>)

  const TitleAndLinkRequired: string := "Title and link required"
  const IdRequired: string := "ID required"

  /** The responses of the three handlers. `ItemList`, `Created` and `Deleted`
      (`{success: true}`) are 200, `BadRequest` is 400 with an error message, and
      `ServerError` is the 500 that an exception escaping a handler turns into. */
  datatype Response =
    | ItemList(items: seq<Item>)
    | Created(item: Item)
    | Deleted
    | BadRequest(error: string)
    | ServerError

  function StatusCode(r: Response): int
  {
    match r
    case ItemList(_) => 200
    case Created(_) => 200
    case Deleted => 200
    case BadRequest(_) => 400
    case ServerError => 500
  }

  /** POST's validation: both `title` and `link` are truthy. */
  predicate ValidPost(body: PostBody)
  {
    Truthy(body.title) && Truthy(body.link)
  }

  function DigitChar(d: nat): (c: char)
    requires d < 10
    ensures '0' <= c <= '9'
    ensures DigitValue(c) == d
  {
    (('0' as int) + d) as char
  }

  /** The value of one decimal digit character; `0` for any other character. */
  function DigitValue(c: char): nat
  {
    if '0' <= c <= '9' then (c as int) - ('0' as int) else 0
  }

  /** `Number(s)` for a string of decimal digits: the number they spell. */
  function DigitsValue(s: string): nat
  {
    if s == [] then 0 else DigitsValue(s[..|s| - 1]) * 10 + DigitValue(s[|s| - 1])
  }

  /** `n.toString()` for a whole number: its decimal digits, never empty, with no
      leading zero, spelling `n`. */
  function Decimal(n: nat): (s: string)
    ensures |s| > 0
    ensures forall i :: 0 <= i < |s| ==> '0' <= s[i] <= '9'
    ensures DigitsValue(s) == n
    ensures n > 0 ==> s[0] != '0'
    ensures |s| > 1 ==> s[0] != '0'
  {
    if n < 10 then [DigitChar(n)]
    else
      var prefix := Decimal(n / 10);
      var s := prefix + [DigitChar(n % 10)];
      assert s[..|s| - 1] == prefix;
      s
  }

  /** Distinct timestamps give distinct ids; equal timestamps give equal ids. */
  lemma DecimalInjective(a: nat, b: nat)
    ensures Decimal(a) == Decimal(b) <==> a == b
  {
  }

  /** What `getItems` yields for a stored document: the stored list, or `[]` when
      the document is absent or the blob lookup or fetch throws (fail-open). */
  function Loaded(document: Option<seq<Item>>, readFails: bool): (items: seq<Item>)
    ensures readFails || document.None? ==> items == []
    ensures !readFails && document.Some? ==> items == document.value
  {
    if readFails || document.None? then [] else document.value
  }

  /** `items.filter(item => item.id !== id)`. */
  function Without(items: seq<Item>, id: string): (r: seq<Item>)
    ensures |r| <= |items|
    ensures forall k :: 0 <= k < |r| ==> r[k].id != id
    ensures forall x :: multiset(r)[x] == if x.id == id then 0 else multiset(items)[x]
    ensures (forall k :: 0 <= k < |items| ==> items[k].id != id) ==> r == items
  {
    if items == [] then []
    else
      var rest := Without(items[1..], id);
      assert items == [items[0]] + items[1..];
      if items[0].id == id then rest else [items[0]] + rest
  }

  /** Filtering distributes over concatenation: kept items keep their order. */
  lemma {:induction false} WithoutAppend(a: seq<Item>, b: seq<Item>, id: string)
    ensures Without(a + b, id) == Without(a, id) + Without(b, id)
  {
    if a == [] {
      assert a + b == b;
    } else {
      assert (a + b)[0] == a[0];
      assert (a + b)[1..] == a[1..] + b;
      WithoutAppend(a[1..], b, id);
    }
  }

  /** A kept item stays after every kept item that preceded it and before every
      kept item that followed it. */
  lemma {:induction false} WithoutKeepsPosition(before: seq<Item>, x: Item, after: seq<Item>, id: string)
    requires x.id != id
    ensures Without(before + [x] + after, id) == Without(before, id) + [x] + Without(after, id)
  {
    WithoutAppend(before + [x], after, id);
    WithoutAppend(before, [x], id);
    assert [x][1..] == [];
    assert Without([x], id) == [x];
  }

  /** Deleting the id of an item just appended to a list that did not hold that id
      gives back the list as it was. */
  lemma PostThenDeleteRestores(items: seq<Item>, x: Item)
    requires forall k :: 0 <= k < |items| ==> items[k].id != x.id
    ensures Without(items + [x], x.id) == items
  {
    WithoutAppend(items, [x], x.id);
    assert Without([x], x.id) == Without([], x.id);
  }

  /** The blob store slot `items.json`. `document` is `None` while the blob has never
      been written. `readFails` and `writeFails` say whether the blob client throws. */
  class ItemStore {
    var document: Option<seq<Item>>

    constructor (document: Option<seq<Item>>)
      ensures this.document == document
    {
      this.document := document;
    }

    /** `getItems`. */
    method GetItems(readFails: bool) returns (items: seq<Item>)
      ensures items == Loaded(document, readFails)
    {
      if readFails || document.None? {
        items := [];
      } else {
        items := document.value;
      }
    }

    /** `saveItems`: one `put` of the whole list; when it throws nothing is stored. */
    method SaveItems(items: seq<Item>, writeFails: bool) returns (saved: bool)
      modifies this
      ensures saved == !writeFails
      ensures document == if writeFails then old(document) else Some(items)
    {
      if writeFails {
        saved := false;
      } else {
        document := Some(items);
        saved := true;
      }
    }

    /** `GET`: the stored list, `[]` when it cannot be read; always 200. */
    method Get(readFails: bool) returns (resp: Response)
      ensures resp.ItemList? && StatusCode(resp) == 200
      ensures resp.items == Loaded(document, readFails)
    {
      var items := GetItems(readFails);
      resp := ItemList(items);
    }

    /** `POST`: validate, build the item with timestamp id `now`, append, save. */
    method Post(body: PostBody, now: nat, readFails: bool, writeFails: bool) returns (resp: Response)
      modifies this
      ensures !ValidPost(body) ==> resp == BadRequest(TitleAndLinkRequired) && document == old(document)
      ensures ValidPost(body) && writeFails ==> resp == ServerError && document == old(document)
      ensures ValidPost(body) && !writeFails ==>
        && resp.Created?
        && resp.item.id == Decimal(now)
        && resp.item.title == body.title.value
        && resp.item.link == body.link.value
        && resp.item.subtitle == OrEmpty(body.subtitle)
        && resp.item.image == OrEmpty(body.image)
        && document == Some(Loaded(old(document), readFails) + [resp.item])
    {
      if !ValidPost(body) {
        return BadRequest(TitleAndLinkRequired);
      }
      var items := GetItems(readFails);
      var newItem := Item(Decimal(now), body.title.value, OrEmpty(body.subtitle), body.link.value, OrEmpty(body.image));
      items := items + [newItem];
      var saved := SaveItems(items, writeFails);
      if !saved {
        return ServerError;
      }
      resp := Created(newItem);
    }

    /** `DELETE`: validate, drop every item with that id, save. */
    method Delete(body: DeleteBody, readFails: bool, writeFails: bool) returns (resp: Response)
      modifies this
      ensures !Truthy(body.id) ==> resp == BadRequest(IdRequired) && document == old(document)
      ensures Truthy(body.id) && writeFails ==> resp == ServerError && document == old(document)
      ensures Truthy(body.id) && !writeFails ==>
        resp == Deleted && document == Some(Without(Loaded(old(document), readFails), body.id.value))
    {
      if !Truthy(body.id) {
        return BadRequest(IdRequired);
      }
      var items := GetItems(readFails);
      var filtered := Without(items, body.id.value);
      var saved := SaveItems(filtered, writeFails);
      if !saved {
        return ServerError;
      }
      resp := Deleted;
    }
  }

  /** Create on an empty store, list, delete by the returned id, list again. */
  method WikiScenario()
  {
    var store := new ItemStore(None);
    var missing := store.Post(PostBody(None, None, Some("https://x"), None), 1, false, false);
    assert missing == BadRequest(TitleAndLinkRequired) && store.document == None;
    var created := store.Post(PostBody(Some("Wiki"), None, Some("https://wiki.local"), None), 1700000000000, false, false);
    assert created.Created? && created.item.subtitle == "" && created.item.image == "";
    var listed := store.Get(false);
    assert listed.items == [created.item];
    var deleted := store.Delete(DeleteBody(Some(created.item.id)), false, false);
    assert deleted == Deleted;
    PostThenDeleteRestores([], created.item);
    assert [] + [created.item] == [created.item];
    listed := store.Get(false);
    assert listed.items == [];
  }
}
