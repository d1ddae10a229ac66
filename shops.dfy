/**
 * The shop registry of main.py: the `shops` list of the JSON config document,
 * appended to by register_api_key, searched and shrunk by confirm_delete and
 * read by list_shops and cmd_report.
 */
module Shops {
  import opened Common

  /** One registry entry, `{"name": ..., "api_key": ...}` in the config document. */
  datatype Shop = Shop(name: string, apiKey: string)

  /**
   * What confirm_delete compares each shop name with as written (main.py:134):
   * the FSM state `Register.name`.  aiogram's `State` equals a string exactly
   * when the string is its full name, group and state joined by ':'.
   */
  const RegisterNameState: string := "Register:name"

  /** `next((shop for shop in shops if shop['name'] == key), None)`, as the index of that shop. */
  function FirstNamed(shops: seq<Shop>, key: string): (r: Option<nat>)
    ensures r.Some? ==> r.value < |shops| && shops[r.value].name == key
    ensures r.Some? ==> forall j :: 0 <= j < r.value ==> shops[j].name != key
    ensures r.None? <==> forall j :: 0 <= j < |shops| ==> shops[j].name != key
  {
    if shops == [] then None
    else if shops[0].name == key then Some(0)
    else match FirstNamed(shops[1..], key)
      case None => None
      case Some(i) => Some(i + 1)
  }

  /** Index of the first entry equal to `x`, the element Python's `list.remove(x)` deletes. */
  function IndexOf(shops: seq<Shop>, x: Shop): (r: Option<nat>)
    ensures r.Some? ==> r.value < |shops| && shops[r.value] == x
    ensures r.Some? ==> forall j :: 0 <= j < r.value ==> shops[j] != x
    ensures r.None? <==> x !in shops
  {
    if shops == [] then None
    else if shops[0] == x then Some(0)
    else match IndexOf(shops[1..], x)
      case None => None
      case Some(i) => Some(i + 1)
  }

  /** The list with its `i`-th entry taken out and every other entry kept in order. */
  function RemoveAt(shops: seq<Shop>, i: nat): (r: seq<Shop>)
    requires i < |shops|
    ensures |r| == |shops| - 1
    ensures forall j :: 0 <= j < i ==> r[j] == shops[j]
    ensures forall j :: i <= j < |r| ==> r[j] == shops[j + 1]
    ensures multiset(r) + multiset{shops[i]} == multiset(shops)
  {
    assert shops == shops[..i] + [shops[i]] + shops[i + 1..];
    shops[..i] + shops[i + 1..]
  }

  /**
   * The shop confirm_delete finds by name is also the first entry equal to it,
   * so `shops.remove(shop_to_delete)` takes out exactly the entry the search found.
   */
  lemma FoundShopIsFirstEqual(shops: seq<Shop>, key: string)
    requires FirstNamed(shops, key).Some?
    ensures IndexOf(shops, shops[FirstNamed(shops, key).value]) == FirstNamed(shops, key)
  {
    var i := FirstNamed(shops, key).value;
    assert shops[i] in shops;
  }

  /** What confirm_delete answers. */
  datatype DeleteOutcome =
    | Deleted(shop: Shop)
    | NotFound
    | NoStoredName   // `data['name']` raises KeyError: nothing was stored under "name"

  /** The config document: JSON `[]` (what load_config returns for a missing file) or `{"shops": [...]}`. */
  datatype Document = Array(items: seq<Shop>) | Object(shops: seq<Shop>)

  /** load_config as written (main.py:29-34): a missing file gives the empty JSON list. */
  function LoadAsWritten(file: Option<Document>): (d: Document)
    ensures file.None? ==> d == Array([])
    ensures file.Some? ==> d == file.value
  {
    match file
    case None => Array([])
    case Some(doc) => doc
  }

  /** `config['shops']`: a list cannot be indexed by a string (TypeError), so only an object has shops. */
  function ShopsField(d: Document): (r: Option<seq<Shop>>)
    ensures r.Some? <==> d.Object?
    ensures d.Object? ==> r == Some(d.shops)
  {
    match d
    case Array(_) => None
    case Object(shops) => Some(shops)
  }

  /**
   * As written, a missing store makes every `config['shops']` fail: registering,
   * listing and reporting all raise instead of seeing an empty registry.
   */
  lemma AbsentStoreHasNoShops()
    ensures ShopsField(LoadAsWritten(None)).None?
  {
  }

  /** save_config: the registry is written as `{"shops": [...]}`. */
  function Save(shops: seq<Shop>): (d: Document)
    ensures ShopsField(d) == Some(shops)
  {
    Object(shops)
  }

  /**
   * Loading the registry with a missing store read as an empty one; a store that
   * is present but not `{"shops": [...]}` is reported (None) rather than taken as empty.
   */
  function LoadShops(file: Option<Document>): (r: Option<seq<Shop>>)
    ensures file.None? ==> r == Some([])
    ensures file.Some? ==> r == ShopsField(file.value)
  {
    match file
    case None => Some([])
    case Some(doc) => ShopsField(doc)
  }

  /** Loading what was saved gives the same registry back. */
  lemma LoadSaveRoundTrip(shops: seq<Shop>)
    ensures LoadShops(Some(Save(shops))) == Some(shops)
  {
  }

  /** The registry held in memory; every handler of main.py reloads it, here it is one object. */
  class ShopRegistry {
    var shops: seq<Shop>

    /** The registry as loaded by `LoadShops`. */
    constructor Load(loaded: seq<Shop>)
      ensures shops == loaded
    {
      shops := loaded;
    }

    /** `config['shops'].append({'name': ..., 'api_key': ...})` (main.py:108-113). */
    method Add(shop: Shop)
      modifies this
      ensures shops == old(shops) + [shop]
    {
      shops := shops + [shop];
    }

    /**
     * Python's `list.remove(x)`: scans for the first entry equal to `x` and deletes it.
     * `removed` is false where Python raises ValueError, and then nothing changes.
     */
    method RemoveValue(x: Shop) returns (removed: bool)
      modifies this
      ensures removed <==> x in old(shops)
      ensures removed ==> shops == RemoveAt(old(shops), IndexOf(old(shops), x).value)
      ensures !removed ==> shops == old(shops)
    {
      var i := 0;
      while i < |shops| && shops[i] != x
        invariant 0 <= i <= |shops|
        invariant forall j :: 0 <= j < i ==> shops[j] != x
      {
        i := i + 1;
      }
      if i < |shops| {
        assert IndexOf(shops, x) == Some(i);
        shops := RemoveAt(shops, i);
        removed := true;
      } else {
        removed := false;
      }
    }

    /**
     * confirm_delete (main.py:128-143): when the stored dialog name equals the reply,
     * the first shop whose name is `key` is removed.  The source passes
     * `Register.name` as `key`, that is `RegisterNameState`; see
     * `DeleteByStateNameMissesShop`.
     */
    method ConfirmDelete(stored: Option<string>, text: string, key: string) returns (outcome: DeleteOutcome)
      modifies this
      ensures stored.None? ==> outcome == NoStoredName && shops == old(shops)
      ensures (stored.Some? && (stored.value != text || FirstNamed(old(shops), key).None?))
                ==> outcome == NotFound && shops == old(shops)
      ensures stored == Some(text) && FirstNamed(old(shops), key).Some? ==>
                var i := FirstNamed(old(shops), key).value;
                outcome == Deleted(old(shops)[i]) && shops == RemoveAt(old(shops), i)
    {
      if stored.None? {
        return NoStoredName;
      }
      if stored.value != text {
        return NotFound;
      }
      var found := FirstNamed(shops, key);
      if found.None? {
        return NotFound;
      }
      var shop := shops[found.value];
      FoundShopIsFirstEqual(shops, key);
      var removed := RemoveValue(shop);
      outcome := Deleted(shop);
    }

    /** list_shops (main.py:148-152): the names, collected in registry order by a loop. */
    method Names() returns (names: seq<string>)
      ensures |names| == |shops|
      ensures forall i :: 0 <= i < |shops| ==> names[i] == shops[i].name
      ensures names == [] <==> shops == []
    {
      names := [];
      var i := 0;
      while i < |shops|
        invariant 0 <= i <= |shops|
        invariant |names| == i
        invariant forall j :: 0 <= j < i ==> names[j] == shops[j].name
      {
        names := names + [shops[i].name];
        i := i + 1;
      }
    }
  }

  /**
   * As written, confirm_delete searches for the name "Register:name" whatever
   * the user typed: a shop is found only when it carries that very name.
   */
  lemma DeleteByStateNameFindsOnlyThatName(shops: seq<Shop>, text: string)
    requires FirstNamed(shops, RegisterNameState).Some?
    ensures exists j :: 0 <= j < |shops| && shops[j].name == RegisterNameState
    ensures text != RegisterNameState ==> FirstNamed(shops, RegisterNameState) != FirstNamed(shops, text)
  {
    var i := FirstNamed(shops, RegisterNameState).value;
    assert shops[i].name == RegisterNameState;
  }

  /** The concrete case: shop "A", reply "A": the as-written search misses it. */
  lemma DeleteByStateNameMissesShop()
    ensures FirstNamed([Shop("A", "key")], RegisterNameState).None?
    ensures FirstNamed([Shop("A", "key")], "A") == Some(0)
  {
    assert [Shop("A", "key")][0].name != RegisterNameState;
  }

  /** Searching with the user's text finds a shop exactly when one carries that name. */
  lemma DeleteByTextFinds(shops: seq<Shop>, text: string)
    ensures FirstNamed(shops, text).Some? <==> exists j :: 0 <= j < |shops| && shops[j].name == text
  {
    if exists j :: 0 <= j < |shops| && shops[j].name == text {
      var j :| 0 <= j < |shops| && shops[j].name == text;
      assert FirstNamed(shops, text).Some?;
    }
  }
}
