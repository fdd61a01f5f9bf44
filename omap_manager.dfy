/**
 * `ItemManager` of `reviutils/omap/__init__.py`: holds a Python list of map
 * items, appends to it, reports its length, and builds the payload that
 * `save_ovjsn` writes as JSON.
 */
module OmapManager {
  import opened OmapSamples

  /** A Python list of items: a separate object, so that two holders can share it. */
  class ItemList {
    var elems: seq<Item>

    constructor (elems: seq<Item>)
      ensures this.elems == elems
    {
      this.elems := elems;
    }
  }

  /** The dictionary `save_ovjsn` dumps: version, file type and the converted items. */
  datatype Payload = Payload(version: string, fileType: int, objItems: seq<Json>)

  class ItemManager {
    var items: ItemList

    /** `ItemManager(items)`: a new empty list for `None`, otherwise the caller's own list, not a copy. */
    constructor (init: ItemList?)
      ensures init == null ==> fresh(items) && items.elems == []
      ensures init != null ==> items == init && items.elems == old(init.elems)
    {
      if init == null {
        items := new ItemList([]);
      } else {
        items := init;
      }
    }

    /** `len(manager)`. */
    function Len(): nat
      reads this, items
    {
      |items.elems|
    }

    /** `add_item`: appends to the held list, which the caller of the constructor may also hold. */
    method AddItem(item: Item)
      modifies items
      ensures items.elems == old(items.elems) + [item]
      ensures Len() == old(Len()) + 1
      ensures SavedPayload().objItems == old(SavedPayload().objItems) + [Convert(item.View())]
    {
      items.elems := items.elems + [item];
      assert items.elems[..|items.elems| - 1] == old(items.elems);
    }

    /** The payload built from the current items: one converted item per held item, in order. */
    function SavedPayload(): (p: Payload)
      reads this, items, items.elems
      ensures p.version == "V9.9.3" && p.fileType == 1
      ensures |p.objItems| == Len()
      ensures forall i :: 0 <= i < |items.elems| ==> Erase(p.objItems[i]) == items.elems[i].View()
    {
      var es := items.elems;
      var objItems := seq(|es|, i reads es requires 0 <= i < |es| => Convert(es[i].View()));
      forall i | 0 <= i < |es|
        ensures Erase(objItems[i]) == es[i].View()
      {
        ConvertRoundTrip(es[i].View());
      }
      Payload("V9.9.3", 1, objItems)
    }

    /** `save_ovjsn` up to the file write: converts each item in turn. */
    method SaveOvjsn() returns (p: Payload)
      ensures p == SavedPayload()
    {
      var converted: seq<Json> := [];
      var es := items.elems;
      for i := 0 to |es|
        invariant |converted| == i
        invariant forall j :: 0 <= j < i ==> converted[j] == Convert(es[j].View())
      {
        var j := ObjToJson(es[i].View());
        converted := converted + [j];
      }
      p := Payload("V9.9.3", 1, converted);
    }
  }

  /** A manager built on a list shares it: appending through the manager is seen by the list's other holder. */
  method SharedListGrows(list: ItemList, item: Item) returns (m: ItemManager)
    modifies list
    ensures m.items == list
    ensures list.elems == old(list.elems) + [item]
  {
    m := new ItemManager(list);
    m.AddItem(item);
  }
}
