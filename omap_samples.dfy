/**
 * The map-object classes of `reviutils/omap/samples/main.py`: the checks a
 * `Polyline` makes on its arguments, the folder tree built by
 * `FolderDetail.add_child` and `Folder.add_child`, and `obj_to_json`, which
 * turns an object's attributes into nested dictionaries and lists.
 *
 * An item (`ItemBase`) is a class whose `ParentID` is updated in place; its
 * id, type, object and timestamp are fixed when it is built. The random id of
 * `create_obj_id` and the clock of `tmModify` are constructor parameters.
 */
module OmapSamples {
  import opened PyCore

  // ---------------------------------------------------------------------
  // Polyline

  /** The parts of a `PolylineTypes` member that the constructor reads. */
  datatype PolylineType = PolylineType(lengthMin: int, lengthMax: int, showType: int, mtp: int)

  /** The validated fields of the `PolylineDetail` and `TrackDrawObject` that a Polyline holds. */
  datatype PolylineData = PolylineData(
    mtp: int, latlng: seq<real>, showType: int, lineClr: int, lineWidth: int, lineAlpha: int,
    gcj02: bool, showName: bool, edit: bool, parentId: int)

  /**
   * `Polyline.__init__` up to the object it builds: an odd coordinate count is
   * a ValueError, a count outside the type's bounds an AssertionError, and a
   * line width or alpha that `TrackDrawObject`'s field constraints refuse a
   * pydantic ValidationError.
   */
  function NewPolyline(
    ptype: PolylineType, latlng: seq<real>, gcj02: bool, lineClr: int, lineWidth: int,
    lineAlpha: int, showName: bool, edit: bool, parentId: int): (r: Result<PolylineData>)
    ensures |latlng| % 2 != 0 ==> r == Err(ValueError)
    ensures |latlng| % 2 == 0 && !(2 * ptype.lengthMin <= |latlng| <= 2 * ptype.lengthMax) ==>
      r == Err(AssertionError)
    ensures r.Err? && r.error == ValidationError <==>
      |latlng| % 2 == 0 && 2 * ptype.lengthMin <= |latlng| <= 2 * ptype.lengthMax &&
      !(lineWidth > 0 && 0 <= lineAlpha <= 100)
    ensures r.Ok? ==>
      && r.value.latlng == latlng && r.value.lineWidth == lineWidth && r.value.lineAlpha == lineAlpha
      && r.value.mtp == ptype.mtp && r.value.showType == ptype.showType
  {
    if |latlng| % 2 != 0 then Err(ValueError)
    else if !(|latlng| >= ptype.lengthMin * 2 && |latlng| <= ptype.lengthMax * 2) then Err(AssertionError)
    else if !(lineWidth > 0) || !(0 <= lineAlpha <= 100) then Err(ValidationError)
    else Ok(PolylineData(ptype.mtp, latlng, ptype.showType, lineClr, lineWidth, lineAlpha,
                         gcj02, showName, edit, parentId))
  }

  /** A polyline is built exactly when all checks pass, and then it holds between `lengthMin` and `lengthMax` points. */
  lemma PolylineAcceptedIff(
    ptype: PolylineType, latlng: seq<real>, gcj02: bool, lineClr: int, lineWidth: int,
    lineAlpha: int, showName: bool, edit: bool, parentId: int)
    ensures NewPolyline(ptype, latlng, gcj02, lineClr, lineWidth, lineAlpha, showName, edit, parentId).Ok? <==>
      |latlng| % 2 == 0 && 2 * ptype.lengthMin <= |latlng| <= 2 * ptype.lengthMax &&
      lineWidth > 0 && 0 <= lineAlpha <= 100
    ensures NewPolyline(ptype, latlng, gcj02, lineClr, lineWidth, lineAlpha, showName, edit, parentId).Ok? ==>
      ptype.lengthMin <= |latlng| / 2 <= ptype.lengthMax
  {
  }

  /** The parity check comes first: an odd count fails with ValueError whatever the bounds. */
  lemma OddCountBeforeBounds(ptype: PolylineType)
    requires ptype.lengthMin > 1
    ensures NewPolyline(ptype, [1.0], false, 0, 1, 100, false, false, 1) == Err(ValueError)
    ensures NewPolyline(ptype, [1.0, 2.0], false, 0, 1, 100, false, false, 1) == Err(AssertionError)
  {
  }

  // ---------------------------------------------------------------------
  // Object views and obj_to_json

  /** A value that is neither a model nor a list: copied as it is. */
  datatype Scalar = Int(i: int) | Real(x: real) | Str(s: string) | Bool(b: bool) | NoneValue

  /**
   * An attribute value as `obj_to_json` sees it: an object of one of the model
   * classes with its `__dict__` in insertion order, a list, a dictionary, or a scalar.
   */
  datatype Value =
    | Model(fields: seq<(string, Value)>)
    | List(elems: seq<Value>)
    | Dict(entries: seq<(string, Value)>)
    | Atom(a: Scalar)

  /** The result: dictionaries and lists that `obj_to_json` built, or a value it copied unchanged. */
  datatype Json =
    | JObject(members: seq<(string, Json)>)
    | JList(items: seq<Json>)
    | JRaw(v: Value)

  /**
   * What `obj_to_json` makes of an attribute value: a model recursively, a list
   * element by element (models converted, everything else copied, nested lists
   * included), anything else copied.
   */
  function Convert(v: Value): Json
    decreases v
  {
    match v
    case Model(fs) =>
      JObject(seq(|fs|, i requires 0 <= i < |fs| => (fs[i].0, Convert(fs[i].1))))
    case List(es) =>
      JList(seq(|es|, i requires 0 <= i < |es| => if es[i].Model? then Convert(es[i]) else JRaw(es[i])))
    case _ => JRaw(v)
  }

  /** The reference inverse: read the converted structure back as the value it came from. */
  function Erase(j: Json): Value
    decreases j
  {
    match j
    case JObject(ms) => Model(seq(|ms|, i requires 0 <= i < |ms| => (ms[i].0, Erase(ms[i].1))))
    case JList(js) => List(seq(|js|, i requires 0 <= i < |js| => Erase(js[i])))
    case JRaw(v) => v
  }

  /** Converting loses nothing: reading the result back gives the object's attributes. */
  lemma {:induction false} ConvertRoundTrip(v: Value)
    ensures Erase(Convert(v)) == v
    decreases v
  {
    match v
    case Model(fs) =>
      var ms := Convert(v).members;
      forall i | 0 <= i < |fs|
        ensures (ms[i].0, Erase(ms[i].1)) == fs[i]
      {
        ConvertRoundTrip(fs[i].1);
      }
    case List(es) =>
      var js := Convert(v).items;
      forall i | 0 <= i < |es|
        ensures Erase(js[i]) == es[i]
      {
        if es[i].Model? {
          ConvertRoundTrip(es[i]);
        }
      }
    case _ =>
  }

  /** The keys of the result are the object's attribute names, in the same order. */
  lemma ConvertKeys(fs: seq<(string, Value)>)
    ensures |Convert(Model(fs)).members| == |fs|
    ensures forall i :: 0 <= i < |fs| ==> Convert(Model(fs)).members[i].0 == fs[i].0
  {
  }

  /**
   * Models nested directly in attributes or list elements are all converted: the
   * result copies a model unchanged only from inside a list nested in a list.
   */
  predicate NoRawModel(j: Json)
    decreases j
  {
    match j
    case JObject(ms) => forall i :: 0 <= i < |ms| ==> NoRawModel(ms[i].1)
    case JList(js) => forall i :: 0 <= i < |js| ==> !(js[i].JRaw? && js[i].v.Model?) && NoRawModel(js[i])
    case JRaw(v) => !v.Model?
  }

  lemma {:induction false} ConvertLeavesNoRawModel(v: Value)
    ensures NoRawModel(Convert(v))
    decreases v
  {
    match v
    case Model(fs) =>
      forall i | 0 <= i < |fs| ensures NoRawModel(Convert(fs[i].1)) {
        ConvertLeavesNoRawModel(fs[i].1);
      }
    case List(es) =>
      forall i | 0 <= i < |es| && es[i].Model? ensures NoRawModel(Convert(es[i])) {
        ConvertLeavesNoRawModel(es[i]);
      }
    case _ =>
  }

  /** A list of lists is copied as it is, so a model inside it stays an object. */
  lemma NestedListCopied()
    ensures Convert(Model([("a", List([List([Model([])])]))])) ==
      JObject([("a", JList([JRaw(List([Model([])]))]))])
  {
    var inner := List([Model([])]);
    assert Convert(List([inner])) == JList([JRaw(inner)]);
  }

  /** `obj_to_json(obj)`: builds the result dictionary attribute by attribute. */
  method ObjToJson(obj: Value) returns (r: Json)
    requires obj.Model?
    ensures r == Convert(obj)
    decreases obj
  {
    var fs := obj.fields;
    var result: seq<(string, Json)> := [];
    for i := 0 to |fs|
      invariant |result| == i
      invariant forall j :: 0 <= j < i ==> result[j] == (fs[j].0, Convert(fs[j].1))
    {
      var (k, v) := fs[i];
      assert fs[i] in fs;
      if v.Model? {
        var sub := ObjToJson(v);
        result := result + [(k, sub)];
      } else if v.List? {
        var items: seq<Json> := [];
        for j := 0 to |v.elems|
          invariant |items| == j
          invariant forall m :: 0 <= m < j ==>
            items[m] == if v.elems[m].Model? then Convert(v.elems[m]) else JRaw(v.elems[m])
        {
          var item := v.elems[j];
          assert item in v.elems;
          if item.Model? {
            var sub := ObjToJson(item);
            items := items + [sub];
          } else {
            items := items + [JRaw(item)];
          }
        }
        assert JList(items) == Convert(v);
        result := result + [(k, JList(items))];
      } else {
        result := result + [(k, JRaw(v))];
      }
    }
    r := JObject(result);
  }

  // ---------------------------------------------------------------------
  // Items and folders

  /** `FolderDetail`: the list `ObjChildren` of a folder's items. */
  class FolderDetail {
    var children: seq<Item>

    constructor ()
      ensures children == []
    {
      children := [];
    }

    /** The `Child` property. */
    function Child(): nat
      reads this
    {
      |children|
    }

    /** `add_child`: appends an item, or the items of a list in order, or raises for anything else. */
    method AddChild(c: ChildArg) returns (r: Result<()>)
      modifies this
      ensures children == old(children) + Flatten(c).added
      ensures Child() == old(Child()) + |Flatten(c).added|
      ensures r.Err? <==> Flatten(c).failed
      ensures r.Err? ==> r.error == NotImplementedError
      decreases c
    {
      match c
      case ItemArg(it) =>
        children := children + [it];
        r := Ok(());
      case OtherArg(_) =>
        r := Err(NotImplementedError);
      case ListArg(es) =>
        for i := 0 to |es|
          invariant !FlattenPrefix(es, i).failed
          invariant children == old(children) + FlattenPrefix(es, i).added
        {
          assert es[i] in es;
          var sub := AddChild(es[i]);
          if sub.Err? {
            FlattenPrefixStops(es, i + 1, |es|);
            return sub;
          }
        }
        r := Ok(());
    }
  }

  /** `ItemBase`, with `Object.ObjectDetail` when the item is a `Folder`. */
  class Item {
    const objId: int
    var parentId: int
    const typeId: int
    /** The view of `Object`, taken when the item is built. */
    const obj: Value
    const tmModify: string
    /** The `FolderDetail` of a `Folder`, `null` for every other item. */
    const folder: FolderDetail?

    constructor (objId: int, parentId: int, typeId: int, obj: Value, tmModify: string, folder: FolderDetail?)
      ensures this.objId == objId && this.parentId == parentId && this.typeId == typeId
      ensures this.obj == obj && this.tmModify == tmModify && this.folder == folder
    {
      this.objId := objId;
      this.parentId := parentId;
      this.typeId := typeId;
      this.obj := obj;
      this.tmModify := tmModify;
      this.folder := folder;
    }

    /** The item's `__dict__`, in the order `ItemBase.__init__` sets it. */
    function View(): (v: Value)
      reads this
      ensures v.Model? && |v.fields| == 5
    {
      Model([("ObjID", Atom(Int(objId))), ("ParentID", Atom(Int(parentId))), ("Type", Atom(Int(typeId))),
             ("Object", obj), ("tmModify", Atom(Str(tmModify)))])
    }

    /**
     * `Folder.add_child`: sets `ParentID` on the child, or on each element of a
     * list, then hands the child to the folder's detail and returns the folder.
     * Setting the attribute on a list raises AttributeError, and on any other
     * value that refuses it raises that value's error; the elements set before
     * it keep their new parent.
     */
    method AddChild(c: ChildArg) returns (r: Result<Item>)
      requires folder != null
      modifies folder, TopItems(c)
      ensures forall it :: it in Assigned(c) ==> it.parentId == objId
      ensures forall it :: it in TopItems(c) - Assigned(c) ==> it.parentId == old(it.parentId)
      ensures Refused(c) ==> r == Err(RefusedError(c)) && folder.children == old(folder.children)
      ensures !Refused(c) ==> folder.children == old(folder.children) + Flatten(c).added
      ensures !Refused(c) ==> (r.Ok? <==> !Flatten(c).failed)
      ensures !Refused(c) && r.Err? ==> r.error == NotImplementedError
      ensures r.Ok? ==> r.value == this
    {
      match c {
      case ItemArg(it) =>
        it.parentId := objId;
      case OtherArg(refusal) =>
        if refusal.Some? {
          return Err(refusal.value);
        }
      case ListArg(es) =>
        for i := 0 to |es|
          invariant forall j :: 0 <= j < i ==> !Refuses(es[j])
          invariant forall it :: it in AssignedUpTo(es, i) ==> it.parentId == objId
          invariant forall it :: it in TopItems(c) - AssignedUpTo(es, i) ==> it.parentId == old(it.parentId)
          invariant folder.children == old(folder.children)
        {
          if es[i].ItemArg? {
            es[i].item.parentId := objId;
            assert AssignedUpTo(es, i + 1) == AssignedUpTo(es, i) + {es[i].item};
          } else if Refuses(es[i]) {
            FirstRefusingAt(es, i);
            return Err(RefusalError(es[i]));
          } else {
            assert AssignedUpTo(es, i + 1) == AssignedUpTo(es, i);
          }
        }
        FirstRefusingNone(es);
      }
      var sub := folder.AddChild(c);
      if sub.Err? {
        return Err(sub.error);
      }
      r := Ok(this);
    }
  }

  /** The argument of `add_child`, tagged by its Python type. */
  datatype ChildArg =
    | ItemArg(item: Item)
    | ListArg(elems: seq<ChildArg>)
    /**
     * Any other value, with the exception `x.ParentID = …` raises on it, if
     * any: AttributeError for a built-in such as an `int`, `str` or `None`,
     * ValueError for a pydantic model without a `ParentID` field.
     */
    | OtherArg(refusal: Option<Error>)

  /** The items `FolderDetail.add_child` appends, and whether it raised after them. */
  datatype Flat = Flat(added: seq<Item>, failed: bool)

  function Flatten(c: ChildArg): Flat
    decreases c, 1, 0
  {
    match c
    case ItemArg(it) => Flat([it], false)
    case OtherArg(_) => Flat([], true)
    case ListArg(es) => FlattenPrefix(es, |es|)
  }

  /** The effect of the first `n` elements of a list argument. */
  function FlattenPrefix(es: seq<ChildArg>, n: nat): Flat
    requires n <= |es|
    decreases ListArg(es), 0, n
  {
    if n == 0 then Flat([], false)
    else
      var init := FlattenPrefix(es, n - 1);
      if init.failed then init
      else
        assert es[n - 1] in es;
        var last := Flatten(es[n - 1]);
        Flat(init.added + last.added, last.failed)
  }

  /** Once an element raises, the later elements are never reached. */
  lemma {:induction false} FlattenPrefixStops(es: seq<ChildArg>, k: nat, n: nat)
    requires k <= n <= |es| && FlattenPrefix(es, k).failed
    ensures FlattenPrefix(es, n) == FlattenPrefix(es, k)
    decreases n
  {
    if n > k {
      FlattenPrefixStops(es, k, n - 1);
    }
  }

  /** Nested lists are flattened in order: a list of lists appends like the concatenated list. */
  lemma NestedListFlattens(a: Item, b: Item, d: Item)
    ensures Flatten(ListArg([ItemArg(a), ListArg([ItemArg(b), ItemArg(d)])])) == Flat([a, b, d], false)
  {
    var inner := [ItemArg(b), ItemArg(d)];
    assert FlattenPrefix(inner, 1) == Flat([b], false);
    assert FlattenPrefix(inner, 2) == Flat([b, d], false);
    assert Flatten(ListArg(inner)) == Flat([b, d], false);
    var outer := [ItemArg(a), ListArg(inner)];
    assert FlattenPrefix(outer, 1) == Flat([a], false);
    assert outer[1] == ListArg(inner);
    assert FlattenPrefix(outer, 2) == Flat([a] + [b, d], false);
  }

  /** An unsupported element stops the list, keeping the items before it. */
  lemma UnsupportedKeepsEarlier(a: Item, b: Item)
    ensures Flatten(ListArg([ItemArg(a), OtherArg(None), ItemArg(b)])) == Flat([a], true)
  {
    var es := [ItemArg(a), OtherArg(None), ItemArg(b)];
    assert FlattenPrefix(es, 1) == Flat([a], false);
    assert FlattenPrefix(es, 2) == Flat([a], true);
  }

  /** `x.ParentID = …` raises on `x`. */
  predicate Refuses(e: ChildArg) {
    e.ListArg? || (e.OtherArg? && e.refusal.Some?)
  }

  /** The exception `x.ParentID = …` raises on an element that refuses it. */
  function RefusalError(e: ChildArg): Error
    requires Refuses(e)
  {
    if e.ListArg? then AttributeError else e.refusal.value
  }

  /** The position of the first list element that refuses the assignment, or the length of the list. */
  function FirstRefusing(es: seq<ChildArg>): (k: nat)
    ensures k <= |es|
    ensures forall j :: 0 <= j < k ==> !Refuses(es[j])
    ensures k < |es| ==> Refuses(es[k])
  {
    if es == [] then 0
    else if Refuses(es[0]) then 0
    else 1 + FirstRefusing(es[1..])
  }

  lemma FirstRefusingAt(es: seq<ChildArg>, i: nat)
    requires i < |es| && Refuses(es[i]) && forall j :: 0 <= j < i ==> !Refuses(es[j])
    ensures FirstRefusing(es) == i
  {
  }

  lemma FirstRefusingNone(es: seq<ChildArg>)
    requires forall j :: 0 <= j < |es| ==> !Refuses(es[j])
    ensures FirstRefusing(es) == |es|
  {
  }

  /** Whether `Folder.add_child` raises while setting `ParentID`. */
  predicate Refused(c: ChildArg) {
    match c
    case ItemArg(_) => false
    case ListArg(es) => FirstRefusing(es) < |es|
    case OtherArg(refusal) => refusal.Some?
  }

  /**
   * The exception `Folder.add_child` raises while setting `ParentID`: the
   * argument's own, or that of the first list element that refuses it.
   */
  function RefusedError(c: ChildArg): (e: Error)
    requires Refused(c)
    ensures c.ListArg? ==> e == RefusalError(c.elems[FirstRefusing(c.elems)])
    ensures c.OtherArg? ==> Some(e) == c.refusal
  {
    match c
    case ListArg(es) => RefusalError(es[FirstRefusing(es)])
    case OtherArg(refusal) => refusal.value
  }

  /**
   * A pydantic model without a `ParentID` field, such as a `FolderDetail`,
   * refuses with ValueError, on its own or after the items before it in a
   * list; a nested list refuses with AttributeError.
   */
  lemma RefusalErrors(a: Item, d: Item)
    ensures RefusedError(OtherArg(Some(ValueError))) == ValueError
    ensures RefusedError(ListArg([ItemArg(a), OtherArg(Some(ValueError)), ListArg([])])) == ValueError
    ensures RefusedError(ListArg([ItemArg(a), ListArg([ItemArg(d)]), OtherArg(Some(ValueError))])) == AttributeError
  {
    var es := [ItemArg(a), OtherArg(Some(ValueError)), ListArg([])];
    FirstRefusingAt(es, 1);
    var fs := [ItemArg(a), ListArg([ItemArg(d)]), OtherArg(Some(ValueError))];
    FirstRefusingAt(fs, 1);
  }

  /** The items named at the top level of the argument. */
  function TopItems(c: ChildArg): set<Item> {
    match c
    case ItemArg(it) => {it}
    case ListArg(es) => set j | 0 <= j < |es| && es[j].ItemArg? :: es[j].item
    case OtherArg(_) => {}
  }

  function AssignedUpTo(es: seq<ChildArg>, n: nat): set<Item> {
    set j | 0 <= j < n && j < |es| && es[j].ItemArg? :: es[j].item
  }

  /** The items whose `ParentID` the folder sets before it delegates or raises. */
  function Assigned(c: ChildArg): set<Item> {
    match c
    case ItemArg(it) => {it}
    case ListArg(es) => AssignedUpTo(es, FirstRefusing(es))
    case OtherArg(_) => {}
  }

  /** The items whose parent is set are among those the argument names. */
  lemma AssignedAreTop(c: ChildArg)
    ensures Assigned(c) <= TopItems(c)
    ensures !Refused(c) ==> Assigned(c) == TopItems(c)
  {
  }
}
