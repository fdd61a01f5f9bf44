/**
 * The acoustic functional areas of GB 3096-2008 (Table 1) as kept in
 * `reviutils/noisepollution/funcarea.py`, and `get_func_area_info`, which
 * finds an area by display name or member name, by id, or by enum member.
 */
module FuncArea {
  import opened PyCore

  /** `FuncAreaInfo`: name, id, day limit and night limit in dB(A), description. */
  datatype FuncAreaInfo = FuncAreaInfo(name: string, id: int, lmtd: real, lmtn: real, desc: string)

  /** The members of the `FuncArea` enum. */
  datatype Area = F0 | F1 | F2 | F3 | F4a | F4b

  /** The members in definition order, the order in which `for func_area in FuncArea` visits them. */
  const Members: seq<Area> := [F0, F1, F2, F3, F4a, F4b]

  /** `func_area.name`. */
  function MemberName(a: Area): string {
    match a
    case F0 => "F0"
    case F1 => "F1"
    case F2 => "F2"
    case F3 => "F3"
    case F4a => "F4a"
    case F4b => "F4b"
  }

  /** The display name of each area. */
  function DisplayName(a: Area): string {
    match a
    case F0 => "0类"
    case F1 => "1类"
    case F2 => "2类"
    case F3 => "3类"
    case F4a => "4a类"
    case F4b => "4b类"
  }

  function AreaId(a: Area): int {
    match a
    case F0 => 30
    case F1 => 31
    case F2 => 32
    case F3 => 33
    case F4a => 34
    case F4b => 35
  }

  /** The daytime limit, in dB(A). */
  function DayLimit(a: Area): real {
    match a
    case F0 => 50.0
    case F1 => 55.0
    case F2 => 60.0
    case F3 => 65.0
    case F4a => 70.0
    case F4b => 70.0
  }

  /** The night-time limit, in dB(A). */
  function NightLimit(a: Area): real {
    match a
    case F0 => 40.0
    case F1 => 45.0
    case F2 => 50.0
    case F3 => 55.0
    case F4a => 55.0
    case F4b => 60.0
  }

  function Description(a: Area): string {
    match a
    case F0 => "指康复疗养区等特别需要安静的区域。"
    case F1 => "指以居民住宅、医疗卫生、文化教育、科研设计、行政办公为主要功能，需要保持安静的区域。"
    case F2 => "指以商业金融、集市贸易为主要功能，或者居住、商业、工业混杂，需要维护住宅安静的区域。"
    case F3 => "指以工业生产、仓储物流为主要功能，需要防止工业噪声对周围环境产生严重影响的区域。"
    case F4a => "指交通干线两侧一定距离之内，需要防止交通噪声对周围环境产生严重影响的区域，包括4a类和 4b类两种类型。4a类为高速公路、一级公路、二级公路、城市快速路、城市主干路、城市次干路、城市轨道交通(地面段)、内河航道两侧区域。"
    case F4b => "指交通干线两侧一定距离之内，需要防止交通噪声对周围环境产生严重影响的区域，包括4a类和 4b类两种类型。4b 类为铁路干线两侧区域。"
  }

  /** `func_area.value`. */
  function Info(a: Area): FuncAreaInfo {
    FuncAreaInfo(DisplayName(a), AreaId(a), DayLimit(a), NightLimit(a), Description(a))
  }

  /** The table lists every member once, the ids are 30 to 35 in order, and no night limit exceeds its day limit. */
  lemma TableFacts()
    ensures forall a: Area :: a in Members
    ensures forall i, j :: 0 <= i < j < |Members| ==> Members[i] != Members[j]
    ensures forall i :: 0 <= i < |Members| ==> AreaId(Members[i]) == 30 + i
    ensures forall a: Area :: NightLimit(a) <= DayLimit(a)
  {
    forall a: Area
      ensures a in Members
    {
      InMembers(a);
    }
  }

  /** Some member has id `id` exactly when `id` is one of 30 to 35. */
  lemma IdsOfTable(id: int)
    ensures (exists a :: a in Members && AreaId(a) == id) <==> 30 <= id <= 35
  {
    TableFacts();
    if 30 <= id <= 35 {
      assert Members[id - 30] in Members && AreaId(Members[id - 30]) == id;
    }
  }

  /** The argument of `get_func_area_info`, tagged by its Python type. */
  datatype AreaKey = ByName(s: string) | ById(id: int) | ByMember(a: Area) | OtherKey

  predicate NameMatches(a: Area, s: string) {
    DisplayName(a) == s || MemberName(a) == s
  }

  /** The position of the first of `areas` whose display name or member name is `s`. */
  function FindByName(areas: seq<Area>, s: string): (r: Option<nat>)
    ensures r.Some? ==> r.value < |areas| && NameMatches(areas[r.value], s)
    ensures r.Some? ==> forall j :: 0 <= j < r.value ==> !NameMatches(areas[j], s)
    ensures r.None? <==> forall a :: a in areas ==> !NameMatches(a, s)
  {
    if areas == [] then None
    else if NameMatches(areas[0], s) then Some(0)
    else
      match FindByName(areas[1..], s)
      case Some(i) => Some(i + 1)
      case None => None
  }

  /** The first of `areas` whose id is `id`. */
  function FindById(areas: seq<Area>, id: int): (r: Option<Area>)
    ensures r.Some? ==> r.value in areas && AreaId(r.value) == id
    ensures r.None? <==> forall a :: a in areas ==> AreaId(a) != id
  {
    if areas == [] then None
    else if AreaId(areas[0]) == id then Some(areas[0])
    else FindById(areas[1..], id)
  }

  function GetFuncAreaInfo(key: AreaKey): (r: Result<FuncAreaInfo>)
    ensures key.ByName? ==> (r.Ok? <==> exists a: Area :: NameMatches(a, key.s))
    ensures key.ById? ==> (r.Ok? <==> 30 <= key.id <= 35)
    ensures key.ById? && r.Ok? ==> r.value.id == key.id
    ensures key.ByMember? ==> r == Ok(Info(key.a))
    ensures (key.ByName? || key.ById?) && r.Err? ==> r.error == ValueError
    ensures key.OtherKey? ==> r == Err(NotImplementedError)
  {
    match key
    case ByName(s) =>
      TableFacts();
      (match FindByName(Members, s)
       case Some(i) => Ok(Info(Members[i]))
       case None => Err(ValueError))
    case ById(id) =>
      IdsOfTable(id);
      (match FindById(Members, id)
       case Some(a) => Ok(Info(a))
       case None => Err(ValueError))
    case ByMember(a) => Ok(Info(a))
    case OtherKey => Err(NotImplementedError)
  }

  /** Ids are unique, so an id lookup returns the one area with that id. */
  lemma IdLookupUnique(id: int, a: Area)
    requires AreaId(a) == id
    ensures GetFuncAreaInfo(ById(id)) == Ok(Info(a))
  {
    FindInTable(a);
  }

  /** Searching the table for an area's id finds that area. */
  lemma FindInTable(a: Area)
    ensures FindById(Members, AreaId(a)) == Some(a)
  {
    InMembers(a);
    FindByIdFinds(Members, a);
  }

  /** Searching a list that holds `a` for its id finds `a`, since ids are unique. */
  lemma {:induction false} FindByIdFinds(areas: seq<Area>, a: Area)
    requires a in areas
    ensures FindById(areas, AreaId(a)) == Some(a)
  {
    if AreaId(areas[0]) == AreaId(a) {
      AreaIdInjective(areas[0], a);
    } else {
      assert a in areas[1..];
      FindByIdFinds(areas[1..], a);
    }
  }

  /** Every area is listed in the table. */
  lemma InMembers(a: Area)
    ensures a in Members
  {
    match a
    case F0 => assert Members[0] == a;
    case F1 => assert Members[1] == a;
    case F2 => assert Members[2] == a;
    case F3 => assert Members[3] == a;
    case F4a => assert Members[4] == a;
    case F4b => assert Members[5] == a;
  }

  /** Different areas have different ids. */
  lemma AreaIdInjective(a: Area, b: Area)
    requires AreaId(a) == AreaId(b)
    ensures a == b
  {
  }

  /** A name lookup returns the info of the area whose display name or member name it is. */
  lemma NameLookup(a: Area, s: string)
    requires NameMatches(a, s)
    ensures GetFuncAreaInfo(ByName(s)) == Ok(Info(a))
  {
    InMembers(a);
    var i := FindByName(Members, s).value;
    NameMatchesUnique(a, Members[i], s);
  }

  /** No string names two areas: the display names and member names are all different. */
  lemma NameMatchesUnique(a: Area, b: Area, s: string)
    requires NameMatches(a, s) && NameMatches(b, s)
    ensures a == b
  {
    assert MemberName(a)[0] == 'F' && MemberName(b)[0] == 'F';
    assert DisplayName(a)[0] != 'F' && DisplayName(b)[0] != 'F';
  }

  /** A member name and its display name reach the same area. */
  lemma NameLookupExample()
    ensures GetFuncAreaInfo(ByName("F0")) == GetFuncAreaInfo(ByName("0类")) == Ok(Info(F0))
  {
    assert NameMatches(Members[0], "F0") && NameMatches(Members[0], "0类");
  }

  /** A name that is neither a display name nor a member name is refused. */
  lemma UnknownNameExample()
    ensures GetFuncAreaInfo(ByName("F5")) == Err(ValueError)
  {
    forall a: Area
      ensures !NameMatches(a, "F5")
    {
      NotNamedF5(a);
    }
  }

  /** No area is called `F5`, by display name or by member name. */
  lemma NotNamedF5(a: Area)
    ensures !NameMatches(a, "F5")
  {
    match a
    case F0 => assert MemberName(a)[1] == '0';
    case F1 => assert MemberName(a)[1] == '1';
    case F2 => assert MemberName(a)[1] == '2';
    case F3 => assert MemberName(a)[1] == '3';
    case F4a => assert |MemberName(a)| == 3;
    case F4b => assert |MemberName(a)| == 3;
  }

  /** The documented id and enum examples, and an id outside the table. */
  lemma IdLookupExamples()
    ensures GetFuncAreaInfo(ById(31)) == Ok(Info(F1))
    ensures GetFuncAreaInfo(ByMember(F2)) == Ok(Info(F2))
    ensures GetFuncAreaInfo(ById(36)) == Err(ValueError)
  {
    IdLookupUnique(31, F1);
  }
}
