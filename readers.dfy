/**
 * The JSON readers: safeArr, which finds the record list inside a loaded
 * root, and read_json_buildings / read_json_hospitals /
 * read_json_governments, which turn every record into the (address, name,
 * details) payload of a Building, Hospital or Government and append it to
 * the matching scene list.
 */
module Readers {

  import opened Wrappers
  import opened JsonValue

  // ---------------------------------------------------------------------------
  // safeArr
  // ---------------------------------------------------------------------------

  /** The first array-valued field in enumeration order, or [] when there is none. */
  function FirstArrayField(fields: seq<(string, Json)>): Json
  {
    if fields == [] then Arr([])
    else if fields[0].1.Arr? then fields[0].1
    else FirstArrayField(fields[1..])
  }

  /** What safeArr(root, key) returns: its four guarded returns and its default. */
  function Records(root: Json, key: string): Json
  {
    if !Truthy(root) then Arr([])
    else if Truthy(Member(root, key)) then Member(root, key)
    else if root.Arr? then root
    else if root.Obj? then FirstArrayField(root.fields)
    else Arr([])
  }

  method SafeArr(root: Json, key: string) returns (r: Json)
    ensures r == Records(root, key)
  {
    if !Truthy(root) {
      return Arr([]);
    }
    if Truthy(Member(root, key)) {
      return Member(root, key);
    }
    if root.Arr? {
      return root;
    }
    if root.Obj? {
      var fields := root.fields;
      var i := 0;
      while i < |fields|
        invariant i <= |fields|
        invariant FirstArrayField(fields) == FirstArrayField(fields[i..])
      {
        if fields[i].1.Arr? {
          return fields[i].1;
        }
        assert fields[i..][1..] == fields[i + 1..];
        i := i + 1;
      }
    }
    return Arr([]);
  }

  /** The field the search returns is the first array-valued one. */
  lemma {:induction false} FirstArrayFieldAt(fields: seq<(string, Json)>, i: nat)
    requires i < |fields| && fields[i].1.Arr?
    requires forall j :: 0 <= j < i ==> !fields[j].1.Arr?
    ensures FirstArrayField(fields) == fields[i].1
  {
    if i > 0 {
      FirstArrayFieldAt(fields[1..], i - 1);
    }
  }

  /** With no array-valued field the search falls through to []. */
  lemma {:induction false} NoArrayField(fields: seq<(string, Json)>)
    requires forall j :: 0 <= j < |fields| ==> !fields[j].1.Arr?
    ensures FirstArrayField(fields) == Arr([])
  {
    if fields != [] {
      NoArrayField(fields[1..]);
    }
  }

  /**
   * safeArr returns an array, unless the keyed member itself is truthy: that
   * member is returned as it is, whatever its type.
   */
  lemma {:induction false} RecordsArrayUnlessKeyed(root: Json, key: string)
    ensures Records(root, key).Arr? || (Truthy(root) && Records(root, key) == Member(root, key))
  {
    if Truthy(root) && !Truthy(Member(root, key)) && root.Obj? {
      FirstArrayFieldIsArray(root.fields);
    }
  }

  lemma {:induction false} FirstArrayFieldIsArray(fields: seq<(string, Json)>)
    ensures FirstArrayField(fields).Arr?
  {
    if fields != [] && !fields[0].1.Arr? {
      FirstArrayFieldIsArray(fields[1..]);
    }
  }

  // ---------------------------------------------------------------------------
  // Records to payloads
  // ---------------------------------------------------------------------------

  /** A point coordinate; anything that is not a JSON number reads as NotANumber. */
  datatype Coord = Number(v: real) | NotANumber

  datatype Point = Point(x: Coord, y: Coord, z: Coord)

  /** One storey slab: its lower ring and its upper ring. */
  datatype Detail = Detail(downPoints: seq<Point>, upPoints: seq<Point>)

  /** The arguments of the Building, Hospital and Government constructors. */
  datatype Structure = Structure(address: Json, name: Json, details: seq<Detail>)

  /** How far down points are raised in y. */
  const Lift: real := 0.01

  /** p[i] as a coordinate: an array element, or an object's field named by the index. */
  function CoordAt(p: Json, i: nat): Coord
    requires i < 3
  {
    var e :=
      if p.Arr? then (if i < |p.items| then p.items[i] else Undefined)
      else if p.Obj? then Lookup(p.fields, ["0", "1", "2"][i])
      else Undefined;
    if e.Num? then Number(e.n) else NotANumber
  }

  function Raised(c: Coord): Coord
  {
    match c
    case Number(v) => Number(v + Lift)
    case NotANumber => NotANumber
  }

  /** new Point(p[0], p[1] + 0.01, p[2]) when lifted, new Point(p[0], p[1], p[2]) otherwise. */
  function ToPoint(p: Json, lifted: bool): Point
  {
    Point(CoordAt(p, 0), if lifted then Raised(CoordAt(p, 1)) else CoordAt(p, 1), CoordAt(p, 2))
  }

  /**
   * (v || []).map(p => new Point(...)); None where it throws: a truthy v that
   * is not an array has no map, and a null or undefined point cannot be indexed.
   */
  function ToPoints(v: Json, lifted: bool): Option<seq<Point>>
  {
    var list := Or(v, Arr([]));
    if !list.Arr? || exists i :: 0 <= i < |list.items| && !Dereferenceable(list.items[i]) then None
    else Some(seq(|list.items|, i requires 0 <= i < |list.items| => ToPoint(list.items[i], lifted)))
  }

  /** new Detail(down, up) for one entry of details; None where reading it throws. */
  function ToDetail(det: Json): Option<Detail>
  {
    if !Dereferenceable(det) then None
    else
      match (ToPoints(Member(det, "down_points"), true), ToPoints(Member(det, "up_points"), false))
      case (Some(down), Some(up)) => Some(Detail(down, up))
      case _ => None
  }

  /** All entries of details in order; None as soon as one throws. */
  function ToDetails(dets: seq<Json>): Option<seq<Detail>>
  {
    if dets == [] then Some([])
    else
      match (ToDetail(dets[0]), ToDetails(dets[1..]))
      case (Some(d), Some(ds)) => Some([d] + ds)
      case _ => None
  }

  /** The payload built for one record, with "" and [] standing in for falsy fields. */
  function ToStructure(b: Json): Option<Structure>
  {
    if !Dereferenceable(b) then None
    else
      var dets := Iterate(Or(Member(b, "details"), Arr([])));
      if dets.None? then None
      else
        match ToDetails(dets.value)
        case None => None
        case Some(ds) => Some(Structure(Or(Member(b, "address"), Str("")), Or(Member(b, "name"), Str("")), ds))
  }

  function Prepend<T>(pre: seq<T>, o: Option<seq<T>>): Option<seq<T>>
  {
    if o.None? then None else Some(pre + o.value)
  }

  lemma PrependNothing<T>(o: Option<seq<T>>)
    ensures Prepend([], o) == o
  {
    if o.Some? {
      assert [] + o.value == o.value;
    }
  }

  lemma PrependTwice<T>(a: seq<T>, b: seq<T>, o: Option<seq<T>>)
    ensures Prepend(a, Prepend(b, o)) == Prepend(a + b, o)
  {
    if o.Some? {
      assert a + (b + o.value) == (a + b) + o.value;
    }
  }

  /** One pass of a reader's outer loop: the record's details loop and the payload. */
  method ReadStructure(b: Json) returns (s: Option<Structure>)
    ensures s == ToStructure(b)
  {
    if !Dereferenceable(b) {
      return None;
    }
    var address := Or(Member(b, "address"), Str(""));
    var name := Or(Member(b, "name"), Str(""));
    var jsonDetails := Iterate(Or(Member(b, "details"), Arr([])));
    if jsonDetails.None? {
      return None;
    }
    var dets := jsonDetails.value;
    var details: seq<Detail> := [];
    assert dets[0..] == dets;
    PrependNothing(ToDetails(dets));
    for i := 0 to |dets|
      invariant ToDetails(dets) == Prepend(details, ToDetails(dets[i..]))
    {
      assert dets[i..][0] == dets[i] && dets[i..][1..] == dets[i + 1..];
      var d := ToDetail(dets[i]);
      if d.None? {
        return None;
      }
      PrependTwice(details, [d.value], ToDetails(dets[i + 1..]));
      details := details + [d.value];
    }
    assert dets[|dets|..] == [] && details + [] == details;
    return Some(Structure(address, name, details));
  }

  // ---------------------------------------------------------------------------
  // The readers
  // ---------------------------------------------------------------------------

  /** The payloads a reader appends, and whether a TypeError ended its loop early. */
  datatype Loaded = Loaded(records: seq<Structure>, fault: bool)

  function After(pre: seq<Structure>, l: Loaded): Loaded
  {
    Loaded(pre + l.records, l.fault)
  }

  lemma AfterTwice(a: seq<Structure>, b: seq<Structure>, l: Loaded)
    ensures After(a, After(b, l)) == After(a + b, l)
  {
    assert a + (b + l.records) == (a + b) + l.records;
  }

  /** Records are converted in order; the first one that throws stops the loop. */
  function LoadAll(items: seq<Json>): Loaded
  {
    if items == [] then Loaded([], false)
    else
      match ToStructure(items[0])
      case None => Loaded([], true)
      case Some(s) => After([s], LoadAll(items[1..]))
  }

  /** What a reader appends for the root and its key; a non-iterable record list throws at once. */
  function Load(root: Json, key: string): Loaded
  {
    match Iterate(Records(root, key))
    case None => Loaded([], true)
    case Some(items) => LoadAll(items)
  }

  /** The loop shared by read_json_buildings, read_json_hospitals and read_json_governments. */
  method ReadRecords(root: Json, key: string) returns (l: Loaded)
    ensures l == Load(root, key)
  {
    var arr := SafeArr(root, key);
    var iterated := Iterate(arr);
    if iterated.None? {
      return Loaded([], true);
    }
    var items := iterated.value;
    var records: seq<Structure> := [];
    assert items[0..] == items && [] + LoadAll(items).records == LoadAll(items).records;
    for i := 0 to |items|
      invariant LoadAll(items) == After(records, LoadAll(items[i..]))
    {
      assert items[i..][0] == items[i] && items[i..][1..] == items[i + 1..];
      var s := ReadStructure(items[i]);
      if s.None? {
        assert LoadAll(items[i..]) == Loaded([], true);
        assert records + [] == records;
        return Loaded(records, true);
      }
      AfterTwice(records, [s.value], LoadAll(items[i + 1..]));
      records := records + [s.value];
    }
    assert items[|items|..] == [] && records + [] == records;
    return Loaded(records, false);
  }

  /** The scene lists the three readers fill. */
  class Scene {
    var buildings: seq<Structure>
    var hospitals: seq<Structure>
    var governments: seq<Structure>

    constructor ()
      ensures buildings == [] && hospitals == [] && governments == []
    {
      buildings, hospitals, governments := [], [], [];
    }

    /** read_json_buildings; `fault` says a TypeError escaped after the records before it were pushed. */
    method ReadBuildings(root: Json) returns (fault: bool)
      modifies this
      ensures buildings == old(buildings) + Load(root, "buildings").records
      ensures fault == Load(root, "buildings").fault
      ensures hospitals == old(hospitals) && governments == old(governments)
    {
      var l := ReadRecords(root, "buildings");
      buildings := buildings + l.records;
      fault := l.fault;
    }

    method ReadHospitals(root: Json) returns (fault: bool)
      modifies this
      ensures hospitals == old(hospitals) + Load(root, "hospitals").records
      ensures fault == Load(root, "hospitals").fault
      ensures buildings == old(buildings) && governments == old(governments)
    {
      var l := ReadRecords(root, "hospitals");
      hospitals := hospitals + l.records;
      fault := l.fault;
    }

    method ReadGovernments(root: Json) returns (fault: bool)
      modifies this
      ensures governments == old(governments) + Load(root, "governments").records
      ensures fault == Load(root, "governments").fault
      ensures buildings == old(buildings) && hospitals == old(hospitals)
    {
      var l := ReadRecords(root, "governments");
      governments := governments + l.records;
      fault := l.fault;
    }
  }

  // ---------------------------------------------------------------------------
  // Properties of the readers
  // ---------------------------------------------------------------------------

  /**
   * A reader appends one payload per record, in input order, up to the
   * first record that throws; it faults exactly when it stops early.
   */
  lemma {:induction false} LoadAllInOrder(items: seq<Json>)
    ensures |LoadAll(items).records| <= |items|
    ensures forall k :: 0 <= k < |LoadAll(items).records| ==> ToStructure(items[k]) == Some(LoadAll(items).records[k])
    ensures LoadAll(items).fault <==> |LoadAll(items).records| < |items|
    ensures LoadAll(items).fault ==> ToStructure(items[|LoadAll(items).records|]).None?
  {
    if items != [] && ToStructure(items[0]).Some? {
      LoadAllInOrder(items[1..]);
    }
  }

  /**
   * The down ring is read like the up ring and then raised by 0.01 in y:
   * both readings throw or neither does, and x and z are untouched.
   */
  lemma RaisedReading(v: Json)
    ensures ToPoints(v, true).Some? <==> ToPoints(v, false).Some?
    ensures ToPoints(v, true).Some? ==>
      var down, up := ToPoints(v, true).value, ToPoints(v, false).value;
      |down| == |up| && forall i :: 0 <= i < |down| ==> down[i] == Point(up[i].x, Raised(up[i].y), up[i].z)
  {
  }

  /** A numeric [x, y, z] triple becomes (x, y + 0.01, z) as a down point and (x, y, z) as an up point. */
  lemma NumericPoint(x: real, y: real, z: real)
    ensures ToPoint(Arr([Num(x), Num(y), Num(z)]), true) == Point(Number(x), Number(y + 0.01), Number(z))
    ensures ToPoint(Arr([Num(x), Num(y), Num(z)]), false) == Point(Number(x), Number(y), Number(z))
  {
  }

  /** Missing fields take their defaults: "" for address and name, [] for details and point lists. */
  lemma MissingFieldsDefault()
    ensures ToStructure(Obj([])) == Some(Structure(Str(""), Str(""), []))
    ensures ToDetail(Obj([])) == Some(Detail([], []))
  {
    assert Or(Undefined, Arr([])) == Arr([]);
    assert |ToPoints(Undefined, true).value| == 0 && |ToPoints(Undefined, false).value| == 0;
  }

  /** The details are read element by element, in order, and all of them or none. */
  lemma {:induction false} ToDetailsInOrder(dets: seq<Json>)
    ensures ToDetails(dets).Some? <==> forall i :: 0 <= i < |dets| ==> ToDetail(dets[i]).Some?
    ensures ToDetails(dets).Some? ==>
      |ToDetails(dets).value| == |dets| && forall i :: 0 <= i < |dets| ==> ToDetails(dets).value[i] == ToDetail(dets[i]).value
  {
    if dets != [] {
      ToDetailsInOrder(dets[1..]);
      assert forall i :: 1 <= i < |dets| ==> dets[i] == dets[1..][i - 1];
    }
  }

  /**
   * Any falsy field of a record or detail object takes its default: "" for
   * address and name, no details, and an empty ring for a falsy point list;
   * a truthy address or name is kept as it is.
   */
  lemma FalsyFieldsDefault(obj: Json)
    requires Dereferenceable(obj)
    ensures !Truthy(Member(obj, "details")) ==> ToStructure(obj).Some? && ToStructure(obj).value.details == []
    ensures ToStructure(obj).Some? ==>
      && ToStructure(obj).value.address == (if Truthy(Member(obj, "address")) then Member(obj, "address") else Str(""))
      && ToStructure(obj).value.name == (if Truthy(Member(obj, "name")) then Member(obj, "name") else Str(""))
    ensures !Truthy(Member(obj, "down_points")) ==> ToPoints(Member(obj, "down_points"), true) == Some([])
    ensures !Truthy(Member(obj, "up_points")) ==> ToPoints(Member(obj, "up_points"), false) == Some([])
  {
    if !Truthy(Member(obj, "details")) {
      assert Or(Member(obj, "details"), Arr([])) == Arr([]);
    }
    if !Truthy(Member(obj, "down_points")) {
      assert |ToPoints(Member(obj, "down_points"), true).value| == 0;
    }
    if !Truthy(Member(obj, "up_points")) {
      assert |ToPoints(Member(obj, "up_points"), false).value| == 0;
    }
  }
}
