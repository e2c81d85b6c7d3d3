/**
 * The Rhino connector's Chimera adapter: it writes the Chimera attribute data
 * attached to a Rhino object into Speckle `Base` objects, and reads such objects
 * back into Chimera data.  Geometry goes through the Speckle converter, a species
 * becomes an object keyed by its children's names, a list becomes an object keyed
 * `<item name>_[<position>]`, and any other value is stored as it is.
 *
 * Chimera data is modelled as values: where the adapter fills a default data tree
 * in place, the model returns the filled tree.
 */
module ChimeraAdapter {
  import opened Wrappers
  import opened SpeckleBase
  import opened ChimeraKeys

  const ChimeraObjectIdKey: string := "ChimeraId"
  const DescriptionKey: string := "Description"

  /** A native Rhino geometry held by a geometry attribute. */
  type NativeGeometry(==, !new)
  type Guid(==, !new)

  datatype Definition = Definition(name: string, description: string)

  /** One piece of Chimera data, as given by its definition. */
  datatype Data =
    | GeometryData(definition: Definition, geometry: NativeGeometry)
    | SpeciesData(definition: Definition, key: Guid, children: seq<Data>)
    | ListData(definition: Definition, itemTemplate: Data, items: seq<Data>)
    | ValueData(definition: Definition, value: Value)

  /** The Chimera data attached to one Rhino object, in the order its dictionary yields it. */
  datatype UserData = UserData(objectId: Value, data: seq<Data>)

  /**
   * What the adapter calls and cannot see: the Speckle converter in both
   * directions, the text of a Guid and `Guid.Parse` (None where it throws), and
   * the species registry, which gives the default data of a species definition or
   * None when the attribute is not a species definition.
   */
  datatype Host = Host(
    toSpeckle: NativeGeometry -> Value,
    toNative: Option<Base> -> NativeGeometry,
    guidText: Guid -> string,
    parseGuid: string -> Option<Guid>,
    emptyGuid: Guid,
    speciesDefaults: Guid -> Option<Data>)

  /** Why reading Chimera data back stops: a null object or a Guid.Parse that throws. */
  datatype ParseError = NullReference | InvalidGuid(text: string)

  /** `Guid.Parse` of a species id; the empty string never parses. */
  function GuidParse(host: Host, text: string): Option<Guid>
  {
    if text == "" then None else host.parseGuid(text)
  }

  // ----------------------------------------------------------------------------
  // Chimera to Speckle
  // ----------------------------------------------------------------------------

  /** The value a piece of Chimera data is written as. */
  function DataValue(d: Data, host: Host): Value
    decreases d, 2
  {
    match d
    case GeometryData(_, g) => host.toSpeckle(g)
    case SpeciesData(_, _, _) => Object(SpeciesObject(d, host))
    case ListData(_, _, _) => Object(ListObject(d, host))
    case ValueData(_, v) => v
  }

  /** A species' own members: its id, then its description. */
  function SpeciesHeader(s: Data, host: Host): seq<Member>
    requires s.SpeciesData?
  {
    Set(Set(NewBase.members, ChimeraObjectIdKey, Text(host.guidText(s.key))), DescriptionKey, Text(s.definition.description))
  }

  /** The writes a species makes after its header: one per child, under the child's name. */
  function ChildMembers(s: Data, host: Host): seq<Member>
    requires s.SpeciesData?
    decreases s, 0
  {
    seq(|s.children|, i requires 0 <= i < |s.children| =>
      Member(s.children[i].definition.name, DataValue(s.children[i], host)))
  }

  function SpeciesObject(s: Data, host: Host): Base
    requires s.SpeciesData?
    decreases s, 1
  {
    NewBase.(members := SetAll(SpeciesHeader(s, host), ChildMembers(s, host)))
  }

  /** The writes a list makes: item `i` under `<its name>_[i]`. */
  function ListMembers(l: Data, host: Host): seq<Member>
    requires l.ListData?
    decreases l, 0
  {
    seq(|l.items|, i requires 0 <= i < |l.items| =>
      Member(ItemKey(l.items[i].definition.name, i), DataValue(l.items[i], host)))
  }

  function ListObject(l: Data, host: Host): Base
    requires l.ListData?
    decreases l, 1
  {
    NewBase.(members := SetAll([], ListMembers(l, host)))
  }

  /** The writes for a Rhino object's data: its object id, then each datum under its name. */
  function UserDataMembers(u: UserData, host: Host): seq<Member>
  {
    [Member(ChimeraObjectIdKey, u.objectId)]
      + seq(|u.data|, i requires 0 <= i < |u.data| => Member(u.data[i].definition.name, DataValue(u.data[i], host)))
  }

  function UserDataObject(u: UserData, host: Host): Base
  {
    NewBase.(members := SetAll([], UserDataMembers(u, host)))
  }

  lemma SetAllStep(ms: seq<Member>, news: seq<Member>, i: nat)
    requires i < |news|
    ensures SetAll(ms, news[..i + 1]) == Set(SetAll(ms, news[..i]), news[i].key, news[i].value)
  {
    assert news[..i + 1][..i] == news[..i];
  }

  method ChimeraToSpeckle(cuo: UserData, host: Host) returns (chimeraBase: Base)
    ensures chimeraBase == UserDataObject(cuo, host)
  {
    ghost var news := UserDataMembers(cuo, host);
    var ms := Set(NewBase.members, ChimeraObjectIdKey, cuo.objectId);
    SetAllStep([], news, 0);
    for i := 0 to |cuo.data|
      invariant ms == SetAll([], news[..i + 1])
    {
      var data := cuo.data[i];
      var v := ChimeraDataToSpeckle(data, host);
      SetAllStep([], news, i + 1);
      ms := Set(ms, data.definition.name, v);
    }
    assert news[..|cuo.data| + 1] == news;
    chimeraBase := NewBase.(members := ms);
  }

  method ChimeraDataToSpeckle(chimeraData: Data, host: Host) returns (r: Value)
    ensures r == DataValue(chimeraData, host)
    decreases chimeraData, 2
  {
    match chimeraData
    case GeometryData(_, g) =>
      r := host.toSpeckle(g);
    case SpeciesData(_, _, _) =>
      var b := ChimeraSpeciesToSpeckle(chimeraData, host);
      r := Object(b);
    case ListData(_, _, _) =>
      var b := ChimeraListToSpeckle(chimeraData, host);
      r := Object(b);
    case ValueData(_, v) =>
      r := v;
  }

  method ChimeraSpeciesToSpeckle(speciesData: Data, host: Host) returns (chimeraBase: Base)
    requires speciesData.SpeciesData?
    ensures chimeraBase == SpeciesObject(speciesData, host)
    decreases speciesData, 1
  {
    var ms := Set(NewBase.members, ChimeraObjectIdKey, Text(host.guidText(speciesData.key)));
    ms := Set(ms, DescriptionKey, Text(speciesData.definition.description));
    ms := WriteChildren(speciesData, ms, host);
    chimeraBase := NewBase.(members := ms);
  }

  /** The loop of `ChimeraSpeciesToSpeckle`: each child written under its name. */
  method WriteChildren(speciesData: Data, ms0: seq<Member>, host: Host) returns (ms: seq<Member>)
    requires speciesData.SpeciesData?
    ensures ms == SetAll(ms0, ChildMembers(speciesData, host))
    decreases speciesData, 0
  {
    ghost var news := ChildMembers(speciesData, host);
    ms := ms0;
    for i := 0 to |speciesData.children|
      invariant ms == SetAll(ms0, news[..i])
    {
      var data := speciesData.children[i];
      var v := ChimeraDataToSpeckle(data, host);
      SetAllStep(ms0, news, i);
      ms := Set(ms, data.definition.name, v);
    }
    assert news[..|speciesData.children|] == news;
  }

  method ChimeraListToSpeckle(listData: Data, host: Host) returns (chimeraBase: Base)
    requires listData.ListData?
    ensures chimeraBase == ListObject(listData, host)
    decreases listData, 1
  {
    ghost var news := ListMembers(listData, host);
    var ms := NewBase.members;
    for i := 0 to |listData.items|
      invariant ms == SetAll([], news[..i])
    {
      var data := listData.items[i];
      var v := ChimeraDataToSpeckle(data, host);
      SetAllStep([], news, i);
      ms := Set(ms, ItemKey(data.definition.name, i), v);
    }
    assert news[..|listData.items|] == news;
    chimeraBase := NewBase.(members := ms);
  }

  /** A list object holds exactly one member per item, named after the item and its position, in order. */
  lemma ListObjectMembers(l: Data, host: Host)
    requires l.ListData?
    ensures ListObject(l, host).members == ListMembers(l, host)
    ensures |ListObject(l, host).members| == |l.items|
  {
    var news := ListMembers(l, host);
    assert DistinctKeys(news) by {
      forall i, j | 0 <= i < j < |news| ensures news[i].key != news[j].key {
        if news[i].key == news[j].key {
          ItemKeyInjective(l.items[i].definition.name, i, l.items[j].definition.name, j);
        }
      }
    }
    SetAllFresh(news);
  }

  predicate DistinctNames(ds: seq<Data>)
  {
    forall i, j :: 0 <= i < j < |ds| ==> ds[i].definition.name != ds[j].definition.name
  }

  /** A species object gives each child's value under the child's name, when no two children share a name. */
  lemma SpeciesObjectChild(s: Data, host: Host, i: nat)
    requires s.SpeciesData? && i < |s.children| && DistinctNames(s.children)
    ensures Get(SpeciesObject(s, host).members, s.children[i].definition.name) == DataValue(s.children[i], host)
  {
    var news := ChildMembers(s, host);
    forall j | i < j < |news| ensures news[j].key != news[i].key {
      assert news[j].key == s.children[j].definition.name;
    }
    LatestAt(news, i);
    GetSetAll(SpeciesHeader(s, host), news, s.children[i].definition.name);
  }

  /** A species object carries the species' id text, unless a child is itself called `ChimeraId`. */
  lemma SpeciesObjectId(s: Data, host: Host)
    requires s.SpeciesData?
    requires forall i :: 0 <= i < |s.children| ==> s.children[i].definition.name != ChimeraObjectIdKey
    ensures Get(SpeciesObject(s, host).members, ChimeraObjectIdKey) == Text(host.guidText(s.key))
  {
    var news := ChildMembers(s, host);
    forall j | 0 <= j < |news| ensures news[j].key != ChimeraObjectIdKey {
      assert news[j].key == s.children[j].definition.name;
    }
    LatestAbsent(news, ChimeraObjectIdKey);
    GetSetAll(SpeciesHeader(s, host), news, ChimeraObjectIdKey);
    assert ChimeraObjectIdKey != DescriptionKey;
  }

  /** A species object carries the definition's description, unless a child is itself called `Description`. */
  lemma SpeciesObjectDescription(s: Data, host: Host)
    requires s.SpeciesData?
    requires forall i :: 0 <= i < |s.children| ==> s.children[i].definition.name != DescriptionKey
    ensures Get(SpeciesObject(s, host).members, DescriptionKey) == Text(s.definition.description)
  {
    var news := ChildMembers(s, host);
    forall j | 0 <= j < |news| ensures news[j].key != DescriptionKey {
      assert news[j].key == s.children[j].definition.name;
    }
    LatestAbsent(news, DescriptionKey);
    GetSetAll(SpeciesHeader(s, host), news, DescriptionKey);
  }

  // ----------------------------------------------------------------------------
  // Speckle to Chimera
  // ----------------------------------------------------------------------------

  /** `speckleData as Base` */
  function AsBase(v: Value): (r: Option<Base>)
    ensures r.Some? <==> v.Object?
    ensures r.Some? ==> v == Object(r.value)
  {
    if v.Object? then Some(v.b) else None
  }

  /** A position and the item parsed for it: one entry of the list's sorted dictionary. */
  datatype Entry = Entry(index: int, data: Data)

  predicate Ascending(es: seq<Entry>)
  {
    forall i, j :: 0 <= i < j < |es| ==> es[i].index < es[j].index
  }

  /** The positions the dictionary holds. */
  function Indices(es: seq<Entry>): set<int>
  {
    if es == [] then {} else {es[0].index} + Indices(es[1..])
  }

  lemma {:induction false} IndicesAt(es: seq<Entry>, x: int)
    ensures x in Indices(es) <==> exists i :: 0 <= i < |es| && es[i].index == x
  {
    if es != [] {
      IndicesAt(es[1..], x);
      if exists i :: 0 <= i < |es[1..]| && es[1..][i].index == x {
        var i :| 0 <= i < |es[1..]| && es[1..][i].index == x;
        assert es[i + 1].index == x;
      }
      if exists i :: 0 <= i < |es| && es[i].index == x {
        var i :| 0 <= i < |es| && es[i].index == x;
        if i > 0 {
          assert es[1..][i - 1].index == x;
        }
      }
    }
  }

  /** The item stored for position `k`. */
  function Lookup(es: seq<Entry>, k: int): Option<Data>
  {
    if es == [] then None
    else if es[0].index == k then Some(es[0].data)
    else Lookup(es[1..], k)
  }

  /** `parsedData[k] = d` on a dictionary kept sorted by position. */
  function Insert(es: seq<Entry>, k: int, d: Data): seq<Entry>
  {
    if es == [] then [Entry(k, d)]
    else if k < es[0].index then [Entry(k, d)] + es
    else if k == es[0].index then [Entry(k, d)] + es[1..]
    else [es[0]] + Insert(es[1..], k, d)
  }

  /** Storing an item adds its position to those the dictionary holds. */
  lemma {:induction false} InsertIndices(es: seq<Entry>, k: int, d: Data)
    ensures Indices(Insert(es, k, d)) == Indices(es) + {k}
  {
    var r := Insert(es, k, d);
    if es == [] {
    } else if k < es[0].index {
      assert r[1..] == es;
    } else if k == es[0].index {
      assert r[1..] == es[1..];
    } else {
      InsertIndices(es[1..], k, d);
      assert r[1..] == Insert(es[1..], k, d);
    }
  }

  /** Storing an item puts it at its position and leaves every other position as it was. */
  lemma {:induction false} InsertLookup(es: seq<Entry>, k: int, d: Data)
    ensures Lookup(Insert(es, k, d), k) == Some(d)
    ensures forall j :: j != k ==> Lookup(Insert(es, k, d), j) == Lookup(es, j)
  {
    var r := Insert(es, k, d);
    if es == [] {
    } else if k < es[0].index {
      assert r[1..] == es;
    } else if k == es[0].index {
      assert r[1..] == es[1..];
    } else {
      InsertLookup(es[1..], k, d);
      assert r[1..] == Insert(es[1..], k, d);
    }
  }

  /** Storing an item in a sorted dictionary keeps it sorted. */
  lemma {:induction false} InsertAscending(es: seq<Entry>, k: int, d: Data)
    requires Ascending(es)
    ensures Ascending(Insert(es, k, d))
  {
    var r := Insert(es, k, d);
    if es != [] && k > es[0].index {
      var rest := Insert(es[1..], k, d);
      assert Ascending(rest) && forall j :: 0 <= j < |rest| ==> es[0].index < rest[j].index by {
        InsertAscending(es[1..], k, d);
        InsertAbove(es[1..], k, d, es[0].index);
      }
      assert r == [es[0]] + rest;
      forall a, b | 0 <= a < b < |r| ensures r[a].index < r[b].index {
        assert r[b] == rest[b - 1];
        if a > 0 {
          assert r[a] == rest[a - 1];
        }
      }
    } else if es != [] && k == es[0].index {
      assert forall a :: 1 <= a < |r| ==> r[a] == es[a];
    } else if es != [] {
      assert forall a :: 1 <= a < |r| ==> r[a] == es[a - 1];
    }
  }

  /** Storing an item above `lo` in a dictionary whose positions are all above `lo` keeps them so. */
  lemma {:induction false} InsertAbove(es: seq<Entry>, k: int, d: Data, lo: int)
    requires lo < k && forall i :: 0 <= i < |es| ==> lo < es[i].index
    ensures forall j :: 0 <= j < |Insert(es, k, d)| ==> lo < Insert(es, k, d)[j].index
  {
    if es != [] && k > es[0].index {
      InsertAbove(es[1..], k, d, lo);
      assert Insert(es, k, d) == [es[0]] + Insert(es[1..], k, d);
    } else if es != [] && k == es[0].index {
      assert forall a :: 1 <= a < |Insert(es, k, d)| ==> Insert(es, k, d)[a] == es[a];
    } else if es != [] {
      assert forall a :: 1 <= a < |Insert(es, k, d)| ==> Insert(es, k, d)[a] == es[a - 1];
    }
  }

  /** An item beyond every position held goes at the end. */
  lemma {:induction false} InsertLast(es: seq<Entry>, k: int, d: Data)
    requires forall i :: 0 <= i < |es| ==> es[i].index < k
    ensures Insert(es, k, d) == es + [Entry(k, d)]
  {
    if es != [] {
      InsertLast(es[1..], k, d);
      assert [es[0]] + (es[1..] + [Entry(k, d)]) == es + [Entry(k, d)];
    }
  }

  /** The items of the sorted dictionary, in ascending order of position. */
  function Values(es: seq<Entry>): (r: seq<Data>)
    ensures |r| == |es|
    ensures forall i :: 0 <= i < |es| ==> r[i] == es[i].data
  {
    seq(|es|, i requires 0 <= i < |es| => es[i].data)
  }

  /** What reading a Speckle value into Chimera data of the given shape produces. */
  function ParsedData(d: Data, v: Value, host: Host): Result<Data, ParseError>
    decreases d, 3
  {
    match d
    case SpeciesData(_, _, _) => ParsedSpecies(d, AsBase(v), host)
    case ListData(_, _, _) => ParsedList(d, AsBase(v), host)
    case GeometryData(def, _) => Success(GeometryData(def, host.toNative(AsBase(v))))
    case ValueData(def, _) => Success(ValueData(def, v))
  }

  /** A species is filled child by child, each from the member named after the child. */
  function ParsedSpecies(s: Data, o: Option<Base>, host: Host): (r: Result<Data, ParseError>)
    requires s.SpeciesData?
    ensures o.None? ==> (r.Success? <==> |s.children| == 0)
    ensures r.Success? ==> r.value.SpeciesData? && r.value.definition == s.definition && r.value.key == s.key
    ensures r.Success? ==> |r.value.children| == |s.children|
    decreases s, 2
  {
    var children := ParsedChildren(s, |s.children|, o, host);
    if children.Failure? then Failure(children.error) else Success(s.(children := children.value))
  }

  /** The first `n` children of a species, filled from `o`; a null `o` fails at the first child. */
  function ParsedChildren(s: Data, n: nat, o: Option<Base>, host: Host): (r: Result<seq<Data>, ParseError>)
    requires s.SpeciesData? && n <= |s.children|
    ensures o.None? && n > 0 ==> r == Failure(NullReference)
    ensures r.Success? ==> |r.value| == n
    decreases s, 1, n
  {
    if n == 0 then Success([])
    else
      var prev := ParsedChildren(s, n - 1, o, host);
      if prev.Failure? then prev
      else if o.None? then Failure(NullReference)
      else
        var child := s.children[n - 1];
        var c := ParsedData(child, Get(o.value.members, child.definition.name), host);
        if c.Failure? then Failure(c.error) else Success(prev.value + [c.value])
  }

  /**
   * A list keeps what it held and gains, in ascending order of position, one item
   * per distinct position named among the members, parsed from the last member
   * naming it.
   */
  function ParsedList(l: Data, o: Option<Base>, host: Host): (r: Result<Data, ParseError>)
    requires l.ListData?
    ensures o.None? ==> r == Failure(NullReference)
    ensures r.Success? ==> (r.value.ListData? && r.value.definition == l.definition
      && r.value.itemTemplate == l.itemTemplate && |l.items| <= |r.value.items| && r.value.items[..|l.items|] == l.items)
    decreases l, 2
  {
    match o
    case None => Failure(NullReference)
    case Some(b) =>
      var entries := IndexedItems(l, b.members, Positions(b.members, l.definition.name), host);
      if entries.Failure? then Failure(entries.error)
      else
        assert (l.items + Values(entries.value))[..|l.items|] == l.items;
        Success(l.(items := l.items + Values(entries.value)))
  }

  /**
   * The position each member's name gives in a list called `name`: none unless
   * the name starts with the list's name and holds an integer between its last
   * `[` and its last `]`.
   */
  function Positions(ms: seq<Member>, name: string): (ps: seq<Option<int>>)
    ensures |ps| == |ms|
  {
    seq(|ms|, i requires 0 <= i < |ms| => ItemIndex(ms[i].key, name))
  }

  /**
   * What one member contributes to a list, given the position its name gives:
   * nothing when there is none, otherwise a default item parsed from its value,
   * stored at that position.
   */
  function ReadItem(l: Data, m: Member, position: Option<int>, host: Host): (r: Result<Option<Entry>, ParseError>)
    requires l.ListData?
    ensures position.None? ==> r == Success(None)
    ensures r.Success? && r.value.Some? ==> position == Some(r.value.value.index)
    decreases l, 0
  {
    match position
    case None => Success(None)
    case Some(index) =>
      var item := ParsedData(l.itemTemplate, m.value, host);
      if item.Failure? then Failure(item.error) else Success(Some(Entry(index, item.value)))
  }

  /** The sorted dictionary the members `ms`, giving positions `ps`, build, read one member after another. */
  function IndexedItems(l: Data, ms: seq<Member>, ps: seq<Option<int>>, host: Host): (r: Result<seq<Entry>, ParseError>)
    requires l.ListData? && |ps| == |ms|
    decreases l, 1, |ms|
  {
    if ms == [] then Success([])
    else
      var prev := IndexedItems(l, ms[..|ms| - 1], ps[..|ms| - 1], host);
      if prev.Failure? then prev
      else
        match ReadItem(l, ms[|ms| - 1], ps[|ms| - 1], host)
        case Failure(e) => Failure(e)
        case Success(None) => prev
        case Success(Some(e)) => Success(Insert(prev.value, e.index, e.data))
  }

  /**
   * What one member of a Rhino object's Speckle object contributes: nothing for
   * the object id member, for a member that is not an object, for an object whose
   * id is the empty Guid and for one whose id names no species definition;
   * otherwise the species definition's default data, filled from the object.  An
   * id that does not parse as a Guid, and a definition whose default data is not
   * a species, stop the reading.
   */
  function ReadSpecies(m: Member, host: Host): (r: Result<Option<Data>, ParseError>)
    ensures EqualsIgnoreCase(m.key, ChimeraObjectIdKey) || !m.value.Object? ==> r == Success(None)
    ensures r.Success? && r.value.Some? ==> r.value.value.SpeciesData?
  {
    if EqualsIgnoreCase(m.key, ChimeraObjectIdKey) || !m.value.Object? then Success(None)
    else
      var dataObject := m.value.b;
      var idText := SpeciesIdText(dataObject);
      match GuidParse(host, idText)
      case None => Failure(InvalidGuid(idText))
      case Some(attrId) =>
        if attrId == host.emptyGuid then Success(None)
        else
          match host.speciesDefaults(attrId)
          case None => Success(None)
          case Some(sData) =>
            if !sData.SpeciesData? then Failure(NullReference)
            else
              var parsed := ParsedSpecies(sData, Some(dataObject), host);
              if parsed.Failure? then Failure(parsed.error) else Success(Some(parsed.value))
  }

  /** What each member of a Rhino object's Speckle object reads as. */
  function Readings(ms: seq<Member>, host: Host): (rs: seq<Result<Option<Data>, ParseError>>)
    ensures |rs| == |ms|
  {
    seq(|ms|, i requires 0 <= i < |ms| => ReadSpecies(ms[i], host))
  }

  /** The species data that readings taken one after another give; the first failing reading stops them. */
  function Collected(rs: seq<Result<Option<Data>, ParseError>>): (r: Result<seq<Data>, ParseError>)
    ensures r.Success? ==> |r.value| <= |rs|
  {
    if rs == [] then Success([])
    else
      var prev := Collected(rs[..|rs| - 1]);
      if prev.Failure? then prev
      else
        match rs[|rs| - 1]
        case Failure(e) => Failure(e)
        case Success(None) => prev
        case Success(Some(d)) => Success(prev.value + [d])
  }

  /** The species data read from an object's members, in member order. */
  function ParsedUserData(ms: seq<Member>, host: Host): Result<seq<Data>, ParseError>
  {
    Collected(Readings(ms, host))
  }

  /** `dataObject["ChimeraId"] as string ?? string.Empty` */
  function SpeciesIdText(dataObject: Base): (r: string)
    ensures Get(dataObject.members, ChimeraObjectIdKey).Text? ==> r == Get(dataObject.members, ChimeraObjectIdKey).s
    ensures !Get(dataObject.members, ChimeraObjectIdKey).Text? ==> r == ""
  {
    match Get(dataObject.members, ChimeraObjectIdKey)
    case Text(t) => t
    case _ => ""
  }

  // Once a prefix of the members fails, the whole fold fails the same way.

  lemma IndexedItemsFailsLast(l: Data, ms: seq<Member>, ps: seq<Option<int>>, host: Host)
    requires l.ListData? && |ps| == |ms| && ms != []
    requires IndexedItems(l, ms[..|ms| - 1], ps[..|ms| - 1], host).Failure?
    ensures IndexedItems(l, ms, ps, host) == IndexedItems(l, ms[..|ms| - 1], ps[..|ms| - 1], host)
  {
  }

  lemma {:induction false} IndexedItemsFails(l: Data, ms: seq<Member>, ps: seq<Option<int>>, i: nat, host: Host)
    requires l.ListData? && |ps| == |ms| && i <= |ms| && IndexedItems(l, ms[..i], ps[..i], host).Failure?
    ensures IndexedItems(l, ms, ps, host) == IndexedItems(l, ms[..i], ps[..i], host)
    decreases |ms|
  {
    if i < |ms| {
      var n := |ms| - 1;
      assert ms[..n][..i] == ms[..i] && ps[..n][..i] == ps[..i];
      IndexedItemsFails(l, ms[..n], ps[..n], i, host);
      IndexedItemsFailsLast(l, ms, ps, host);
    } else {
      assert ms[..i] == ms && ps[..i] == ps;
    }
  }

  lemma {:induction false} ParsedChildrenFails(s: Data, n: nat, m: nat, o: Option<Base>, host: Host)
    requires s.SpeciesData? && n <= m <= |s.children| && ParsedChildren(s, n, o, host).Failure?
    ensures ParsedChildren(s, m, o, host) == ParsedChildren(s, n, o, host)
    decreases m
  {
    if n < m {
      ParsedChildrenFails(s, n, m - 1, o, host);
    }
  }

  lemma {:induction false} CollectedFails(rs: seq<Result<Option<Data>, ParseError>>, i: nat)
    requires i <= |rs| && Collected(rs[..i]).Failure?
    ensures Collected(rs) == Collected(rs[..i])
    decreases |rs|
  {
    if i < |rs| {
      var n := |rs| - 1;
      assert rs[..n][..i] == rs[..i];
      CollectedFails(rs[..n], i);
    } else {
      assert rs[..i] == rs;
    }
  }

  /** Each child of a species is read from the member named after it, in the order of the children. */
  lemma {:induction false} ParsedChildrenRead(s: Data, n: nat, o: Option<Base>, host: Host)
    requires s.SpeciesData? && n <= |s.children| && ParsedChildren(s, n, o, host).Success?
    ensures forall i :: 0 <= i < n ==> (o.Some?
      && ParsedData(s.children[i], Get(o.value.members, s.children[i].definition.name), host)
         == Success(ParsedChildren(s, n, o, host).value[i]))
    decreases n
  {
    if n > 0 {
      ParsedChildrenRead(s, n - 1, o, host);
    }
  }

  /** The positions that `ps` names. */
  function IndexSet(ps: seq<Option<int>>): set<int>
  {
    if ps == [] then {}
    else IndexSet(ps[..|ps| - 1]) + match ps[|ps| - 1] case None => {} case Some(k) => {k}
  }

  /** The last place in `ps` that names position `k`. */
  function LastNamed(ps: seq<Option<int>>, k: int): (r: Option<nat>)
    ensures r.Some? ==> r.value < |ps| && ps[r.value] == Some(k)
    ensures r.Some? ==> forall j :: r.value < j < |ps| ==> ps[j] != Some(k)
    ensures r.None? ==> forall j :: 0 <= j < |ps| ==> ps[j] != Some(k)
  {
    if ps == [] then None
    else if ps[|ps| - 1] == Some(k) then Some(|ps| - 1)
    else
      var r := LastNamed(ps[..|ps| - 1], k);
      assert forall j :: 0 <= j < |ps| - 1 ==> ps[..|ps| - 1][j] == ps[j];
      r
  }

  lemma IndexedItemsPrefix(l: Data, ms: seq<Member>, ps: seq<Option<int>>, host: Host)
    requires l.ListData? && |ps| == |ms| && ms != [] && IndexedItems(l, ms, ps, host).Success?
    ensures IndexedItems(l, ms[..|ms| - 1], ps[..|ms| - 1], host).Success?
  {
  }

  /**
   * The dictionary a list's members build is sorted by position and holds exactly
   * the positions the members name, one entry each.
   */
  lemma {:induction false} IndexedItemsSorted(l: Data, ms: seq<Member>, ps: seq<Option<int>>, host: Host)
    requires l.ListData? && |ps| == |ms| && IndexedItems(l, ms, ps, host).Success?
    ensures Ascending(IndexedItems(l, ms, ps, host).value)
    ensures Indices(IndexedItems(l, ms, ps, host).value) == IndexSet(ps)
  {
    if ms != [] {
      var n := |ms| - 1;
      IndexedItemsPrefix(l, ms, ps, host);
      IndexedItemsSorted(l, ms[..n], ps[..n], host);
      var prev := IndexedItems(l, ms[..n], ps[..n], host).value;
      match ReadItem(l, ms[n], ps[n], host)
      case Success(None) =>
      case Success(Some(e)) =>
        InsertAscending(prev, e.index, e.data);
        InsertIndices(prev, e.index, e.data);
    }
  }

  /** At each position the dictionary holds the item parsed from the last member naming it. */
  lemma {:induction false} IndexedItemsLastWins(l: Data, ms: seq<Member>, ps: seq<Option<int>>, host: Host, k: int)
    requires l.ListData? && |ps| == |ms| && IndexedItems(l, ms, ps, host).Success?
    ensures var es := IndexedItems(l, ms, ps, host).value;
      match LastNamed(ps, k)
      case None => Lookup(es, k) == None
      case Some(p) => Lookup(es, k).Some? && ParsedData(l.itemTemplate, ms[p].value, host) == Success(Lookup(es, k).value)
  {
    if ms != [] {
      var n := |ms| - 1;
      IndexedItemsPrefix(l, ms, ps, host);
      IndexedItemsLastWins(l, ms[..n], ps[..n], host, k);
      var prev := IndexedItems(l, ms[..n], ps[..n], host).value;
      if LastNamed(ps[..n], k).Some? {
        assert ms[..n][LastNamed(ps[..n], k).value] == ms[LastNamed(ps[..n], k).value];
      }
      match ReadItem(l, ms[n], ps[n], host)
      case Success(None) =>
      case Success(Some(e)) =>
        InsertLookup(prev, e.index, e.data);
    }
  }

  /** A sorted dictionary holds as many entries as distinct positions. */
  lemma {:induction false} AscendingCount(es: seq<Entry>)
    requires Ascending(es)
    ensures |Indices(es)| == |es|
  {
    if es != [] {
      AscendingCount(es[1..]);
      IndicesAt(es[1..], es[0].index);
      assert es[0].index !in Indices(es[1..]);
    }
  }

  /** The members of `ms`, giving positions `ps`, that give one. */
  function Positioned(ms: seq<Member>, ps: seq<Option<int>>): (r: seq<Member>)
    requires |ps| == |ms|
  {
    if ms == [] then []
    else Positioned(ms[..|ms| - 1], ps[..|ms| - 1]) + if ps[|ms| - 1].Some? then [ms[|ms| - 1]] else []
  }

  /** The positions those members give. */
  function Given(ps: seq<Option<int>>): (r: seq<Option<int>>)
    ensures forall i :: 0 <= i < |r| ==> r[i].Some?
  {
    if ps == [] then []
    else Given(ps[..|ps| - 1]) + if ps[|ps| - 1].Some? then [ps[|ps| - 1]] else []
  }

  lemma {:induction false} PositionedLength(ms: seq<Member>, ps: seq<Option<int>>)
    requires |ps| == |ms|
    ensures |Positioned(ms, ps)| == |Given(ps)|
  {
    if ms != [] {
      PositionedLength(ms[..|ms| - 1], ps[..|ms| - 1]);
    }
  }

  /** Members whose names give no position are passed over: dropping them reads the same list. */
  lemma {:induction false} IndexedItemsSkips(l: Data, ms: seq<Member>, ps: seq<Option<int>>, host: Host)
    requires l.ListData? && |ps| == |ms|
    ensures |Positioned(ms, ps)| == |Given(ps)|
    ensures IndexedItems(l, ms, ps, host) == IndexedItems(l, Positioned(ms, ps), Given(ps), host)
  {
    PositionedLength(ms, ps);
    if ms != [] {
      var n := |ms| - 1;
      var f := Positioned(ms[..n], ps[..n]);
      var g := Given(ps[..n]);
      IndexedItemsSkips(l, ms[..n], ps[..n], host);
      if ps[n].Some? {
        assert (f + [ms[n]])[..|f|] == f;
        assert (g + [ps[n]])[..|g|] == g;
      } else {
        assert f + [] == f && g + [] == g;
      }
    }
  }

  /**
   * Reading a list appends, after the items it held, one item per distinct position
   * the members' names give, in ascending order of position.
   */
  lemma ParsedListItems(l: Data, b: Base, host: Host)
    requires l.ListData? && ParsedList(l, Some(b), host).Success?
    ensures IndexedItems(l, b.members, Positions(b.members, l.definition.name), host).Success?
    ensures var ps := Positions(b.members, l.definition.name);
      var es := IndexedItems(l, b.members, ps, host).value;
      var items := ParsedList(l, Some(b), host).value.items;
      && items == l.items + Values(es)
      && Ascending(es) && Indices(es) == IndexSet(ps)
      && |items| == |l.items| + |IndexSet(ps)|
  {
    var ps := Positions(b.members, l.definition.name);
    IndexedItemsSorted(l, b.members, ps, host);
    AscendingCount(IndexedItems(l, b.members, ps, host).value);
  }

  /** The members of an object that the reading of a Rhino object's data does not pass over at once. */
  function Candidates(ms: seq<Member>): (r: seq<Member>)
    ensures forall i :: 0 <= i < |r| ==> !EqualsIgnoreCase(r[i].key, ChimeraObjectIdKey) && r[i].value.Object?
  {
    if ms == [] then []
    else
      var m := ms[|ms| - 1];
      Candidates(ms[..|ms| - 1]) + if EqualsIgnoreCase(m.key, ChimeraObjectIdKey) || !m.value.Object? then [] else [m]
  }

  /** The object id member, whatever the case of its name, and members that are not objects are passed over. */
  lemma {:induction false} ParsedUserDataSkips(ms: seq<Member>, host: Host)
    ensures ParsedUserData(ms, host) == ParsedUserData(Candidates(ms), host)
  {
    if ms != [] {
      var n := |ms| - 1;
      var f := Candidates(ms[..n]);
      var rs := Readings(ms, host);
      assert Collected(Readings(ms[..n], host)) == Collected(Readings(f, host)) by {
        ParsedUserDataSkips(ms[..n], host);
      }
      assert rs[..n] == Readings(ms[..n], host);
      if EqualsIgnoreCase(ms[n].key, ChimeraObjectIdKey) || !ms[n].value.Object? {
        assert f + [] == f;
      } else {
        assert Readings(f + [ms[n]], host) == Readings(f, host) + [rs[n]];
        assert (Readings(f, host) + [rs[n]])[..|f|] == Readings(f, host);
      }
    }
  }

  /** Every datum read is a species. */
  lemma {:induction false} CollectedSpecies(rs: seq<Result<Option<Data>, ParseError>>)
    requires forall i :: 0 <= i < |rs| && rs[i].Success? && rs[i].value.Some? ==> rs[i].value.value.SpeciesData?
    requires Collected(rs).Success?
    ensures forall j :: 0 <= j < |Collected(rs).value| ==> Collected(rs).value[j].SpeciesData?
  {
    if rs != [] {
      CollectedSpecies(rs[..|rs| - 1]);
    }
  }

  lemma ParsedUserDataSpecies(ms: seq<Member>, host: Host)
    requires ParsedUserData(ms, host).Success?
    ensures |ParsedUserData(ms, host).value| <= |ms|
    ensures forall j :: 0 <= j < |ParsedUserData(ms, host).value| ==> ParsedUserData(ms, host).value[j].SpeciesData?
  {
    CollectedSpecies(Readings(ms, host));
  }

  // ----------------------------------------------------------------------------
  // Reading back what was written
  // ----------------------------------------------------------------------------

  /**
   * `d` has the shape of the default data `shape`: the same definitions and
   * species ids throughout, and lists that start empty with the same item
   * template, every item of `d` having the template's shape.
   */
  predicate Conforms(d: Data, shape: Data)
    decreases d
  {
    match d
    case GeometryData(def, _) => shape.GeometryData? && shape.definition == def
    case ValueData(def, _) => shape.ValueData? && shape.definition == def
    case SpeciesData(def, key, cs) =>
      && shape.SpeciesData? && shape.definition == def && shape.key == key && |shape.children| == |cs|
      && forall i :: 0 <= i < |cs| ==> Conforms(cs[i], shape.children[i])
    case ListData(def, t, items) =>
      && shape.ListData? && shape.definition == def && shape.itemTemplate == t && shape.items == []
      && forall i :: 0 <= i < |items| ==> Conforms(items[i], t)
  }

  /**
   * What writing `d` keeps: the converter gives every geometry back, no two
   * children of a species share a name, and every list item's name starts with
   * its list's name, at positions that fit in 32 bits.
   */
  predicate Recoverable(d: Data, host: Host)
    decreases d
  {
    match d
    case GeometryData(_, g) => host.toNative(AsBase(host.toSpeckle(g))) == g
    case ValueData(_, _) => true
    case SpeciesData(_, _, cs) =>
      DistinctNames(cs) && forall i :: 0 <= i < |cs| ==> Recoverable(cs[i], host)
    case ListData(def, _, items) =>
      && |items| <= Int32Max + 1
      && forall i :: 0 <= i < |items| ==> StartsWith(items[i].definition.name, def.name) && Recoverable(items[i], host)
  }

  /** Reading what was written, into default data of the same shape, gives the data back. */
  lemma {:induction false} ParseOfWritten(d: Data, shape: Data, host: Host)
    requires Conforms(d, shape) && Recoverable(d, host)
    ensures ParsedData(shape, DataValue(d, host), host) == Success(d)
    decreases d, 3
  {
    match d
    case GeometryData(_, _) =>
    case ValueData(_, _) =>
    case SpeciesData(_, _, _) => SpeciesOfWritten(d, shape, host);
    case ListData(_, _, _) => ListOfWritten(d, shape, host);
  }

  lemma SpeciesOfWritten(d: Data, shape: Data, host: Host)
    requires d.SpeciesData? && Conforms(d, shape) && Recoverable(d, host)
    ensures ParsedData(shape, DataValue(d, host), host) == Success(d)
    decreases d, 2
  {
    var cs := d.children;
    forall i | 0 <= i < |cs|
        ensures ParsedData(shape.children[i], Get(SpeciesObject(d, host).members, shape.children[i].definition.name), host)
          == Success(cs[i])
      {
        ChildOfWritten(d, shape, host, i);
      }
    ParsedChildrenAll(shape, |cs|, SpeciesObject(d, host), host, cs);
    assert cs[..|cs|] == cs;
  }

  lemma ListOfWritten(d: Data, shape: Data, host: Host)
    requires d.ListData? && Conforms(d, shape) && Recoverable(d, host)
    ensures ParsedData(shape, DataValue(d, host), host) == Success(d)
    decreases d, 2
  {
    var o := ListObject(d, host);
    ListObjectMembers(d, host);
    WrittenPositions(d, host);
    EntriesOfWritten(d, shape, host);
    assert IndexedItems(shape, o.members, Positions(o.members, shape.definition.name), host) == Success(Enumerated(d.items));
    assert Values(Enumerated(d.items)) == d.items;
    assert shape.ListData? && shape.definition == d.definition && shape.itemTemplate == d.itemTemplate;
    assert shape.items + d.items == d.items by { assert shape.items == []; }
  }

  /** Positions that are all absent give none. */
  lemma {:induction false} GivenNone(ps: seq<Option<int>>)
    requires forall i :: 0 <= i < |ps| ==> ps[i].None?
    ensures Given(ps) == []
  {
    if ps != [] {
      GivenNone(ps[..|ps| - 1]);
    }
  }

  /**
   * Items are written under their own names but read back only under names that
   * start with the list's: a list none of whose item keys does reads back with
   * nothing added to its default items.
   */
  lemma ListOfOtherNames(d: Data, shape: Data, host: Host)
    requires d.ListData? && shape.ListData?
    requires forall i :: 0 <= i < |d.items| ==> !StartsWith(ItemKey(d.items[i].definition.name, i), shape.definition.name)
    ensures ParsedData(shape, DataValue(d, host), host) == Success(shape)
  {
    var ms := ListObject(d, host).members;
    ListObjectMembers(d, host);
    var ps := Positions(ms, shape.definition.name);
    assert forall i :: 0 <= i < |ps| ==> ps[i].None?;
    GivenNone(ps);
    IndexedItemsSkips(shape, ms, ps, host);
    assert Positioned(ms, ps) == [];
    assert shape.items + Values([]) == shape.items;
  }

  /** A list `Bars` whose one item is defined as `Rebar` reads back empty. */
  lemma RebarInBarsLost(item: Data, template: Data, description: string, host: Host)
    requires item.definition.name == "Rebar"
    ensures var d := ListData(Definition("Bars", description), template, [item]);
      ParsedData(d.(items := []), DataValue(d, host), host) == Success(d.(items := []))
  {
    var d := ListData(Definition("Bars", description), template, [item]);
    assert ItemKey("Rebar", 0)[..4] == "Reba";
    ListOfOtherNames(d, d.(items := []), host);
  }

  /** The members written for a list's items build the dictionary of those items at positions 0, 1, ... */
  lemma EntriesOfWritten(d: Data, shape: Data, host: Host)
    requires d.ListData? && Conforms(d, shape) && Recoverable(d, host)
    ensures shape.ListData?
    ensures IndexedItems(shape, ListMembers(d, host), Counting(|d.items|), host) == Success(Enumerated(d.items))
    decreases d, 1
  {
    var items := d.items;
    var n := |items|;
    var ms := ListMembers(d, host);
    var ps := Counting(n);
    forall i | 0 <= i < n ensures ReadItem(shape, ms[i], ps[i], host) == Success(Some(Entry(i, items[i]))) {
      ItemOfWritten(d, shape, host, i);
    }
    IndexedItemsAll(shape, ms, ps, host, items, n);
    assert ms[..n] == ms && ps[..n] == ps && items[..n] == items;
  }



  /** The member written for a child of a species reads back, into the child's shape, as that child. */
  lemma ChildOfWritten(d: Data, shape: Data, host: Host, i: nat)
    requires d.SpeciesData? && Conforms(d, shape) && Recoverable(d, host) && i < |d.children|
    ensures shape.SpeciesData? && |shape.children| == |d.children|
    ensures ParsedData(shape.children[i], Get(SpeciesObject(d, host).members, shape.children[i].definition.name), host)
      == Success(d.children[i])
    decreases d, 0
  {
    var child := d.children[i];
    SpeciesObjectChild(d, host, i);
    assert Conforms(child, shape.children[i]) && Recoverable(child, host);
    ParseOfWritten(child, shape.children[i], host);
  }

  /** A species whose children each read as `cs` does reads as `cs` as a whole. */
  lemma {:induction false} ParsedChildrenAll(s: Data, n: nat, o: Base, host: Host, cs: seq<Data>)
    requires s.SpeciesData? && n <= |s.children| && n <= |cs|
    requires forall i :: 0 <= i < n ==> ParsedData(s.children[i], Get(o.members, s.children[i].definition.name), host) == Success(cs[i])
    ensures ParsedChildren(s, n, Some(o), host) == Success(cs[..n])
  {
    if n > 0 {
      var child := s.children[n - 1];
      assert ParsedChildren(s, n - 1, Some(o), host) == Success(cs[..n - 1]) by {
        ParsedChildrenAll(s, n - 1, o, host, cs);
      }
      assert ParsedData(child, Get(o.members, child.definition.name), host) == Success(cs[n - 1]);
      assert cs[..n] == cs[..n - 1] + [cs[n - 1]];
    }
  }

  /** Positions 0, 1, ..., `n - 1`. */
  function Counting(n: nat): (ps: seq<Option<int>>)
    ensures |ps| == n && forall i :: 0 <= i < n ==> ps[i] == Some(i)
  {
    if n == 0 then [] else Counting(n - 1) + [Some(n - 1)]
  }

  /** The names of a written list's items give their positions, in order. */
  lemma WrittenPositions(d: Data, host: Host)
    requires d.ListData? && Recoverable(d, host)
    ensures Positions(ListMembers(d, host), d.definition.name) == Counting(|d.items|)
  {
    var ms := ListMembers(d, host);
    forall i | 0 <= i < |d.items| ensures ItemIndex(ms[i].key, d.definition.name) == Some(i) {
      assert StartsWith(d.items[i].definition.name, d.definition.name);
      ItemIndexOfItemKey(d.items[i].definition.name, d.definition.name, i);
    }
  }

  /** The member written for the item at position `i` reads back as that item, at that position. */
  lemma ItemOfWritten(d: Data, shape: Data, host: Host, i: nat)
    requires d.ListData? && Conforms(d, shape) && Recoverable(d, host) && i < |d.items|
    ensures ReadItem(shape, ListMembers(d, host)[i], Some(i), host) == Success(Some(Entry(i, d.items[i])))
    decreases d, 0
  {
    var item := d.items[i];
    assert shape.itemTemplate == d.itemTemplate && Conforms(item, d.itemTemplate) && Recoverable(item, host);
    ParseOfWritten(item, d.itemTemplate, host);
  }

  /** The items `items` at positions 0, 1, ... */
  function Enumerated(items: seq<Data>): (es: seq<Entry>)
    ensures |es| == |items| && forall i :: 0 <= i < |es| ==> es[i] == Entry(i, items[i])
  {
    if items == [] then [] else Enumerated(items[..|items| - 1]) + [Entry(|items| - 1, items[|items| - 1])]
  }

  lemma IndexedItemsStep(l: Data, ms: seq<Member>, ps: seq<Option<int>>, host: Host, e: Entry)
    requires l.ListData? && |ps| == |ms| && ms != [] && IndexedItems(l, ms[..|ms| - 1], ps[..|ms| - 1], host).Success?
    requires ReadItem(l, ms[|ms| - 1], ps[|ms| - 1], host) == Success(Some(e))
    ensures IndexedItems(l, ms, ps, host) == Success(Insert(IndexedItems(l, ms[..|ms| - 1], ps[..|ms| - 1], host).value, e.index, e.data))
  {
  }

  /** Members that read, one after another, as the items `items` at positions 0, 1, ... build the dictionary of those items. */
  lemma {:induction false} IndexedItemsAll(l: Data, ms: seq<Member>, ps: seq<Option<int>>, host: Host, items: seq<Data>, n: nat)
    requires l.ListData? && |ps| == |ms| && n <= |ms| && n <= |items|
    requires forall i :: 0 <= i < n ==> ReadItem(l, ms[i], ps[i], host) == Success(Some(Entry(i, items[i])))
    ensures IndexedItems(l, ms[..n], ps[..n], host) == Success(Enumerated(items[..n]))
  {
    if n > 0 {
      IndexedItemsAll(l, ms, ps, host, items, n - 1);
      assert ms[..n][..n - 1] == ms[..n - 1] && ps[..n][..n - 1] == ps[..n - 1];
      assert ms[..n][n - 1] == ms[n - 1] && ps[..n][n - 1] == ps[n - 1];
      IndexedItemsStep(l, ms[..n], ps[..n], host, Entry(n - 1, items[n - 1]));
      assert items[..n][..n - 1] == items[..n - 1];
      InsertLast(Enumerated(items[..n - 1]), n - 1, items[n - 1]);
    }
  }

  /**
   * What a species must have for the whole Rhino object to be read back: the
   * registry parses its id text back to its id, knows the id, and gives default
   * data of its shape; writing it keeps what `Recoverable` asks; no child of it
   * is called `ChimeraId`.
   */
  predicate Registered(d: Data, host: Host)
  {
    && d.SpeciesData?
    && GuidParse(host, host.guidText(d.key)) == Some(d.key)
    && d.key != host.emptyGuid
    && host.speciesDefaults(d.key).Some? && Conforms(d, host.speciesDefaults(d.key).value)
    && Recoverable(d, host)
    && forall i :: 0 <= i < |d.children| ==> d.children[i].definition.name != ChimeraObjectIdKey
  }

  /** The member written for a registered species reads back as that species. */
  lemma SpeciesReadBack(d: Data, m: Member, host: Host)
    requires Registered(d, host) && m.value == DataValue(d, host)
    requires !EqualsIgnoreCase(m.key, ChimeraObjectIdKey)
    ensures ReadSpecies(m, host) == Success(Some(d))
  {
    var o := SpeciesObject(d, host);
    var shape := host.speciesDefaults(d.key).value;
    assert m.value == Object(o);
    assert SpeciesIdText(o) == host.guidText(d.key) by {
      SpeciesObjectId(d, host);
    }
    assert shape.SpeciesData? && ParsedSpecies(shape, Some(o), host) == Success(d) by {
      ParseOfWritten(d, shape, host);
    }
    ReadSpeciesFound(m, d.key, shape, d, host);
  }

  /** A member holding an object whose id names a species with default data reads as that species, filled from the object. */
  lemma ReadSpeciesFound(m: Member, id: Guid, shape: Data, d: Data, host: Host)
    requires !EqualsIgnoreCase(m.key, ChimeraObjectIdKey) && m.value.Object?
    requires GuidParse(host, SpeciesIdText(m.value.b)) == Some(id) && id != host.emptyGuid
    requires host.speciesDefaults(id) == Some(shape) && shape.SpeciesData?
    requires ParsedSpecies(shape, Some(m.value.b), host) == Success(d)
    ensures ReadSpecies(m, host) == Success(Some(d))
  {
  }

  /** A skipped reading followed by readings of `ds` collects `ds`. */
  lemma {:induction false} CollectedAll(rs: seq<Result<Option<Data>, ParseError>>, ds: seq<Data>, n: nat)
    requires |rs| == |ds| + 1 && 1 <= n <= |rs|
    requires rs[0] == Success(None)
    requires forall i :: 0 <= i < |ds| ==> rs[i + 1] == Success(Some(ds[i]))
    ensures Collected(rs[..n]) == Success(ds[..n - 1])
  {
    if n > 1 {
      CollectedAll(rs, ds, n - 1);
      assert rs[..n][..n - 1] == rs[..n - 1];
      assert ds[..n - 1] == ds[..n - 2] + [ds[n - 2]];
    } else {
      assert rs[..1][..0] == [];
    }
  }

  /**
   * Reading back what was written for a Rhino object's data gives that data, in
   * order, when every datum is a registered species and no two data, and no
   * datum and the object id, share a name.
   */
  lemma UserDataRoundTrip(u: UserData, host: Host)
    requires DistinctNames(u.data)
    requires forall i :: 0 <= i < |u.data| ==> Registered(u.data[i], host)
    requires forall i :: 0 <= i < |u.data| ==> !EqualsIgnoreCase(u.data[i].definition.name, ChimeraObjectIdKey)
    ensures ParsedUserData(UserDataObject(u, host).members, host) == Success(u.data)
  {
    UserDataKeys(u, host);
    SetAllFresh(UserDataMembers(u, host));
    UserDataCollected(u, host);
  }

  lemma UserDataCollected(u: UserData, host: Host)
    requires forall i :: 0 <= i < |u.data| ==> Registered(u.data[i], host)
    requires forall i :: 0 <= i < |u.data| ==> !EqualsIgnoreCase(u.data[i].definition.name, ChimeraObjectIdKey)
    ensures Collected(Readings(UserDataMembers(u, host), host)) == Success(u.data)
  {
    var ms := UserDataMembers(u, host);
    var rs := Readings(ms, host);
    assert EqualsIgnoreCase(ms[0].key, ChimeraObjectIdKey);
    assert forall i :: 0 <= i < |u.data| ==> rs[i + 1] == Success(Some(u.data[i])) by {
      UserDataReadings(u, host);
      assert forall i :: 0 <= i < |u.data| ==> ms[i + 1] == Member(u.data[i].definition.name, DataValue(u.data[i], host));
    }
    CollectedAll(rs, u.data, |rs|);
    assert rs[..|rs|] == rs && u.data[..|u.data|] == u.data;
  }

  /** Every registered datum, written under its name, reads back as itself. */
  lemma UserDataReadings(u: UserData, host: Host)
    requires forall i :: 0 <= i < |u.data| ==> Registered(u.data[i], host)
    requires forall i :: 0 <= i < |u.data| ==> !EqualsIgnoreCase(u.data[i].definition.name, ChimeraObjectIdKey)
    ensures forall i :: 0 <= i < |u.data| ==>
      ReadSpecies(Member(u.data[i].definition.name, DataValue(u.data[i], host)), host) == Success(Some(u.data[i]))
  {
    forall i | 0 <= i < |u.data|
      ensures ReadSpecies(Member(u.data[i].definition.name, DataValue(u.data[i], host)), host) == Success(Some(u.data[i]))
    {
      SpeciesReadBack(u.data[i], Member(u.data[i].definition.name, DataValue(u.data[i], host)), host);
    }
  }

  /** The object id and the data names make a dictionary when no datum is called `ChimeraId`. */
  lemma UserDataKeys(u: UserData, host: Host)
    requires DistinctNames(u.data)
    requires forall i :: 0 <= i < |u.data| ==> !EqualsIgnoreCase(u.data[i].definition.name, ChimeraObjectIdKey)
    ensures DistinctKeys(UserDataMembers(u, host))
  {
  }

  /**
   * An object member with no `ChimeraId` gives `Guid.Parse("")`, which throws: the
   * reading stops there and nothing is written back, whatever follows.
   */
  lemma MissingIdStops(ms: seq<Member>, i: nat, host: Host)
    requires i < |ms| && !EqualsIgnoreCase(ms[i].key, ChimeraObjectIdKey) && ms[i].value.Object?
    requires ChimeraObjectIdKey !in Keys(ms[i].value.b.members)
    requires Collected(Readings(ms[..i], host)).Success?
    ensures ParsedUserData(ms, host) == Failure(InvalidGuid(""))
  {
    var rs := Readings(ms, host);
    assert rs[i] == Failure(InvalidGuid(""));
    assert Collected(rs[..i + 1]) == Failure(InvalidGuid("")) by {
      assert rs[..i + 1][..i] == rs[..i] == Readings(ms[..i], host);
    }
    CollectedFails(rs, i + 1);
  }

  method ParseSpeckleToChimera(speckleObject: Base, host: Host) returns (receivedData: Result<seq<Data>, ParseError>)
    ensures receivedData == ParsedUserData(speckleObject.members, host)
  {
    var ms := speckleObject.members;
    ghost var rs := Readings(ms, host);
    var received: seq<Data> := [];
    for i := 0 to |ms|
      invariant Collected(rs[..i]) == Success(received)
    {
      assert rs[..i + 1][..i] == rs[..i];
      var sData := ParseMember(ms[i], host);
      if sData.Failure? {
        CollectedFails(rs, i + 1);
        return Failure(sData.error);
      }
      if sData.value.Some? {
        received := received + [sData.value.value];
      }
    }
    assert rs[..|ms|] == rs;
    receivedData := Success(received);
  }

  /** The body of the loop of `ParseSpeckleToChimera`, for one member; None where it continues. */
  method ParseMember(propPair: Member, host: Host) returns (r: Result<Option<Data>, ParseError>)
    ensures r == ReadSpecies(propPair, host)
  {
    if EqualsIgnoreCase(propPair.key, ChimeraObjectIdKey) {
      return Success(None);
    }
    if !propPair.value.Object? {
      return Success(None);
    }
    var dataObject := propPair.value.b;
    var idText := match Get(dataObject.members, ChimeraObjectIdKey) case Text(t) => t case _ => "";
    var attrId := GuidParse(host, idText);
    if attrId.None? {
      return Failure(InvalidGuid(idText));
    }
    if attrId.value == host.emptyGuid {
      return Success(None);
    }
    var def := host.speciesDefaults(attrId.value);
    if def.None? {
      return Success(None);
    }
    var sData := def.value;
    if !sData.SpeciesData? {
      return Failure(NullReference);
    }
    var parsed := ParseSpeckleToChimeraSpecies(sData, Some(dataObject), host);
    if parsed.Failure? {
      return Failure(parsed.error);
    }
    r := Success(Some(parsed.value));
  }

  method ParseSpeckleToChimeraData(data: Data, speckleData: Value, host: Host) returns (r: Result<Data, ParseError>)
    ensures r == ParsedData(data, speckleData, host)
    decreases data, 3
  {
    match data
    case SpeciesData(_, _, _) =>
      r := ParseSpeckleToChimeraSpecies(data, AsBase(speckleData), host);
    case ListData(_, _, _) =>
      r := ParseSpeckleToChimeraList(data, AsBase(speckleData), host);
    case GeometryData(def, _) =>
      r := Success(GeometryData(def, host.toNative(AsBase(speckleData))));
    case ValueData(def, _) =>
      r := Success(ValueData(def, speckleData));
  }

  method ParseSpeckleToChimeraSpecies(sData: Data, speckleObject: Option<Base>, host: Host)
    returns (r: Result<Data, ParseError>)
    requires sData.SpeciesData?
    ensures r == ParsedSpecies(sData, speckleObject, host)
    decreases sData, 2
  {
    var children: seq<Data> := [];
    for i := 0 to |sData.children|
      invariant ParsedChildren(sData, i, speckleObject, host) == Success(children)
    {
      var defChild := sData.children[i];
      if speckleObject.None? {
        ParsedChildrenFails(sData, i + 1, |sData.children|, speckleObject, host);
        return Failure(NullReference);
      }
      var parsed := ParseSpeckleToChimeraData(defChild, Get(speckleObject.value.members, defChild.definition.name), host);
      if parsed.Failure? {
        ParsedChildrenFails(sData, i + 1, |sData.children|, speckleObject, host);
        return Failure(parsed.error);
      }
      children := children + [parsed.value];
    }
    r := Success(sData.(children := children));
  }

  method ParseSpeckleToChimeraList(lData: Data, speckleObject: Option<Base>, host: Host)
    returns (r: Result<Data, ParseError>)
    requires lData.ListData?
    ensures r == ParsedList(lData, speckleObject, host)
    decreases lData, 2
  {
    if speckleObject.None? {
      return Failure(NullReference);
    }
    var parsedData := IndexItems(lData, speckleObject.value.members, host);
    if parsedData.Failure? {
      return Failure(parsedData.error);
    }
    var items := AddItems(lData.items, parsedData.value);
    r := Success(lData.(items := items));
  }

  /** The loop of `ParseSpeckleToChimeraList` that builds the sorted dictionary. */
  method IndexItems(lData: Data, speckleData: seq<Member>, host: Host) returns (r: Result<seq<Entry>, ParseError>)
    requires lData.ListData?
    ensures r == IndexedItems(lData, speckleData, Positions(speckleData, lData.definition.name), host)
    decreases lData, 1
  {
    ghost var ps := Positions(speckleData, lData.definition.name);
    var parsedData: seq<Entry> := [];
    for i := 0 to |speckleData|
      invariant IndexedItems(lData, speckleData[..i], ps[..i], host) == Success(parsedData)
    {
      assert speckleData[..i + 1][..i] == speckleData[..i] && ps[..i + 1][..i] == ps[..i];
      var item := ParseItem(lData, speckleData[i], host);
      if item.Failure? {
        IndexedItemsFails(lData, speckleData, ps, i + 1, host);
        return Failure(item.error);
      }
      if item.value.Some? {
        parsedData := Insert(parsedData, item.value.value.index, item.value.value.data);
      }
    }
    assert speckleData[..|speckleData|] == speckleData && ps[..|ps|] == ps;
    r := Success(parsedData);
  }

  /** The body of that loop, for one member; None where it continues. */
  method ParseItem(lData: Data, valuePair: Member, host: Host) returns (r: Result<Option<Entry>, ParseError>)
    requires lData.ListData?
    ensures r == ReadItem(lData, valuePair, ItemIndex(valuePair.key, lData.definition.name), host)
    decreases lData, 0
  {
    var index: Option<int> := None;
    if StartsWith(valuePair.key, lData.definition.name) {
      var indexStart := LastIndexOf(valuePair.key, '[');
      var indexEnd := LastIndexOf(valuePair.key, ']');
      if !(indexStart == -1 || indexEnd == -1 || indexStart >= indexEnd) {
        var indexStr := valuePair.key[indexStart + 1..indexEnd];
        index := TryParse(indexStr);
      }
    }
    assert index == ItemIndex(valuePair.key, lData.definition.name);
    if index.None? {
      return Success(None);
    }
    var itemData := ParseSpeckleToChimeraData(lData.itemTemplate, valuePair.value, host);
    if itemData.Failure? {
      return Failure(itemData.error);
    }
    r := Success(Some(Entry(index.value, itemData.value)));
  }

  /** The loop that adds the parsed items to the list, in the dictionary's order. */
  method AddItems(items: seq<Data>, parsedData: seq<Entry>) returns (r: seq<Data>)
    ensures r == items + Values(parsedData)
  {
    r := items;
    for i := 0 to |parsedData|
      invariant r == items + Values(parsedData[..i])
    {
      assert Values(parsedData[..i + 1]) == Values(parsedData[..i]) + [parsedData[i].data];
      r := r + [parsedData[i].data];
    }
    assert parsedData[..|parsedData|] == parsedData;
  }
}
