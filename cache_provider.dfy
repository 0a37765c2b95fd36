/**
 * The bounded per-repository result cache: `CacheProvider`, which maps a
 * repository class to its `DataList`, and `DataList`, a size-limited list of
 * results in which a result with a known id replaces the old one in place.
 */
module Caching {
  import opened Wrappers

  /** A slot allocated with this limit never holds anything. */
  const ZeroCache: int := 0

  /** A repository class, identified by its canonical name, which never holds `;`. */
  type RepoKey = s: string | ';' !in s

  /** What a finished call produced: a decoded body, or the raw text of an error body. */
  datatype Payload = Text(text: string) | Decoded(typeName: string, content: string)

  /** One result as the cache stores it: the id it was requested under, its payload, and whether it is an error. */
  datatype Data = Data(id: string, payload: Payload, isError: bool)

  /** No two entries share an id. */
  ghost predicate UniqueIds(items: seq<Data>) {
    forall i, j :: 0 <= i < j < |items| ==> items[i].id != items[j].id
  }

  /** What every `DataList` keeps: distinct ids, and no more entries than a non-negative limit allows. */
  ghost predicate SlotInvariant(sizeLimit: int, items: seq<Data>) {
    UniqueIds(items) && (0 <= sizeLimit ==> |items| <= sizeLimit)
  }

  /** The index of the first entry with the given id: where the scan in `DataList.add` stops. */
  function IndexOf(items: seq<Data>, id: string): (r: Option<nat>)
    ensures r.Some? ==> r.value < |items| && items[r.value].id == id
    ensures r.Some? ==> forall j :: 0 <= j < r.value ==> items[j].id != id
    ensures r.None? <==> forall j :: 0 <= j < |items| ==> items[j].id != id
  {
    if items == [] then None
    else if items[0].id == id then Some(0)
    else match IndexOf(items[1..], id)
      case None =>
        assert forall j :: 1 <= j < |items| ==> items[j] == items[1..][j - 1];
        None
      case Some(k) => Some(k + 1)
  }

  /** The first entry with the given id (Kotlin's `items.find`). */
  function FindIn(items: seq<Data>, id: string): Option<Data> {
    match IndexOf(items, id)
    case Some(i) => Some(items[i])
    case None => None
  }

  /**
   * The list `DataList.add` leaves: nothing changes under `ZeroCache`; a known
   * id is overwritten where it stands; a new id is appended, after the LAST
   * entry has been dropped if the list was full.
   */
  function Added(items: seq<Data>, sizeLimit: int, element: Data): seq<Data> {
    if sizeLimit == ZeroCache then items
    else match IndexOf(items, element.id)
      case Some(i) => items[i := element]
      case None => (if |items| == sizeLimit then items[..|items| - 1] else items) + [element]
  }

  /** The list left by adding `elements` one after the other, first to last. */
  function AddAll(items: seq<Data>, sizeLimit: int, elements: seq<Data>): seq<Data>
    decreases |elements|
  {
    if elements == [] then items
    else Added(AddAll(items, sizeLimit, elements[..|elements| - 1]), sizeLimit, elements[|elements| - 1])
  }

  /** Under `ZeroCache` no sequence of adds changes the list. */
  lemma {:induction false} ZeroCacheKeepsList(items: seq<Data>, elements: seq<Data>)
    ensures AddAll(items, ZeroCache, elements) == items
    decreases |elements|
  {
    if elements != [] {
      ZeroCacheKeepsList(items, elements[..|elements| - 1]);
    }
  }

  /** A `ZeroCache` list that starts empty never finds anything, whatever was added. */
  lemma ZeroCacheNeverHits(elements: seq<Data>, id: string)
    ensures FindIn(AddAll([], ZeroCache, elements), id) == None
  {
    ZeroCacheKeepsList([], elements);
  }

  /** One add keeps the ids distinct and the length within a non-negative limit. */
  lemma AddedKeepsInvariant(items: seq<Data>, sizeLimit: int, element: Data)
    requires SlotInvariant(sizeLimit, items)
    ensures SlotInvariant(sizeLimit, Added(items, sizeLimit, element))
  {
    if sizeLimit != ZeroCache && IndexOf(items, element.id).None? {
      var kept := if |items| == sizeLimit then items[..|items| - 1] else items;
      assert forall j :: 0 <= j < |kept| ==> kept[j] == items[j];
      assert Added(items, sizeLimit, element) == kept + [element];
    }
  }

  /** From an empty list, any sequence of adds keeps the ids distinct and the length within the limit. */
  lemma {:induction false} AddAllKeepsInvariant(sizeLimit: int, elements: seq<Data>)
    ensures SlotInvariant(sizeLimit, AddAll([], sizeLimit, elements))
    decreases |elements|
  {
    if elements != [] {
      AddAllKeepsInvariant(sizeLimit, elements[..|elements| - 1]);
      AddedKeepsInvariant(AddAll([], sizeLimit, elements[..|elements| - 1]), sizeLimit, elements[|elements| - 1]);
    }
  }

  /** Adding an id that is already present replaces that entry at the same index; length and every other entry stay. */
  lemma UpsertInPlace(items: seq<Data>, sizeLimit: int, element: Data, i: nat)
    requires sizeLimit != ZeroCache && UniqueIds(items)
    requires i < |items| && items[i].id == element.id
    ensures var r := Added(items, sizeLimit, element);
      |r| == |items| && r[i] == element && forall j :: 0 <= j < |items| && j != i ==> r[j] == items[j]
  {
  }

  /** Adding a new id to a full list drops exactly the last entry, keeps the others in order and appends the new one. */
  lemma FullListDropsLast(items: seq<Data>, sizeLimit: int, element: Data)
    requires sizeLimit != ZeroCache && |items| == sizeLimit
    requires forall j :: 0 <= j < |items| ==> items[j].id != element.id
    ensures var r := Added(items, sizeLimit, element);
      |r| == |items| && r[..|r| - 1] == items[..|items| - 1] && r[|r| - 1] == element
  {
  }

  /** Once added to a list whose limit is not `ZeroCache`, an entry is what `find` returns for its id. */
  lemma FindAfterAdd(items: seq<Data>, sizeLimit: int, element: Data)
    requires sizeLimit != ZeroCache
    ensures FindIn(Added(items, sizeLimit, element), element.id) == Some(element)
  {
    var r := Added(items, sizeLimit, element);
    match IndexOf(items, element.id)
    case Some(i) =>
      assert r[i] == element;
      assert forall j :: 0 <= j < i ==> r[j] == items[j];
    case None =>
      assert r[|r| - 1] == element;
      assert forall j :: 0 <= j < |r| - 1 ==> r[j].id != element.id;
  }

  /** Adding the same entry twice leaves what adding it once left: the repeated writes of joined callers are harmless. */
  lemma AddIdempotent(items: seq<Data>, sizeLimit: int, element: Data)
    ensures Added(Added(items, sizeLimit, element), sizeLimit, element) == Added(items, sizeLimit, element)
  {
    if sizeLimit != ZeroCache {
      FindAfterAdd(items, sizeLimit, element);
      var r := Added(items, sizeLimit, element);
      var i := IndexOf(r, element.id).value;
      assert r[i := element] == r;
    }
  }

  /** Entries with distinct ids, no more than the limit, are kept exactly as added. */
  lemma {:induction false} FillsInOrder(sizeLimit: int, elements: seq<Data>)
    requires 0 < sizeLimit && |elements| <= sizeLimit && UniqueIds(elements)
    ensures AddAll([], sizeLimit, elements) == elements
    decreases |elements|
  {
    if elements != [] {
      var prefix := elements[..|elements| - 1];
      var last := elements[|elements| - 1];
      UniqueIdsPrefix(elements, |elements| - 1);
      FillsInOrder(sizeLimit, prefix);
      assert AddAll([], sizeLimit, elements) == Added(prefix, sizeLimit, last);
      forall j | 0 <= j < |prefix| ensures prefix[j].id != last.id {
        assert prefix[j] == elements[j];
      }
      assert IndexOf(prefix, last.id).None? && |prefix| != sizeLimit;
      assert prefix + [last] == elements;
    }
  }

  /**
   * With distinct ids, once the list is full the first `sizeLimit - 1`
   * entries are never evicted: every later add replaces the newest entry,
   * so the list holds the first `sizeLimit - 1` entries and the latest one.
   */
  lemma {:induction false} FullListChurnsLastSlot(sizeLimit: int, elements: seq<Data>)
    requires 0 < sizeLimit < |elements| && UniqueIds(elements)
    ensures AddAll([], sizeLimit, elements) == elements[..sizeLimit - 1] + [elements[|elements| - 1]]
    decreases |elements|
  {
    var prefix := elements[..|elements| - 1];
    var last := elements[|elements| - 1];
    var kept := elements[..sizeLimit - 1];
    var newest := elements[|elements| - 2];
    UniqueIdsPrefix(elements, |elements| - 1);
    assert AddAll([], sizeLimit, prefix) == kept + [newest] by {
      if |prefix| == sizeLimit {
        FillsInOrder(sizeLimit, prefix);
        assert prefix == kept + [newest];
      } else {
        FullListChurnsLastSlot(sizeLimit, prefix);
        assert prefix[..sizeLimit - 1] == kept;
      }
    }
    forall j | 0 <= j < |kept| ensures kept[j].id != last.id {
      assert kept[j] == elements[j];
    }
    ReplaceNewest(sizeLimit, kept, newest, last);
    assert AddAll([], sizeLimit, elements) == Added(AddAll([], sizeLimit, prefix), sizeLimit, last);
  }

  /** On a full list, a new id takes the place of the newest entry. */
  lemma ReplaceNewest(sizeLimit: int, kept: seq<Data>, newest: Data, element: Data)
    requires 0 < sizeLimit && |kept| == sizeLimit - 1
    requires forall j :: 0 <= j < |kept| ==> kept[j].id != element.id
    requires newest.id != element.id
    ensures Added(kept + [newest], sizeLimit, element) == kept + [element]
  {
    var before := kept + [newest];
    forall j | 0 <= j < |before| ensures before[j].id != element.id {
      if j < |kept| {
        assert before[j] == kept[j];
      }
    }
    FullListDropsLast(before, sizeLimit, element);
    assert before[..|before| - 1] == kept;
    var r := Added(before, sizeLimit, element);
    assert r == r[..|r| - 1] + [r[|r| - 1]];
  }

  /** Every prefix of a list with distinct ids has distinct ids. */
  lemma UniqueIdsPrefix(elements: seq<Data>, k: nat)
    requires UniqueIds(elements) && k <= |elements|
    ensures UniqueIds(elements[..k])
  {
    forall i, j | 0 <= i < j < k ensures elements[..k][i].id != elements[..k][j].id {
      assert elements[..k][i] == elements[i] && elements[..k][j] == elements[j];
    }
  }

  /** A repository's slot seen as a value: its limit and its entries. */
  datatype Slot = Slot(sizeLimit: int, items: seq<Data>)

  /** The slots after `allocate`: a fresh empty list for `repoClass`. */
  function Allocated(slots: map<RepoKey, Slot>, repoClass: RepoKey, size: int): map<RepoKey, Slot> {
    slots[repoClass := Slot(size, [])]
  }

  /** What `getData` answers: nothing for an unallocated repository, else the list's `find`. */
  function Lookup(slots: map<RepoKey, Slot>, repoClass: RepoKey, dataId: string): Option<Data> {
    if repoClass in slots then FindIn(slots[repoClass].items, dataId) else None
  }

  /** The slots after `putData`: nothing changes for an unallocated repository, else the list's `add`. */
  function Put(slots: map<RepoKey, Slot>, repoClass: RepoKey, data: Data): map<RepoKey, Slot> {
    if repoClass in slots
    then slots[repoClass := Slot(slots[repoClass].sizeLimit, Added(slots[repoClass].items, slots[repoClass].sizeLimit, data))]
    else slots
  }

  /** `allocate` discards what the repository held and leaves every other repository's slot as it was. */
  lemma AllocateResets(slots: map<RepoKey, Slot>, repoClass: RepoKey, size: int, dataId: string, other: RepoKey)
    requires other != repoClass
    ensures Lookup(Allocated(slots, repoClass, size), repoClass, dataId) == None
    ensures Lookup(Allocated(slots, repoClass, size), other, dataId) == Lookup(slots, other, dataId)
  {
  }

  /** An unallocated repository yields no data and ignores writes. */
  lemma UnallocatedIgnored(slots: map<RepoKey, Slot>, repoClass: RepoKey, data: Data, dataId: string)
    requires repoClass !in slots
    ensures Lookup(slots, repoClass, dataId) == None
    ensures Put(slots, repoClass, data) == slots
  {
  }

  /** After `putData` into a slot whose limit is not `ZeroCache`, `getData` for that id returns the same value. */
  lemma PutThenLookup(slots: map<RepoKey, Slot>, repoClass: RepoKey, data: Data)
    requires repoClass in slots && slots[repoClass].sizeLimit != ZeroCache
    ensures Lookup(Put(slots, repoClass, data), repoClass, data.id) == Some(data)
  {
    FindAfterAdd(slots[repoClass].items, slots[repoClass].sizeLimit, data);
  }

  /** A size-limited list of results (`CacheProvider.DataList`). */
  class DataList {
    const sizeLimit: int
    var items: seq<Data>

    ghost predicate Valid()
      reads this
    {
      SlotInvariant(sizeLimit, items)
    }

    constructor (sizeLimit: int)
      ensures this.sizeLimit == sizeLimit && items == [] && Valid()
    {
      this.sizeLimit := sizeLimit;
      items := [];
    }

    /** Stores `element`, replacing an entry with the same id in place, else appending it. */
    method Add(element: Data)
      requires Valid()
      modifies this
      ensures Valid()
      ensures items == Added(old(items), sizeLimit, element)
    {
      AddedKeepsInvariant(items, sizeLimit, element);
      if sizeLimit == ZeroCache {
        return;
      }
      var previousIndex: Option<nat> := None;
      var index := 0;
      while index < |items|
        invariant 0 <= index <= |items|
        invariant forall j :: 0 <= j < index ==> items[j].id != element.id
      {
        if items[index].id == element.id {
          previousIndex := Some(index);
          break;
        }
        index := index + 1;
      }
      assert previousIndex == IndexOf(items, element.id);
      if previousIndex.None? {
        if |items| == sizeLimit {
          items := items[..|items| - 1];
        }
        items := items + [element];
      } else {
        items := items[previousIndex.value := element];
      }
    }

    /** The first entry with the given id, if any. */
    function Find(dataId: string): (r: Option<Data>)
      reads this
      ensures r.None? <==> forall j :: 0 <= j < |items| ==> items[j].id != dataId
      ensures r.Some? ==> r.value.id == dataId
      ensures r.Some? ==> exists j :: (0 <= j < |items| && items[j] == r.value &&
                                       forall k :: 0 <= k < j ==> items[k].id != dataId)
    {
      FindIn(items, dataId)
    }
  }

  /** Every repository's result list, keyed by repository class. */
  class CacheProvider {
    var dataHolder: map<RepoKey, DataList>

    /** Every list keeps its invariant, and no two repositories share a list. */
    ghost predicate Valid()
      reads this, dataHolder.Values
    {
      && (forall k :: k in dataHolder ==> dataHolder[k].Valid())
      && (forall k, k' :: k in dataHolder && k' in dataHolder && k != k' ==> dataHolder[k] != dataHolder[k'])
    }

    /** The slots as values. */
    ghost function Slots(): map<RepoKey, Slot>
      reads this, dataHolder.Values
    {
      map k | k in dataHolder :: Slot(dataHolder[k].sizeLimit, dataHolder[k].items)
    }

    constructor ()
      ensures Valid() && Slots() == map[]
    {
      dataHolder := map[];
    }

    /** Installs a fresh empty list of the given limit for `repoClass`. */
    method Allocate(repoClass: RepoKey, size: int)
      requires Valid()
      modifies this
      ensures Valid()
      ensures Slots() == Allocated(old(Slots()), repoClass, size)
    {
      ghost var before := Slots();
      var list := new DataList(size);
      assert forall k :: k in dataHolder ==> dataHolder[k] != list;
      dataHolder := dataHolder[repoClass := list];
      assert forall k :: k in dataHolder ==> dataHolder[k].Valid();
      assert Slots().Keys == Allocated(before, repoClass, size).Keys;
      forall k | k in Slots() ensures Slots()[k] == Allocated(before, repoClass, size)[k] {
      }
    }

    /** The cached result for `dataId`; nothing when the repository has no slot. */
    function GetData(repoClass: RepoKey, dataId: string): (r: Option<Data>)
      reads this, dataHolder.Values
      ensures r == Lookup(Slots(), repoClass, dataId)
      ensures repoClass !in dataHolder ==> r == None
      ensures r.Some? ==> r.value.id == dataId && r.value in dataHolder[repoClass].items
    {
      if repoClass in dataHolder then dataHolder[repoClass].Find(dataId) else None
    }

    /** Adds `data` to the repository's list; does nothing when the repository has no slot. */
    method PutData(repoClass: RepoKey, data: Data)
      requires Valid()
      modifies if repoClass in dataHolder then {dataHolder[repoClass]} else {}
      ensures Valid() && dataHolder == old(dataHolder)
      ensures Slots() == Put(old(Slots()), repoClass, data)
    {
      if repoClass in dataHolder {
        ghost var before := Slots();
        var list := dataHolder[repoClass];
        list.Add(data);
        forall k | k in dataHolder && k != repoClass ensures dataHolder[k].items == old(dataHolder[k].items) {
          assert dataHolder[k] != list;
        }
        assert Slots().Keys == Put(before, repoClass, data).Keys;
        forall k | k in Slots() ensures Slots()[k] == Put(before, repoClass, data)[k] {
        }
      }
    }
  }
}
