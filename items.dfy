/**
 * The list of images the user has picked, and the pure updaters the
 * application hands to its state setter: appending dropped files, removing
 * by id, rotating by id, and moving one item after a drag.
 */
module ItemList {
  import opened Raster

  /** Item ids are random strings; nothing in the code makes them unique. */
  type Id = string

  /** One picked image: its id, its file and its rotation in degrees. */
  datatype Item = Item(id: Id, file: FileRef, rotation: int)

  /** The four rotations the interface can produce. */
  predicate ValidRotation(rotation: int)
  {
    rotation == 0 || rotation == 90 || rotation == 180 || rotation == 270
  }

  predicate AllValidRotations(items: seq<Item>)
  {
    forall k :: 0 <= k < |items| ==> ValidRotation(items[k].rotation)
  }

  /** JavaScript's `%`: the remainder takes the sign of the dividend. */
  function JsRem(a: int, b: int): int
    requires b > 0
  {
    if a >= 0 then a % b else -((-a) % b)
  }

  // ---------------------------------------------------------------------
  // handleFilesDrop: one new item per dropped file, appended in file order

  /** The items made for dropped files, with the ids drawn for them. */
  function NewItems(files: seq<FileRef>, ids: seq<Id>): (r: seq<Item>)
    requires |ids| == |files|
    ensures |r| == |files|
    ensures forall k :: 0 <= k < |r| ==> r[k].id == ids[k] && r[k].file == files[k] && r[k].rotation == 0
    ensures AllValidRotations(r)
  {
    if files == [] then [] else [Item(ids[0], files[0], 0)] + NewItems(files[1..], ids[1..])
  }

  /** Dropping files keeps every existing item, in place, and only adds rotations of 0. */
  lemma DropKeepsExisting(prev: seq<Item>, files: seq<FileRef>, ids: seq<Id>)
    requires |ids| == |files|
    ensures (prev + NewItems(files, ids))[..|prev|] == prev
    ensures |prev + NewItems(files, ids)| == |prev| + |files|
    ensures AllValidRotations(prev) ==> AllValidRotations(prev + NewItems(files, ids))
  {
    var r := prev + NewItems(files, ids);
    if AllValidRotations(prev) {
      forall k | 0 <= k < |r| ensures ValidRotation(r[k].rotation) {
        if k >= |prev| {
          assert r[k] == NewItems(files, ids)[k - |prev|];
        }
      }
    }
  }

  // ---------------------------------------------------------------------
  // handleRemove: items.filter(item => item.id !== id)

  function Without(s: seq<Item>, id: Id): (r: seq<Item>)
    ensures |r| <= |s|
    ensures forall k :: 0 <= k < |r| ==> r[k].id != id
    ensures forall x: Item :: x.id != id ==> multiset(r)[x] == multiset(s)[x]
  {
    if s == [] then []
    else
      var rest := Without(s[1..], id);
      assert s == [s[0]] + s[1..];
      if s[0].id == id then rest else [s[0]] + rest
  }

  /**
   * Removing distributes over concatenation, so the kept items stay in their
   * original relative order.
   */
  lemma {:induction false} WithoutConcat(a: seq<Item>, b: seq<Item>, id: Id)
    ensures Without(a + b, id) == Without(a, id) + Without(b, id)
  {
    if a == [] {
      assert a + b == b;
    } else {
      assert (a + b)[1..] == a[1..] + b;
      WithoutConcat(a[1..], b, id);
    }
  }

  /** With no item of that id, removal changes nothing (so removal is idempotent). */
  lemma {:induction false} WithoutAbsent(s: seq<Item>, id: Id)
    requires forall k :: 0 <= k < |s| ==> s[k].id != id
    ensures Without(s, id) == s
  {
    if s != [] {
      WithoutAbsent(s[1..], id);
    }
  }

  lemma RemoveIsIdempotent(s: seq<Item>, id: Id)
    ensures Without(Without(s, id), id) == Without(s, id)
  {
    WithoutAbsent(Without(s, id), id);
  }

  /** Removal keeps only valid rotations when there were only valid rotations. */
  lemma {:induction false} WithoutKeepsValid(s: seq<Item>, id: Id)
    requires AllValidRotations(s)
    ensures AllValidRotations(Without(s, id))
  {
    if s != [] {
      WithoutKeepsValid(s[1..], id);
      var rest := Without(s[1..], id);
      var r := Without(s, id);
      forall k | 0 <= k < |r| ensures ValidRotation(r[k].rotation) {
        if s[0].id != id && k > 0 {
          assert r[k] == rest[k - 1];
        }
      }
    }
  }

  // ---------------------------------------------------------------------
  // handleRotate: items.map(item => item.id === id ? { ...item, rotation: (item.rotation + 90) % 360 } : item)

  /** One item turned a further 90 degrees clockwise. */
  function Rotate(item: Item): (r: Item)
    ensures r.id == item.id && r.file == item.file
    ensures ValidRotation(item.rotation) ==>
              ValidRotation(r.rotation) && r.rotation == (if item.rotation == 270 then 0 else item.rotation + 90)
  {
    item.(rotation := JsRem(item.rotation + 90, 360))
  }

  /** Four turns bring a valid rotation back to where it was. */
  lemma FourTurnsRestoreItem(item: Item)
    requires ValidRotation(item.rotation)
    ensures Rotate(Rotate(Rotate(Rotate(item)))) == item
  {
  }

  function RotatedWhere(s: seq<Item>, id: Id): (r: seq<Item>)
    ensures |r| == |s|
    ensures forall k :: 0 <= k < |s| ==> r[k] == if s[k].id == id then Rotate(s[k]) else s[k]
  {
    if s == [] then [] else [if s[0].id == id then Rotate(s[0]) else s[0]] + RotatedWhere(s[1..], id)
  }

  /** Rotating keeps every rotation among 0, 90, 180 and 270. */
  lemma RotatedWhereKeepsValid(s: seq<Item>, id: Id)
    requires AllValidRotations(s)
    ensures AllValidRotations(RotatedWhere(s, id))
  {
    var r := RotatedWhere(s, id);
    forall k | 0 <= k < |r| ensures ValidRotation(r[k].rotation) {
      assert ValidRotation(s[k].rotation);
    }
  }

  /** Rotating the same id four times gives back the list it started from. */
  lemma FourRotationsRestoreList(s: seq<Item>, id: Id)
    requires AllValidRotations(s)
    ensures RotatedWhere(RotatedWhere(RotatedWhere(RotatedWhere(s, id), id), id), id) == s
  {
    var r1 := RotatedWhere(s, id);
    var r2 := RotatedWhere(r1, id);
    var r3 := RotatedWhere(r2, id);
    var r4 := RotatedWhere(r3, id);
    forall k | 0 <= k < |s| ensures r4[k] == s[k] {
      if s[k].id == id {
        FourTurnsRestoreItem(s[k]);
      }
    }
  }

  // ---------------------------------------------------------------------
  // handleDragEnd: arrayMove(items, findIndex(active.id), findIndex(over.id))

  /** Array.prototype.findIndex on the id: the first match, or -1. */
  function FindIndex(s: seq<Item>, id: Id): (k: int)
    ensures -1 <= k < |s|
    ensures k >= 0 ==> s[k].id == id && forall j :: 0 <= j < k ==> s[j].id != id
    ensures k == -1 <==> forall j :: 0 <= j < |s| ==> s[j].id != id
  {
    if s == [] then -1
    else if s[0].id == id then 0
    else
      var k := FindIndex(s[1..], id);
      if k == -1 then -1 else k + 1
  }

  predicate Contains(s: seq<Item>, id: Id)
  {
    exists k :: 0 <= k < |s| && s[k].id == id
  }

  /** arrayMove: take the element at `from` out, then insert it at `to`. */
  function ArrayMove<T>(s: seq<T>, from: nat, to: nat): (r: seq<T>)
    requires from < |s| && to < |s|
    ensures |r| == |s|
    ensures r[to] == s[from]
    ensures r[..to] + r[to + 1..] == s[..from] + s[from + 1..]
    ensures multiset(r) == multiset(s)
  {
    var rest := s[..from] + s[from + 1..];
    var r := rest[..to] + [s[from]] + rest[to..];
    assert r[..to] + r[to + 1..] == rest by {
      assert r[..to] == rest[..to];
      assert r[to + 1..] == rest[to..];
    }
    assert multiset(r) == multiset(rest) + multiset{s[from]} by {
      assert rest == rest[..to] + rest[to..];
    }
    assert multiset(s) == multiset(rest) + multiset{s[from]} by {
      assert s == s[..from] + [s[from]] + s[from + 1..];
    }
    r
  }

  /** Moving an item back to where it came from undoes the move. */
  lemma ArrayMoveUndo<T>(s: seq<T>, from: nat, to: nat)
    requires from < |s| && to < |s|
    ensures ArrayMove(ArrayMove(s, from, to), to, from) == s
  {
    var r := ArrayMove(s, from, to);
    var back := ArrayMove(r, to, from);
    var rest := s[..from] + s[from + 1..];
    assert r[..to] + r[to + 1..] == rest;
    assert back[..from] + back[from + 1..] == rest;
    assert back == back[..from] + [back[from]] + back[from + 1..];
    assert s == s[..from] + [s[from]] + s[from + 1..];
    assert back[..from] == rest[..from] == s[..from];
    assert back[from + 1..] == rest[from..] == s[from + 1..];
  }

  /** Moving an item onto its own position changes nothing. */
  lemma ArrayMoveInPlace<T>(s: seq<T>, i: nat)
    requires i < |s|
    ensures ArrayMove(s, i, i) == s
  {
    var r := ArrayMove(s, i, i);
    assert r == r[..i] + [r[i]] + r[i + 1..];
    assert s == s[..i] + [s[i]] + s[i + 1..];
    assert r[..i] + r[i + 1..] == s[..i] + s[i + 1..];
    assert r[..i] == s[..i];
  }

  /**
   * The drag updater: the dragged item (the first with `activeId`) lands at
   * the index of the first item with `overId`; the list is a permutation of
   * the old one and the other items keep their relative order.
   */
  function Moved(s: seq<Item>, activeId: Id, overId: Id): (r: seq<Item>)
    requires Contains(s, activeId) && Contains(s, overId)
    ensures |r| == |s| && multiset(r) == multiset(s)
    ensures r[FindIndex(s, overId)] == s[FindIndex(s, activeId)]
    ensures r[FindIndex(s, overId)].id == activeId
    ensures r[..FindIndex(s, overId)] + r[FindIndex(s, overId) + 1..]
         == s[..FindIndex(s, activeId)] + s[FindIndex(s, activeId) + 1..]
  {
    ArrayMove(s, FindIndex(s, activeId), FindIndex(s, overId))
  }

  /** A move keeps every rotation valid: it only rearranges items. */
  lemma MovedKeepsValid(s: seq<Item>, activeId: Id, overId: Id)
    requires Contains(s, activeId) && Contains(s, overId)
    requires AllValidRotations(s)
    ensures AllValidRotations(Moved(s, activeId, overId))
  {
    var r := Moved(s, activeId, overId);
    forall k | 0 <= k < |r| ensures ValidRotation(r[k].rotation) {
      assert r[k] in multiset(s);
      var j :| 0 <= j < |s| && s[j] == r[k];
    }
  }
}
