/**
 * Objects placed on the scrapbook board and the array updates the page applies
 * to one kind's collection: append in front, delete by id, rotate, drag to the
 * front, and resize.  Each kind (notes, selfies, stickers, doodles) keeps its
 * own collection and its own stacking pool: the zIndex of an object is only
 * ever compared with the zIndex values of objects of the same kind.
 */
module Placed {

  /** Board-relative pixel coordinates. */
  datatype Position = Position(x: real, y: real)

  /** What every placed object has; `data` holds the fields of its kind. */
  datatype Obj<P> = Obj(id: string, position: Position, rotation: real, zIndex: int, data: P)

  /** The kind-specific fields of the kinds that can be resized (every kind but notes). */
  datatype Scaled<D> = Scaled(scale: real, look: D)

  /** No two objects of the collection share an id. */
  predicate UniqueIds<P>(s: seq<Obj<P>>) {
    forall i, j :: 0 <= i < j < |s| ==> s[i].id != s[j].id
  }

  /** Some object of the collection has the id. */
  predicate HasId<P>(s: seq<Obj<P>>, id: string) {
    exists i :: 0 <= i < |s| && s[i].id == id
  }

  /** The ids, in collection order. */
  function Ids<P>(s: seq<Obj<P>>): seq<string> {
    seq(|s|, i requires 0 <= i < |s| => s[i].id)
  }

  // ---------------------------------------------------------------------------
  // Stacking order

  /**
   * `Math.max(...s.map(o => o.zIndex), 0)`: the largest zIndex of the
   * collection, or 0 when every zIndex is below 0 or there is none.
   */
  function MaxZ<P>(s: seq<Obj<P>>): (m: int)
    ensures m >= 0
    ensures forall i :: 0 <= i < |s| ==> s[i].zIndex <= m
    ensures m == 0 || exists i :: 0 <= i < |s| && s[i].zIndex == m
  {
    if s == [] then 0
    else
      var rest := MaxZ(s[1..]);
      if s[0].zIndex > rest then s[0].zIndex else rest
  }

  /** The zIndex that brings an object in front of the whole collection. */
  function NextZ<P>(s: seq<Obj<P>>): (z: int)
    ensures z >= 1
    ensures forall i :: 0 <= i < |s| ==> s[i].zIndex < z
  {
    MaxZ(s) + 1
  }

  // ---------------------------------------------------------------------------
  // Append: `[...s, newObject]` with `zIndex: Math.max(...s.map(o => o.zIndex), 0) + 1`

  function Add<P>(s: seq<Obj<P>>, id: string, position: Position, rotation: real, data: P): (r: seq<Obj<P>>)
    ensures |r| == |s| + 1 && r[..|s|] == s
    ensures r[|s|].id == id && r[|s|].position == position && r[|s|].rotation == rotation && r[|s|].data == data
    ensures r[|s|].zIndex >= 1
    ensures forall i :: 0 <= i < |s| ==> r[i].zIndex < r[|s|].zIndex
  {
    s + [Obj(id, position, rotation, NextZ(s), data)]
  }

  /** After an append, the new object holds the collection's maximum zIndex. */
  lemma AddIsTop<P>(s: seq<Obj<P>>, id: string, position: Position, rotation: real, data: P)
    ensures var r := Add(s, id, position, rotation, data);
            MaxZ(r) == r[|s|].zIndex == MaxZ(s) + 1
  {
  }

  /** The first object of a kind gets zIndex 1. */
  lemma AddToEmpty<P>(id: string, position: Position, rotation: real, data: P)
    ensures Add([], id, position, rotation, data) == [Obj(id, position, rotation, 1, data)]
  {
  }

  /** An append keeps the ids distinct exactly when the new id is fresh. */
  lemma AddUnique<P>(s: seq<Obj<P>>, id: string, position: Position, rotation: real, data: P)
    requires UniqueIds(s)
    ensures UniqueIds(Add(s, id, position, rotation, data)) <==> !HasId(s, id)
  {
  }

  // ---------------------------------------------------------------------------
  // Delete: `s.filter(o => o.id !== id)`

  function Remove<P>(s: seq<Obj<P>>, id: string): (r: seq<Obj<P>>)
    ensures |r| <= |s|
    ensures forall i :: 0 <= i < |r| ==> r[i].id != id
    ensures forall i :: 0 <= i < |r| ==> r[i] in s
    ensures forall i :: 0 <= i < |s| && s[i].id != id ==> s[i] in r
  {
    if s == [] then []
    else if s[0].id == id then Remove(s[1..], id)
    else [s[0]] + Remove(s[1..], id)
  }

  /** Deleting distributes over concatenation, so the kept objects stay in their order. */
  lemma {:induction false} RemoveAppend<P>(s: seq<Obj<P>>, t: seq<Obj<P>>, id: string)
    ensures Remove(s + t, id) == Remove(s, id) + Remove(t, id)
  {
    if s == [] {
      assert s + t == t;
    } else {
      assert (s + t)[1..] == s[1..] + t;
      RemoveAppend(s[1..], t, id);
    }
  }

  /** Deleting an id no object has changes nothing. */
  lemma {:induction false} RemoveAbsent<P>(s: seq<Obj<P>>, id: string)
    requires !HasId(s, id)
    ensures Remove(s, id) == s
  {
    if s != [] {
      assert !HasId(s[1..], id) by {
        forall i | 0 <= i < |s[1..]| ensures s[1..][i].id != id {
          assert s[1..][i] == s[i + 1];
        }
      }
      RemoveAbsent(s[1..], id);
      assert s == [s[0]] + s[1..];
    }
  }

  /** With distinct ids, deleting the id of the k-th object removes exactly that object. */
  lemma RemoveExactlyOne<P>(s: seq<Obj<P>>, k: int)
    requires UniqueIds(s)
    requires 0 <= k < |s|
    ensures Remove(s, s[k].id) == s[..k] + s[k + 1..]
    ensures |Remove(s, s[k].id)| == |s| - 1
  {
    var id := s[k].id;
    assert s == s[..k] + ([s[k]] + s[k + 1..]);
    RemoveAppend(s[..k], [s[k]] + s[k + 1..], id);
    RemoveAppend([s[k]], s[k + 1..], id);
    assert !HasId(s[..k], id) by {
      forall i | 0 <= i < k ensures s[..k][i].id != id {
        assert s[..k][i] == s[i];
      }
    }
    var after := s[k + 1..];
    assert !HasId(after, id) by {
      forall i | 0 <= i < |after| ensures after[i].id != id {
        assert after[i] == s[k + 1 + i];
      }
    }
    RemoveAbsent(s[..k], id);
    RemoveAbsent(s[k + 1..], id);
    assert Remove([s[k]], id) == [];
  }

  /** Deleting twice is deleting once. */
  lemma RemoveIdempotent<P>(s: seq<Obj<P>>, id: string)
    ensures Remove(Remove(s, id), id) == Remove(s, id)
  {
  }

  /** Deleting keeps the ids distinct. */
  lemma {:induction false} RemoveUnique<P>(s: seq<Obj<P>>, id: string)
    requires UniqueIds(s)
    ensures UniqueIds(Remove(s, id))
  {
    if s != [] {
      RemoveUnique(s[1..], id);
      var rest := Remove(s[1..], id);
      if s[0].id != id {
        forall j | 0 <= j < |rest| ensures rest[j].id != s[0].id {
          var k :| 0 <= k < |s[1..]| && s[1..][k] == rest[j];
          assert s[k + 1] == rest[j];
        }
      }
    }
  }

  /** Deleting the id of a freshly appended object undoes the append. */
  lemma RemoveUndoesAdd<P>(s: seq<Obj<P>>, id: string, position: Position, rotation: real, data: P)
    requires !HasId(s, id)
    ensures Remove(Add(s, id, position, rotation, data), id) == s
  {
    var o := Obj(id, position, rotation, NextZ(s), data);
    RemoveAppend(s, [o], id);
    RemoveAbsent(s, id);
  }

  // ---------------------------------------------------------------------------
  // Rotate: `s.map(o => o.id === id ? { ...o, rotation: o.rotation + delta } : o)`

  function Rotate<P>(s: seq<Obj<P>>, id: string, delta: real): (r: seq<Obj<P>>)
    ensures |r| == |s|
    ensures forall i :: 0 <= i < |s| ==> r[i].(rotation := s[i].rotation) == s[i]
    ensures forall i :: 0 <= i < |s| ==> r[i].rotation == s[i].rotation + (if s[i].id == id then delta else 0.0)
  {
    seq(|s|, i requires 0 <= i < |s| =>
      if s[i].id == id then s[i].(rotation := s[i].rotation + delta) else s[i])
  }

  /** Two rotations of the same id add up. */
  lemma RotateTwice<P>(s: seq<Obj<P>>, id: string, a: real, b: real)
    ensures Rotate(Rotate(s, id, a), id, b) == Rotate(s, id, a + b)
  {
  }

  /** Rotating back by the opposite angle restores the collection. */
  lemma RotateInverse<P>(s: seq<Obj<P>>, id: string, delta: real)
    ensures Rotate(Rotate(s, id, delta), id, -delta) == s
  {
  }

  // ---------------------------------------------------------------------------
  // Drag-move: `s.map(o => o.id === id ? { ...o, position: to, zIndex: Math.max(...s.map(o => o.zIndex), 0) + 1 } : o)`

  function Drag<P>(s: seq<Obj<P>>, id: string, to: Position): (r: seq<Obj<P>>)
    ensures |r| == |s|
    ensures forall i :: 0 <= i < |s| ==> r[i].(position := s[i].position, zIndex := s[i].zIndex) == s[i]
    ensures forall i :: 0 <= i < |s| && s[i].id != id ==> r[i] == s[i]
    ensures forall i :: 0 <= i < |s| && s[i].id == id ==> r[i].position == to
    ensures forall i :: 0 <= i < |s| && s[i].id == id ==> r[i].zIndex == NextZ(s) && r[i].zIndex >= 1
    ensures forall i, j :: 0 <= i < |s| && 0 <= j < |s| && s[i].id == id ==> s[j].zIndex < r[i].zIndex
  {
    var z := NextZ(s);
    seq(|s|, i requires 0 <= i < |s| =>
      if s[i].id == id then s[i].(position := to, zIndex := z) else s[i])
  }

  /**
   * A dragged object ends up in front of every other object of its kind, and
   * the kind's maximum grows by exactly one.
   */
  lemma DragBringsToFront<P>(s: seq<Obj<P>>, id: string, to: Position)
    requires HasId(s, id)
    ensures var r := Drag(s, id, to);
            && MaxZ(r) == MaxZ(s) + 1
            && forall i, j :: 0 <= i < |r| && 0 <= j < |r| && r[i].id == id && r[j].id != id ==> r[j].zIndex < r[i].zIndex
  {
  }

  /** Dragging an id no object has changes nothing. */
  lemma DragAbsent<P>(s: seq<Obj<P>>, id: string, to: Position)
    requires !HasId(s, id)
    ensures Drag(s, id, to) == s
  {
  }

  // ---------------------------------------------------------------------------
  // Resize: `s.map(o => o.id === id ? { ...o, scale } : o)`

  function Rescale<D>(s: seq<Obj<Scaled<D>>>, id: string, scale: real): (r: seq<Obj<Scaled<D>>>)
    ensures |r| == |s|
    ensures forall i :: 0 <= i < |s| ==> r[i].data.(scale := s[i].data.scale) == s[i].data
    ensures forall i :: 0 <= i < |s| ==> r[i].(data := s[i].data) == s[i]
    ensures forall i :: 0 <= i < |s| ==> r[i].data.scale == if s[i].id == id then scale else s[i].data.scale
  {
    seq(|s|, i requires 0 <= i < |s| =>
      if s[i].id == id then s[i].(data := s[i].data.(scale := scale)) else s[i])
  }

  /** Of two resizes of the same id, the later one wins. */
  lemma RescaleTwice<D>(s: seq<Obj<Scaled<D>>>, id: string, a: real, b: real)
    ensures Rescale(Rescale(s, id, a), id, b) == Rescale(s, id, b)
  {
  }

  // ---------------------------------------------------------------------------
  // The in-place updates keep every id where it was

  lemma UpdatesKeepIds<P>(s: seq<Obj<P>>, id: string, delta: real, to: Position)
    ensures Ids(Rotate(s, id, delta)) == Ids(s)
    ensures Ids(Drag(s, id, to)) == Ids(s)
    ensures UniqueIds(s) ==> UniqueIds(Rotate(s, id, delta)) && UniqueIds(Drag(s, id, to))
  {
  }
}
