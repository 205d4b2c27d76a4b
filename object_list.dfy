/**
 * The mesh list behind the bloom checklist: one entry per mesh of the
 * loaded model, with a display name, the mesh itself and a bloom flag.
 * The list is a value; handlers replace it with an updated copy.
 */
module ObjectList {
  import opened Scene

  /** The name shown for a mesh whose `name` is empty. */
  const UnnamedObject: string := "Objeto sem nome"

  /** `{name, object, hasBloom}`; the mesh field is `obj` because `object` is a Dafny keyword. */
  datatype Entry = Entry(name: string, obj: Object3D, hasBloom: bool)

  /** The display name of a mesh: its own name, or the default when that is empty. */
  function DisplayName(name: string): (r: string)
    ensures r != ""
    ensures name != "" ==> r == name
  {
    if name == "" then UnnamedObject else name
  }

  /** The entry pushed for a mesh met during the traversal. */
  function MeshEntry(o: Object3D): Entry
  {
    Entry(DisplayName(o.name), o, false)
  }

  /** The list built on load: the meshes of a traversal, in traversal order. */
  function MeshEntries(t: seq<Object3D>): (r: seq<Entry>)
    decreases |t|
    ensures |r| <= |t|
  {
    if t == [] then []
    else if t[|t| - 1].isMesh then MeshEntries(t[..|t| - 1]) + [MeshEntry(t[|t| - 1])]
    else MeshEntries(t[..|t| - 1])
  }

  /**
   * Every entry of the loaded list is a mesh of the traversal, shown under
   * its display name, with its bloom flag off.
   */
  lemma {:induction false} MeshEntriesAreFreshMeshes(t: seq<Object3D>)
    ensures forall k :: 0 <= k < |MeshEntries(t)| ==>
              var e := MeshEntries(t)[k];
              e.obj in t && e.obj.isMesh && !e.hasBloom && e.name == DisplayName(e.obj.name)
    decreases |t|
  {
    if t != [] {
      var n := |t| - 1;
      MeshEntriesAreFreshMeshes(t[..n]);
      assert forall o :: o in t[..n] ==> o in t;
    }
  }

  /** Every mesh of the traversal has an entry. */
  lemma {:induction false} MeshEntriesCoverMeshes(t: seq<Object3D>, o: Object3D)
    requires o in t && o.isMesh
    ensures exists k :: 0 <= k < |MeshEntries(t)| && MeshEntries(t)[k] == MeshEntry(o)
    decreases |t|
  {
    var n := |t| - 1;
    if t[n] == o {
      assert MeshEntries(t)[|MeshEntries(t)| - 1] == MeshEntry(o);
    } else {
      assert o in t[..n] by {
        assert t == t[..n] + [t[n]];
      }
      MeshEntriesCoverMeshes(t[..n], o);
      var k :| 0 <= k < |MeshEntries(t[..n])| && MeshEntries(t[..n])[k] == MeshEntry(o);
      assert MeshEntries(t)[k] == MeshEntry(o);
    }
  }

  /** Traversal order is kept: the list of a concatenation is the concatenation of the lists. */
  lemma {:induction false} MeshEntriesAppend(t1: seq<Object3D>, t2: seq<Object3D>)
    ensures MeshEntries(t1 + t2) == MeshEntries(t1) + MeshEntries(t2)
    decreases |t2|
  {
    if t2 != [] {
      var n := |t2| - 1;
      assert (t1 + t2)[..|t1 + t2| - 1] == t1 + t2[..n];
      MeshEntriesAppend(t1, t2[..n]);
    } else {
      assert t1 + t2 == t1;
    }
  }

  /** No two entries of a list share a uuid. */
  predicate DistinctEntries(l: seq<Entry>)
  {
    forall i, j :: 0 <= i < j < |l| ==> l[i].obj.uuid != l[j].obj.uuid
  }

  /** A traversal with distinct uuids yields a list with distinct uuids. */
  lemma {:induction false} MeshEntriesDistinct(t: seq<Object3D>)
    requires DistinctUuids(t)
    ensures DistinctEntries(MeshEntries(t))
    decreases |t|
  {
    if t != [] {
      var n := |t| - 1;
      assert DistinctUuids(t[..n]);
      MeshEntriesDistinct(t[..n]);
      MeshEntriesAreFreshMeshes(t[..n]);
      if t[n].isMesh {
        var p := MeshEntries(t[..n]);
        forall k | 0 <= k < |p| ensures p[k].obj.uuid != t[n].uuid {
          var i :| 0 <= i < n && t[..n][i] == p[k].obj;
        }
      }
    }
  }

  /** The update `.map` applies to one entry: flip the flag of the matching mesh. */
  function Flip(e: Entry, uuid: Uuid): (r: Entry)
    ensures r.name == e.name && r.obj == e.obj
    ensures r.hasBloom != e.hasBloom <==> e.obj.uuid == uuid
  {
    if e.obj.uuid == uuid then e.(hasBloom := !e.hasBloom) else e
  }

  /**
   * The list update both handlers build with `map`: length, order, names
   * and meshes are kept, and exactly the entries of the given uuid have
   * their flag flipped.
   */
  function FlipMatching(l: seq<Entry>, uuid: Uuid): (r: seq<Entry>)
    ensures |r| == |l|
    ensures forall k :: 0 <= k < |l| ==> r[k].name == l[k].name && r[k].obj == l[k].obj
    ensures forall k :: 0 <= k < |l| ==> (r[k].hasBloom != l[k].hasBloom <==> l[k].obj.uuid == uuid)
  {
    if l == [] then [] else [Flip(l[0], uuid)] + FlipMatching(l[1..], uuid)
  }

  /** Flipping the same uuid twice gives back the list. */
  lemma {:induction false} FlipMatchingTwice(l: seq<Entry>, uuid: Uuid)
    ensures FlipMatching(FlipMatching(l, uuid), uuid) == l
  {
    if l != [] {
      FlipMatchingTwice(l[1..], uuid);
      assert FlipMatching(l, uuid)[1..] == FlipMatching(l[1..], uuid);
    }
  }

  /**
   * The `traverse` callback of the loader: pushes an entry for each mesh,
   * in traversal order.
   */
  method BuildObjectList(t: seq<Object3D>) returns (loaded: seq<Entry>)
    ensures loaded == MeshEntries(t)
  {
    loaded := [];
    for i := 0 to |t|
      invariant loaded == MeshEntries(t[..i])
    {
      assert t[..i + 1][..i] == t[..i];
      if t[i].isMesh {
        loaded := loaded + [MeshEntry(t[i])];
      }
    }
    assert t[..|t|] == t;
  }
}
