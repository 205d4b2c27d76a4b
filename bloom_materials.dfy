/**
 * The selective-bloom material swap as functions on object states.
 *
 * Before the bloom pass the render loop visits every object with
 * `nonBloomed`: a mesh off the bloom layer has its material saved in the
 * `materials` dictionary under its uuid and replaced by the shared dark
 * material. After the bloom pass it visits every object with
 * `restoreMaterial`: an object whose uuid has a saved material gets it
 * back and the entry is deleted. A visit maps one object state and the
 * dictionary to new ones; a sweep folds the visits over a traversal.
 */
module BloomMaterials {
  import opened Layers
  import opened Scene

  /** The objects `nonBloomed` darkens: meshes whose mask lacks the bloom bit. */
  predicate Dimmed(o: ObjView)
  {
    o.isMesh && BloomScene !in o.layers
  }

  /** The uuids of the dimmed objects of a traversal. */
  function DimmedUuids(os: seq<ObjView>): (u: set<Uuid>)
    ensures forall j :: 0 <= j < |os| && Dimmed(os[j]) ==> os[j].uuid in u
    ensures u <= Uuids(os)
  {
    set j | 0 <= j < |os| && Dimmed(os[j]) :: os[j].uuid
  }

  /** One object's state and the `materials` dictionary after one visit. */
  datatype Visit = Visit(obj: ObjView, materials: map<Uuid, Material>)

  /** All objects' states and the dictionary after a sweep. */
  datatype Sweep = Sweep(objs: seq<ObjView>, materials: map<Uuid, Material>)

  /** How the bloom pass shows one object: dimmed objects in the dark material. */
  function DimView(o: ObjView, dark: Material): (r: ObjView)
    ensures r.uuid == o.uuid && r.isMesh == o.isMesh && r.layers == o.layers
    ensures Dimmed(o) ==> r.material == dark
    ensures !Dimmed(o) ==> r == o
  {
    if Dimmed(o) then o.(material := dark) else o
  }

  /** `nonBloomed(obj)`. */
  function NonBloomedVisit(o: ObjView, materials: map<Uuid, Material>, dark: Material): (v: Visit)
    ensures v.obj == DimView(o, dark)
    ensures Dimmed(o) ==> v.materials == materials[o.uuid := o.material]
    ensures !Dimmed(o) ==> v == Visit(o, materials)
  {
    OnBloomLayerIsBloomBit(o.layers);
    if o.isMesh && !Test(BloomLayer, o.layers) then
      Visit(o.(material := dark), materials[o.uuid := o.material])
    else
      Visit(o, materials)
  }

  /** `restoreMaterial(obj)`; an object with no saved material is left alone. */
  function RestoreVisit(o: ObjView, materials: map<Uuid, Material>): (v: Visit)
    ensures v.obj.(material := o.material) == o
    ensures o.uuid !in v.materials && v.materials == materials - {o.uuid}
    ensures o.uuid in materials ==> v.obj.material == materials[o.uuid]
    ensures o.uuid !in materials ==> v == Visit(o, materials)
  {
    if o.uuid in materials then
      Visit(o.(material := materials[o.uuid]), materials - {o.uuid})
    else
      Visit(o, materials)
  }

  /** Restoring right after swapping gives back the object and the dictionary. */
  lemma VisitRoundTrip(o: ObjView, materials: map<Uuid, Material>, dark: Material)
    requires o.uuid !in materials
    ensures var v := NonBloomedVisit(o, materials, dark);
            RestoreVisit(v.obj, v.materials) == Visit(o, materials)
  {
    var v := NonBloomedVisit(o, materials, dark);
    if Dimmed(o) {
      assert v.materials - {o.uuid} == materials;
    }
  }

  /** `scene.traverse(nonBloomed)`: visits the objects in traversal order. */
  function NonBloomedSweep(os: seq<ObjView>, materials: map<Uuid, Material>, dark: Material): (s: Sweep)
    decreases |os|
    ensures |s.objs| == |os|
  {
    if os == [] then Sweep([], materials)
    else
      var prev := NonBloomedSweep(os[..|os| - 1], materials, dark);
      var v := NonBloomedVisit(os[|os| - 1], prev.materials, dark);
      Sweep(prev.objs + [v.obj], v.materials)
  }

  /** `scene.traverse(restoreMaterial)`: visits the objects in traversal order. */
  function RestoreSweep(os: seq<ObjView>, materials: map<Uuid, Material>): (s: Sweep)
    decreases |os|
    ensures |s.objs| == |os|
  {
    if os == [] then Sweep([], materials)
    else
      var prev := RestoreSweep(os[..|os| - 1], materials);
      var v := RestoreVisit(os[|os| - 1], prev.materials);
      Sweep(prev.objs + [v.obj], v.materials)
  }

  /** Extending the traversal by one object extends the swap sweep by one visit. */
  lemma NonBloomedSweepStep(os: seq<ObjView>, materials: map<Uuid, Material>, dark: Material, i: nat)
    requires i < |os|
    ensures NonBloomedSweep(os[..i + 1], materials, dark).materials
         == NonBloomedVisit(os[i], NonBloomedSweep(os[..i], materials, dark).materials, dark).materials
  {
    assert os[..i + 1][..i] == os[..i];
  }

  /**
   * What the bloom pass renders: after the swap sweep every dimmed object
   * shows the dark material and every other object is as it was.
   */
  lemma {:induction false} NonBloomedSweepObjects(os: seq<ObjView>, materials: map<Uuid, Material>, dark: Material)
    ensures forall j :: 0 <= j < |os| ==> NonBloomedSweep(os, materials, dark).objs[j] == DimView(os[j], dark)
    decreases |os|
  {
    if os != [] {
      var n := |os| - 1;
      NonBloomedSweepObjects(os[..n], materials, dark);
      var prev := NonBloomedSweep(os[..n], materials, dark);
      var v := NonBloomedVisit(os[n], prev.materials, dark);
      var s := NonBloomedSweep(os, materials, dark);
      assert s.objs == prev.objs + [v.obj];
      forall j | 0 <= j < |os| ensures s.objs[j] == DimView(os[j], dark) {
        if j < n {
          assert os[..n][j] == os[j];
        }
      }
    }
  }

  /** The swap sweep adds an entry for every dimmed uuid and no other. */
  lemma {:induction false} NonBloomedSweepKeys(os: seq<ObjView>, materials: map<Uuid, Material>, dark: Material)
    ensures forall id :: id in NonBloomedSweep(os, materials, dark).materials <==>
              id in materials || id in DimmedUuids(os)
    decreases |os|
  {
    if os != [] {
      var n := |os| - 1;
      NonBloomedSweepKeys(os[..n], materials, dark);
      var prev := NonBloomedSweep(os[..n], materials, dark);
      var v := NonBloomedVisit(os[n], prev.materials, dark);
      assert NonBloomedSweep(os, materials, dark).materials == v.materials;
      DimmedUuidsSnoc(os);
    }
  }

  /** The swap sweep keeps every entry it started with whose uuid it does not dim. */
  lemma {:induction false} NonBloomedSweepKeeps(os: seq<ObjView>, materials: map<Uuid, Material>, dark: Material)
    ensures forall id :: id in materials && id !in DimmedUuids(os) ==>
              id in NonBloomedSweep(os, materials, dark).materials &&
              NonBloomedSweep(os, materials, dark).materials[id] == materials[id]
    decreases |os|
  {
    if os != [] {
      var n := |os| - 1;
      NonBloomedSweepKeeps(os[..n], materials, dark);
      var prev := NonBloomedSweep(os[..n], materials, dark);
      var v := NonBloomedVisit(os[n], prev.materials, dark);
      assert NonBloomedSweep(os, materials, dark).materials == v.materials;
      DimmedUuidsSnoc(os);
    }
  }

  lemma DimmedUuidsSnoc(os: seq<ObjView>)
    requires os != []
    ensures DimmedUuids(os) == DimmedUuids(os[..|os| - 1]) + (if Dimmed(os[|os| - 1]) then {os[|os| - 1].uuid} else {})
  {
    var n := |os| - 1;
    var last := if Dimmed(os[n]) then {os[n].uuid} else {};
    forall id | id in DimmedUuids(os) ensures id in DimmedUuids(os[..n]) + last {
      var k :| 0 <= k < |os| && Dimmed(os[k]) && os[k].uuid == id;
      if k < n {
        assert os[..n][k] == os[k];
      }
    }
    forall id | id in DimmedUuids(os[..n]) ensures id in DimmedUuids(os) {
      var k :| 0 <= k < n && Dimmed(os[..n][k]) && os[..n][k].uuid == id;
      assert os[..n][k] == os[k];
    }
  }

  /** With distinct uuids, the swap sweep saves each dimmed object's own material. */
  lemma {:induction false} SavedMaterial(os: seq<ObjView>, materials: map<Uuid, Material>, dark: Material, j: nat)
    requires DistinctViewUuids(os)
    requires j < |os| && Dimmed(os[j])
    ensures os[j].uuid in NonBloomedSweep(os, materials, dark).materials
    ensures NonBloomedSweep(os, materials, dark).materials[os[j].uuid] == os[j].material
    decreases |os|
  {
    var n := |os| - 1;
    if j < n {
      DistinctViewPrefix(os, n);
      assert os[..n][j] == os[j];
      SavedMaterial(os[..n], materials, dark, j);
      assert os[n].uuid != os[j].uuid;
    }
  }

  lemma UuidsSnoc(os: seq<ObjView>)
    requires os != []
    ensures Uuids(os) == Uuids(os[..|os| - 1]) + {os[|os| - 1].uuid}
  {
    var n := |os| - 1;
    forall id | id in Uuids(os) ensures id in Uuids(os[..n]) + {os[n].uuid} {
      var k :| 0 <= k < |os| && os[k].uuid == id;
      if k < n {
        assert os[..n][k] == os[k];
      }
    }
    forall id | id in Uuids(os[..n]) ensures id in Uuids(os) {
      var k :| 0 <= k < n && os[..n][k].uuid == id;
      assert os[..n][k] == os[k];
    }
  }

  /** The restore sweep deletes every uuid of the traversal from the dictionary. */
  lemma {:induction false} RestoreSweepMaterials(os: seq<ObjView>, materials: map<Uuid, Material>)
    ensures RestoreSweep(os, materials).materials == materials - Uuids(os)
    decreases |os|
  {
    if os == [] {
      assert Uuids(os) == {};
    } else {
      var n := |os| - 1;
      RestoreSweepMaterials(os[..n], materials);
      var prev := RestoreSweep(os[..n], materials);
      var v := RestoreVisit(os[n], prev.materials);
      assert RestoreSweep(os, materials).materials == v.materials;
      UuidsSnoc(os);
    }
  }

  /**
   * One visit of the restore sweep: with distinct uuids, the object finds its
   * entry as it started, and the entries of the visited prefix are gone.
   */
  lemma RestoreSweepStep(os: seq<ObjView>, materials: map<Uuid, Material>, i: nat)
    requires DistinctViewUuids(os) && i < |os|
    ensures var v := RestoreVisit(os[i], materials - Uuids(os[..i]));
            v.obj == RestoreVisit(os[i], materials).obj && v.materials == materials - Uuids(os[..i + 1])
  {
    assert os[..i + 1][..i] == os[..i];
    UuidsSnoc(os[..i + 1]);
    UuidNotInPrefix(os, i);
  }

  /**
   * With distinct uuids, the restore sweep restores each object from the
   * dictionary it started with: no earlier visit can delete its entry.
   */
  lemma {:induction false} RestoreSweepDistinct(os: seq<ObjView>, materials: map<Uuid, Material>)
    requires DistinctViewUuids(os)
    ensures forall j :: 0 <= j < |os| ==>
              RestoreSweep(os, materials).objs[j] == RestoreVisit(os[j], materials).obj
    decreases |os|
  {
    if os != [] {
      var n := |os| - 1;
      DistinctViewPrefix(os, n);
      RestoreSweepDistinct(os[..n], materials);
      RestoreSweepMaterials(os[..n], materials);
      UuidNotInPrefix(os, n);
      var prev := RestoreSweep(os[..n], materials);
      var v := RestoreVisit(os[n], prev.materials);
      assert v.obj == RestoreVisit(os[n], materials).obj;
      var s := RestoreSweep(os, materials);
      assert s.objs == prev.objs + [v.obj];
      forall j | 0 <= j < n ensures s.objs[j] == RestoreVisit(os[j], materials).obj {
        assert os[..n][j] == os[j];
      }
    }
  }

  /** With nothing saved, the restore sweep leaves every object and the dictionary alone. */
  lemma {:induction false} RestoreSweepEmpty(os: seq<ObjView>)
    ensures RestoreSweep(os, map[]) == Sweep(os, map[])
    decreases |os|
  {
    if os != [] {
      var n := |os| - 1;
      RestoreSweepEmpty(os[..n]);
      assert os[..n] + [os[n]] == os;
    }
  }

  /** The swap sweep changes materials only, so uuids stay where they were. */
  lemma NonBloomedSweepUuids(os: seq<ObjView>, materials: map<Uuid, Material>, dark: Material)
    ensures var d := NonBloomedSweep(os, materials, dark);
            (forall j :: 0 <= j < |os| ==> d.objs[j].uuid == os[j].uuid) &&
            Uuids(d.objs) == Uuids(os) &&
            (DistinctViewUuids(os) ==> DistinctViewUuids(d.objs))
  {
    NonBloomedSweepObjects(os, materials, dark);
    var d := NonBloomedSweep(os, materials, dark);
    assert forall j :: 0 <= j < |os| ==> d.objs[j].uuid == os[j].uuid;
  }

  /** One object of the round trip: it gets back exactly its own state. */
  lemma RoundTripAt(os: seq<ObjView>, dark: Material, j: nat)
    requires DistinctViewUuids(os) && j < |os|
    ensures var d := NonBloomedSweep(os, map[], dark);
            RestoreVisit(d.objs[j], d.materials).obj == os[j]
  {
    NonBloomedSweepObjects(os, map[], dark);
    if Dimmed(os[j]) {
      SavedMaterial(os, map[], dark, j);
    } else {
      NonBloomedSweepKeys(os, map[], dark);
      UndimmedNotSaved(os, j);
    }
  }

  /** With distinct uuids, an object the swap leaves alone has no dimmed uuid. */
  lemma UndimmedNotSaved(os: seq<ObjView>, j: nat)
    requires DistinctViewUuids(os) && j < |os| && !Dimmed(os[j])
    ensures os[j].uuid !in DimmedUuids(os)
  {
    forall k | 0 <= k < |os| && Dimmed(os[k]) ensures os[k].uuid != os[j].uuid {
      assert k != j;
    }
  }

  /**
   * One frame of the render loop: with distinct uuids and an empty dictionary,
   * a full swap sweep followed by a full restore sweep gives every object its
   * own material back and leaves the dictionary empty.
   */
  lemma {:induction false} FrameRoundTrip(os: seq<ObjView>, dark: Material)
    requires DistinctViewUuids(os)
    ensures var d := NonBloomedSweep(os, map[], dark);
            RestoreSweep(d.objs, d.materials) == Sweep(os, map[])
  {
    var d := NonBloomedSweep(os, map[], dark);
    NonBloomedSweepUuids(os, map[], dark);
    NonBloomedSweepKeys(os, map[], dark);
    RestoreSweepDistinct(d.objs, d.materials);
    RestoreSweepMaterials(d.objs, d.materials);
    var r := RestoreSweep(d.objs, d.materials);
    assert r.materials == map[];
    forall j | 0 <= j < |os| ensures r.objs[j] == os[j] {
      RoundTripAt(os, dark, j);
    }
  }
}
