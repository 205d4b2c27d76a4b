/**
 * The state of the viewer component that its handlers change in place:
 * the bloom compositor's `materials` dictionary and the objects' materials
 * it swaps, and the component's object list with the layer masks of the
 * listed meshes.
 */
module SceneInteraction {
  import opened Layers
  import opened Scene
  import opened BloomMaterials
  import opened ObjectList

  /**
   * The closure state of the render loop: the shared dark material and the
   * dictionary of saved materials, keyed by object uuid.
   */
  class BloomCompositor {
    const darkMaterial: Material
    var materials: map<Uuid, Material>

    constructor ()
      ensures materials == map[]
    {
      darkMaterial := new Material();
      materials := map[];
    }

    /** `nonBloomed(obj)`: darken a mesh off the bloom layer, saving its material. */
    method NonBloomed(obj: Object3D)
      modifies this`materials, obj`material
      ensures var v := NonBloomedVisit(old(View(obj)), old(materials), darkMaterial);
              View(obj) == v.obj && materials == v.materials
    {
      if obj.isMesh && !Test(BloomLayer, obj.layers) {
        materials := materials[obj.uuid := obj.material];
        obj.material := darkMaterial;
      }
    }

    /** `restoreMaterial(obj)`: put a saved material back and delete its entry. */
    method RestoreMaterial(obj: Object3D)
      modifies this`materials, obj`material
      ensures var v := RestoreVisit(old(View(obj)), old(materials));
              View(obj) == v.obj && materials == v.materials
    {
      if obj.uuid in materials {
        obj.material := materials[obj.uuid];
        materials := materials - {obj.uuid};
      }
    }

    /**
     * One visit of `scene.traverse(nonBloomed)`: the objects before `i`
     * have been swept, the object at `i` is visited and the rest are as
     * they started.
     */
    method NonBloomedAt(scene: seq<Object3D>, i: nat, ghost before: seq<ObjView>, ghost m0: map<Uuid, Material>)
      requires DistinctUuids(scene) && i < |scene| == |before|
      requires forall j :: 0 <= j < |scene| ==>
                 View(scene[j]) == if j < i then DimView(before[j], darkMaterial) else before[j]
      requires materials == NonBloomedSweep(before[..i], m0, darkMaterial).materials
      modifies this`materials, scene[i]
      ensures forall j :: 0 <= j < |scene| ==>
                View(scene[j]) == if j < i + 1 then DimView(before[j], darkMaterial) else before[j]
      ensures materials == NonBloomedSweep(before[..i + 1], m0, darkMaterial).materials
    {
      NonBloomedSweepStep(before, m0, darkMaterial, i);
      assert forall j :: 0 <= j < |scene| && j != i ==> scene[j] != scene[i];
      NonBloomed(scene[i]);
    }

    /** `scene.traverse(nonBloomed)` over the objects in traversal order. */
    method TraverseNonBloomed(scene: seq<Object3D>)
      requires DistinctUuids(scene)
      modifies this`materials, scene
      ensures var s := NonBloomedSweep(old(Views(scene)), old(materials), darkMaterial);
              Views(scene) == s.objs && materials == s.materials
    {
      ghost var before := Views(scene);
      ghost var m0 := materials;
      for i := 0 to |scene|
        invariant forall j :: 0 <= j < |scene| ==>
                    View(scene[j]) == if j < i then DimView(before[j], darkMaterial) else before[j]
        invariant materials == NonBloomedSweep(before[..i], m0, darkMaterial).materials
      {
        NonBloomedAt(scene, i, before, m0);
      }
      assert before[..|scene|] == before;
      NonBloomedSweepObjects(before, m0, darkMaterial);
      ViewsAre(scene, NonBloomedSweep(before, m0, darkMaterial).objs);
    }

    /**
     * One visit of `scene.traverse(restoreMaterial)`: the objects before
     * `i` have been restored, the object at `i` is visited and the rest are
     * as they started.
     */
    method RestoreAt(scene: seq<Object3D>, i: nat, ghost before: seq<ObjView>, ghost m0: map<Uuid, Material>)
      requires DistinctUuids(scene) && i < |scene| == |before|
      requires forall j :: 0 <= j < |before| ==> before[j].uuid == scene[j].uuid
      requires forall j :: 0 <= j < |scene| ==>
                 View(scene[j]) == if j < i then RestoreVisit(before[j], m0).obj else before[j]
      requires materials == m0 - Uuids(before[..i])
      modifies this`materials, scene[i]
      ensures forall j :: 0 <= j < |scene| ==>
                View(scene[j]) == if j < i + 1 then RestoreVisit(before[j], m0).obj else before[j]
      ensures materials == m0 - Uuids(before[..i + 1])
    {
      assert DistinctViewUuids(before);
      RestoreSweepStep(before, m0, i);
      assert forall j :: 0 <= j < |scene| && j != i ==> scene[j] != scene[i];
      RestoreMaterial(scene[i]);
    }

    /** `scene.traverse(restoreMaterial)` over the objects in traversal order. */
    method TraverseRestore(scene: seq<Object3D>)
      requires DistinctUuids(scene)
      modifies this`materials, scene
      ensures var s := RestoreSweep(old(Views(scene)), old(materials));
              Views(scene) == s.objs && materials == s.materials
    {
      ghost var before := Views(scene);
      ghost var m0 := materials;
      for i := 0 to |scene|
        invariant forall j :: 0 <= j < |scene| ==>
                    View(scene[j]) == if j < i then RestoreVisit(before[j], m0).obj else before[j]
        invariant materials == m0 - Uuids(before[..i])
      {
        RestoreAt(scene, i, before, m0);
      }
      assert before[..|scene|] == before;
      assert DistinctViewUuids(before);
      RestoreSweepDistinct(before, m0);
      RestoreSweepMaterials(before, m0);
      ViewsAre(scene, RestoreSweep(before, m0).objs);
    }

    /**
     * The material part of one `animate` tick: swap, bloom render, restore.
     * `bloomFrame` is the scene as the bloom composer renders it: every mesh
     * off the bloom layer in the dark material, everything else as it was.
     * Afterwards every object has its own material again and the dictionary
     * is empty, ready for the next tick.
     */
    method RenderFrame(scene: seq<Object3D>) returns (bloomFrame: seq<ObjView>)
      requires DistinctUuids(scene) && materials == map[]
      modifies this`materials, scene
      ensures |bloomFrame| == |scene|
      ensures forall j :: 0 <= j < |scene| ==> bloomFrame[j] == DimView(old(View(scene[j])), darkMaterial)
      ensures Views(scene) == old(Views(scene)) && materials == map[]
    {
      ghost var before := Views(scene);
      assert DistinctViewUuids(before);
      TraverseNonBloomed(scene);
      bloomFrame := Views(scene);
      NonBloomedSweepObjects(before, map[], darkMaterial);
      TraverseRestore(scene);
      FrameRoundTrip(before, darkMaterial);
    }
  }

  /** A ray hit; only the object hit is used. */
  datatype Intersection = Intersection(obj: Object3D)

  /** The component: its object list and the list its mount effect captured. */
  class SceneInteractionManager {
    var objectList: seq<Entry>

    /**
     * The value of `objectList` when the mount effect ran, which is what the
     * pointer handler registered there keeps reading.
     */
    const mountedObjectList: seq<Entry>

    ghost predicate Valid()
      reads this
    {
      DistinctEntries(objectList) && mountedObjectList == []
    }

    /** The meshes the list refers to. */
    ghost function Meshes(): set<Object3D>
      reads this
    {
      set e | e in objectList :: e.obj
    }

    /** Each entry's flag agrees with its mesh's bloom bit. */
    ghost predicate InSync()
      reads this, Meshes()
    {
      forall e :: e in objectList ==> e.hasBloom == OnBloomLayer(e.obj.layers)
    }

    /** The first render: the list is empty, and so is the captured list. */
    constructor ()
      ensures objectList == [] && Valid() && InSync()
    {
      objectList := [];
      mountedObjectList := [];
    }

    /** The loader callback: the list becomes one fresh entry per mesh. */
    method OnModelLoaded(traversal: seq<Object3D>)
      requires Valid() && DistinctUuids(traversal)
      modifies this`objectList
      ensures Valid() && objectList == MeshEntries(traversal)
      ensures (forall o :: o in traversal && o.isMesh ==> !OnBloomLayer(o.layers)) ==> InSync()
    {
      objectList := BuildObjectList(traversal);
      MeshEntriesDistinct(traversal);
      MeshEntriesAreFreshMeshes(traversal);
    }

    /**
     * `handleCheckboxChange(uuid)`: the entry of that uuid has its flag
     * flipped and its mesh's bloom bit toggled; every other entry and mesh
     * is left as it was.
     */
    method HandleCheckboxChange(uuid: Uuid)
      requires Valid()
      modifies this`objectList, Meshes()`layers
      ensures Valid() && Meshes() == old(Meshes())
      ensures objectList == FlipMatching(old(objectList), uuid)
      ensures forall k :: 0 <= k < |old(objectList)| ==>
                var o := old(objectList)[k].obj;
                o.layers == if o.uuid == uuid then Toggle(old(o.layers), BloomScene) else old(o.layers)
      ensures old(InSync()) ==> InSync()
    {
      var updated := [];
      for i := 0 to |objectList|
        invariant objectList == old(objectList)
        invariant |updated| == i
        invariant forall k :: 0 <= k < i ==> updated[k] == Flip(objectList[k], uuid)
        invariant forall k :: 0 <= k < |objectList| ==>
                    objectList[k].obj.layers == if k < i && objectList[k].obj.uuid == uuid
                                                then Toggle(old(objectList[k].obj.layers), BloomScene)
                                                else old(objectList[k].obj.layers)
      {
        var e := objectList[i];
        if e.obj.uuid == uuid {
          e.obj.layers := Toggle(e.obj.layers, BloomScene);
          updated := updated + [e.(hasBloom := !e.hasBloom)];
        } else {
          updated := updated + [e];
        }
      }
      objectList := updated;
    }
  
    /**
     * Two changes of the same checkbox give back the list and every mask.
     */
    method HandleCheckboxChangeTwice(uuid: Uuid)
      requires Valid()
      modifies this`objectList, Meshes()`layers
      ensures Valid() && objectList == old(objectList)
      ensures forall k :: 0 <= k < |objectList| ==> objectList[k].obj.layers == old(objectList[k].obj.layers)
    {
      ghost var list0 := objectList;
      HandleCheckboxChange(uuid);
      HandleCheckboxChange(uuid);
      FlipMatchingTwice(list0, uuid);
      forall k | 0 <= k < |list0| && list0[k].obj.uuid == uuid
        ensures list0[k].obj.layers == old(list0[k].obj.layers)
      {
        ToggleTwice(old(list0[k].obj.layers), BloomScene);
      }
    }

    /**
     * `onPointerDown`, as registered by the mount effect: with no hit nothing
     * changes; otherwise the first hit has its bloom bit toggled and the list
     * becomes the update of the list captured at mount, which is empty.
     */
    method OnPointerDown(intersects: seq<Intersection>)
      requires Valid()
      modifies this`objectList, (if intersects == [] then {} else {intersects[0].obj})`layers
      ensures Valid()
      ensures intersects == [] ==> objectList == old(objectList)
      ensures intersects != [] ==>
                intersects[0].obj.layers == Toggle(old(intersects[0].obj.layers), BloomScene) &&
                objectList == FlipMatching(mountedObjectList, intersects[0].obj.uuid)
      ensures intersects != [] ==> objectList == []
    {
      if |intersects| > 0 {
        var hit := intersects[0].obj;
        hit.layers := Toggle(hit.layers, BloomScene);
        objectList := FlipMatching(mountedObjectList, hit.uuid);
      }
    }

    /**
     * The pick handler updating the current list instead: the entry of the
     * hit mesh flips together with its bloom bit, so the flags stay in step
     * with the masks. A uuid names one object of the scene.
     */
    method OnPointerDownCurrentList(intersects: seq<Intersection>)
      requires Valid()
      requires intersects != [] ==>
                 forall e :: e in objectList && e.obj.uuid == intersects[0].obj.uuid ==> e.obj == intersects[0].obj
      modifies this`objectList, (if intersects == [] then {} else {intersects[0].obj})`layers
      ensures Valid() && Meshes() == old(Meshes())
      ensures intersects == [] ==> objectList == old(objectList)
      ensures intersects != [] ==>
                intersects[0].obj.layers == Toggle(old(intersects[0].obj.layers), BloomScene) &&
                objectList == FlipMatching(old(objectList), intersects[0].obj.uuid)
      ensures old(InSync()) ==> InSync()
    {
      if |intersects| > 0 {
        var hit := intersects[0].obj;
        hit.layers := Toggle(hit.layers, BloomScene);
        objectList := FlipMatching(objectList, hit.uuid);
        forall e | e in old(objectList) && e.obj == hit ensures e.hasBloom == !OnBloomLayer(hit.layers) || !old(InSync()) {
          ToggleFlipsBloom(old(hit.layers));
        }
      }
    }
  }

  /**
   * The pick handler as written, after a load: the model has a mesh, so the
   * loaded list is not empty, yet the first hit leaves the list empty.
   */
  method StalePickAfterLoad(traversal: seq<Object3D>, mesh: Object3D, intersects: seq<Intersection>)
    returns (m: SceneInteractionManager)
    requires DistinctUuids(traversal) && mesh in traversal && mesh.isMesh
    requires intersects != []
    modifies intersects[0].obj`layers
    ensures MeshEntries(traversal) != []
    ensures m.objectList == []
  {
    m := new SceneInteractionManager();
    m.OnModelLoaded(traversal);
    MeshEntriesCoverMeshes(traversal, mesh);
    m.OnPointerDown(intersects);
  }
}
