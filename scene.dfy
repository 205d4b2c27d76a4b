/**
 * The scene-graph objects the viewer touches: materials, which the viewer
 * only compares and stores by reference, and 3D objects with an identity
 * (`uuid`), a mesh flag, a name, a replaceable material and a layer mask.
 * `ObjView` is the value of one object's state at one moment, so that the
 * bloom sweeps can be specified as functions of that value.
 */
module Scene {
  import opened Layers

  type Uuid = string

  /** A material, known to the viewer only by reference. */
  class Material {
    constructor ()
    {
    }
  }

  class Object3D {
    const uuid: Uuid
    const isMesh: bool
    const name: string
    var material: Material
    var layers: Layers

    /** A new object is on channel 0 only, as three.js creates it. */
    constructor (uuid: Uuid, isMesh: bool, name: string, material: Material)
      ensures this.uuid == uuid && this.isMesh == isMesh && this.name == name
      ensures this.material == material && layers == Default
    {
      this.uuid := uuid;
      this.isMesh := isMesh;
      this.name := name;
      this.material := material;
      layers := Default;
    }
  }

  /** The state of one object as the bloom sweeps see it. */
  datatype ObjView = ObjView(uuid: Uuid, isMesh: bool, layers: Layers, material: Material)

  function View(o: Object3D): (v: ObjView)
    reads o
    ensures v.uuid == o.uuid && v.isMesh == o.isMesh
    ensures v.layers == o.layers && v.material == o.material
  {
    ObjView(o.uuid, o.isMesh, o.layers, o.material)
  }

  /** The states of a traversal of objects, in traversal order. */
  function Views(s: seq<Object3D>): (r: seq<ObjView>)
    reads s
    ensures |r| == |s|
    ensures forall j :: 0 <= j < |s| ==> r[j] == View(s[j])
  {
    seq(|s|, j requires 0 <= j < |s| reads s => View(s[j]))
  }

  /** The states of a traversal, given object by object. */
  lemma ViewsAre(s: seq<Object3D>, vs: seq<ObjView>)
    requires |vs| == |s| && forall j :: 0 <= j < |s| ==> View(s[j]) == vs[j]
    ensures Views(s) == vs
  {
  }

  /** No two objects of a traversal share a uuid, as three.js generates them. */
  predicate DistinctUuids(s: seq<Object3D>)
  {
    forall i, j :: 0 <= i < j < |s| ==> s[i].uuid != s[j].uuid
  }

  predicate DistinctViewUuids(s: seq<ObjView>)
  {
    forall i, j :: 0 <= i < j < |s| ==> s[i].uuid != s[j].uuid
  }

  /** A prefix of a traversal with distinct uuids has distinct uuids. */
  lemma DistinctViewPrefix(s: seq<ObjView>, n: nat)
    requires DistinctViewUuids(s) && n <= |s|
    ensures DistinctViewUuids(s[..n])
  {
    forall a, b | 0 <= a < b < n ensures s[..n][a].uuid != s[..n][b].uuid {
      assert s[..n][a] == s[a] && s[..n][b] == s[b];
    }
  }

  /** The uuids of a sequence of object states. */
  function Uuids(s: seq<ObjView>): (u: set<Uuid>)
    ensures forall j :: 0 <= j < |s| ==> s[j].uuid in u
  {
    set j | 0 <= j < |s| :: s[j].uuid
  }

  /** With distinct uuids, no object's uuid occurs before it. */
  lemma UuidNotInPrefix(s: seq<ObjView>, n: nat)
    requires DistinctViewUuids(s) && n < |s|
    ensures s[n].uuid !in Uuids(s[..n])
  {
    forall k | 0 <= k < n ensures s[..n][k].uuid != s[n].uuid {
      assert s[..n][k] == s[k];
    }
  }
}
