/** The USD converter's intermediate link record: a plain object whose
    fields the converter fills in, a `Clear` that resets part of it, and a
    weak back-pointer to the parent link. */
module UsdModel {
  import opened PoseMath

  /** Payloads a link points to. Their contents are not part of this model;
      only the identity of the object a pointer designates matters. */
  class Inertial { constructor () { } }
  class Visual { constructor () { } }
  class Collision { constructor () { } }
  class Material { constructor () { } }
  class Light { constructor () { } }
  class Sensor { constructor () { } }
  class Joint { constructor () { } }

  class Link {
    var name: string
    var inertial: Inertial?
    var visual: Visual?
    var collision: Collision?
    /** All collision elements when more than one is given. */
    var collisionArray: seq<Collision?>
    /** All visual elements when more than one is given. */
    var visualArray: seq<Visual?>
    var visualArrayMaterialName: seq<string>
    var visualArrayMaterial: seq<Material?>
    var lights: map<string, Light?>
    var sensors: map<string, Sensor?>
    var parentJoint: Joint?
    var childJoints: seq<Joint?>
    var childLinks: seq<Link?>
    var pose: Pose
    var scale: Vector3
    /** The weak pointer to the parent link; null when it was never set. */
    var parentLink: Link?
    /** Whether some shared pointer still owns this link. A weak pointer to
        a link that is no longer owned has expired. This is the lifetime
        bookkeeping of the shared pointers, not a field of the source. */
    var owned: bool

    /** The fields Clear resets hold the values it gives them. */
    ghost predicate IsCleared()
      reads this
    {
      && name == "" && collision == null
      && childLinks == [] && collisionArray == [] && visualArray == []
      && pose == Identity && scale == One3
    }

    /** A new link: every pointer null, every list and map empty, then
        cleared; it is therefore already in the state Clear leaves. */
    constructor ()
      ensures IsCleared()
      ensures name == "" && inertial == null && visual == null && collision == null
      ensures collisionArray == [] && visualArray == []
      ensures visualArrayMaterialName == [] && visualArrayMaterial == []
      ensures lights == map[] && sensors == map[]
      ensures parentJoint == null && childJoints == [] && childLinks == []
      ensures pose == Identity && scale == One3
      ensures parentLink == null && owned
    {
      inertial := null;
      visual := null;
      visualArrayMaterialName := [];
      visualArrayMaterial := [];
      lights := map[];
      sensors := map[];
      parentJoint := null;
      childJoints := [];
      parentLink := null;
      owned := true;
      new;
      Clear();
    }

    /** Only the fields listed here change; every other field, among them
        the inertial and visual pointers, the material lists, the lights,
        sensors, joints and the parent pointer, keeps its value. */
    method Clear()
      modifies this`name, this`collision, this`childLinks, this`collisionArray,
               this`visualArray, this`scale, this`pose
      ensures IsCleared()
      ensures name == "" && collision == null
      ensures childLinks == [] && collisionArray == [] && visualArray == []
      ensures pose == Identity && scale == One3
      ensures old(IsCleared()) ==> unchanged(this)
    {
      name := "";
      collision := null;
      childLinks := [];
      collisionArray := [];
      visualArray := [];
      scale := Zero3;
      pose := Identity;
      scale := One3;
    }

    /** Locks the weak parent pointer: the parent while it is still owned,
        null once it has expired or when none was set. */
    function GetParent(): (p: Link?)
      reads this, parentLink
      ensures p != null ==> p == parentLink && p.owned
      ensures p == null <==> parentLink == null || !parentLink.owned
    {
      if parentLink != null && parentLink.owned then parentLink else null
    }

    method SetParent(parent: Link?)
      modifies this`parentLink
      ensures parentLink == parent
      ensures GetParent() == (if parent != null && parent.owned then parent else null)
    {
      parentLink := parent;
    }
  }
}
