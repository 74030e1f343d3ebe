/** The slice of three.js and of the editor store that the commands and the
    selection system touch: meshes with a transform and an optional material,
    a scene holding a set of meshes, and a store remembering the selection. */
module SceneGraph {
  import opened Geometry

  /** The emissive part of a MeshStandardMaterial, plus its colour when it has one. */
  class Material {
    var emissive: int
    var emissiveIntensity: real
    /** `color.getHex()`, or None when the material has no colour. */
    var color: Option<int>

    /** `new MeshStandardMaterial({ color })`: emissive black at intensity 1. */
    constructor (color: Option<int>)
      ensures emissive == 0 && emissiveIntensity == 1.0 && this.color == color
    {
      emissive := 0;
      emissiveIntensity := 1.0;
      this.color := color;
    }
  }

  /** `material.clone()`, as the values it copies. */
  datatype MaterialState = MaterialState(emissive: int, emissiveIntensity: real, color: Option<int>)

  function Snapshot(m: Material): MaterialState
    reads m
  {
    MaterialState(m.emissive, m.emissiveIntensity, m.color)
  }

  /** Position, rotation and scale of an Object3D. */
  datatype Transform = Transform(position: Vec3, rotation: Euler, scale: Vec3)

  /** What the mesh's geometry was built from. */
  datatype GeometryKind = BoxGeometry(width: real, height: real, depth: real) | Built(kind: string)

  const Origin: Vec3 := Vec3(0.0, 0.0, 0.0)
  const NoRotation: Euler := Euler(0.0, 0.0, 0.0, "XYZ")
  const UnitScale: Vec3 := Vec3(1.0, 1.0, 1.0)

  /** A three.js Mesh with the `userData` entries the editor uses. */
  class Mesh {
    var position: Vec3
    var rotation: Euler
    var scale: Vec3
    var material: Material?
    const geometry: GeometryKind
    var selectable: bool
    var shapeType: Option<string>
    var surfaceType: Option<string>
    var params: Option<Params>

    /** `new THREE.Mesh(geometry, material)`: identity transform, empty `userData`. */
    constructor (geometry: GeometryKind, material: Material?)
      ensures this.geometry == geometry && this.material == material
      ensures GetTransform() == Transform(Origin, NoRotation, UnitScale)
      ensures !selectable && shapeType.None? && surfaceType.None? && params.None?
    {
      this.geometry := geometry;
      this.material := material;
      position := Origin;
      rotation := NoRotation;
      scale := UnitScale;
      selectable := false;
      shapeType := None;
      surfaceType := None;
      params := None;
    }

    function GetTransform(): Transform
      reads this
    {
      Transform(position, rotation, scale)
    }
  }

  /** The material object of a mesh, as a frame (empty for a null mesh or material). */
  function Mat(o: Mesh?): set<object>
    reads o
  {
    if o != null && o.material != null then {o.material} else {}
  }

  /** The scene graph (SceneSystem / THREE.Scene) as the set of meshes it holds. */
  class Scene {
    var objects: set<Mesh>

    constructor ()
      ensures objects == {}
    {
      objects := {};
    }

    /** `scene.add`: adding a mesh already present leaves it present once. */
    method Add(m: Mesh)
      modifies this
      ensures objects == old(objects) + {m}
    {
      objects := objects + {m};
    }

    /** `scene.remove`: removing an absent mesh does nothing. */
    method Remove(m: Mesh)
      modifies this
      ensures objects == old(objects) - {m}
    {
      objects := objects - {m};
    }
  }

  /** The editor store's reactive selection: `updateSelectedShape` sets
      `selectedShape`; the surface counterpart that delete-surface calls is
      modelled the same way. */
  class EditorStore {
    var selectedShape: Mesh?
    var selectedSurface: Mesh?

    constructor ()
      ensures selectedShape == null && selectedSurface == null
    {
      selectedShape := null;
      selectedSurface := null;
    }

    method UpdateSelectedShape(m: Mesh?)
      modifies this
      ensures selectedShape == m && selectedSurface == old(selectedSurface)
    {
      selectedShape := m;
    }

    method UpdateSelectedSurface(m: Mesh?)
      modifies this
      ensures selectedSurface == m && selectedShape == old(selectedShape)
    {
      selectedSurface := m;
    }
  }
}
