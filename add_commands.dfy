/** The commands that add a mesh to the scene: the mesh is created by the
    first `execute` only, so a redo adds the very same object again, and
    `undo` removes it if it exists. `Math.random()` draws are parameters in
    [0, 1); the mesh a registry would build is a parameter too. */
module AddCommands {
  import opened Geometry
  import opened SceneGraph
  import opened UndoHistory

  /** `(Math.random() - 0.5) * 5` for a draw `r`. */
  function RandomOffset(r: real): (x: real)
    requires 0.0 <= r < 1.0
    ensures -2.5 <= x < 2.5
  {
    (r - 0.5) * 5.0
  }

  /** The shape types `ShapeRegistry.create` can build; any other name throws. */
  predicate ShapeRegistryHas(shapeType: string) {
    shapeType == "cube" || shapeType == "roundedPrism"
  }

  /** The surface types `SurfaceRegistry.create` can build; any other name throws. */
  predicate SurfaceRegistryHas(surfaceType: string) {
    surfaceType == "conical" || surfaceType == "cylindrical"
  }

  const CubeSize: real := 2.0
  const CubeColor: int := 0x00ff00

  /** The cube both cube commands build: a 2x2x2 box with a green material,
      standing on the ground (y = 1) at a random x and z, marked selectable. */
  predicate IsNewCube(m: Mesh, rx: real, rz: real)
    reads m, Mat(m)
    requires 0.0 <= rx < 1.0 && 0.0 <= rz < 1.0
  {
    && m.geometry == BoxGeometry(CubeSize, CubeSize, CubeSize)
    && m.material != null && m.material.color == Some(CubeColor)
    && m.GetTransform() == Transform(Vec3(RandomOffset(rx), 1.0, RandomOffset(rz)), NoRotation, UnitScale)
    && m.selectable
  }

  method NewCube(rx: real, rz: real) returns (m: Mesh)
    requires 0.0 <= rx < 1.0 && 0.0 <= rz < 1.0
    ensures fresh(m) && fresh(m.material) && IsNewCube(m, rx, rz)
  {
    var material := new Material(Some(CubeColor));
    m := new Mesh(BoxGeometry(CubeSize, CubeSize, CubeSize), material);
    m.position := Vec3(RandomOffset(rx), 1.0, RandomOffset(rz));
    m.selectable := true;
  }

  /** `AddShapeCommand`. */
  class AddShapeCommand {
    const scene: Scene
    const shapeType: string
    const params: Params
    var mesh: Mesh?

    constructor (scene: Scene, shapeType: string, params: Params)
      ensures this.scene == scene && this.shapeType == shapeType && this.params == params
      ensures mesh == null
    {
      this.scene := scene;
      this.shapeType := shapeType;
      this.params := params;
      mesh := null;
    }

    /** `built` stands for `ShapeRegistry.create(shapeType, params).createMesh()`,
        used on the first call only; an unknown type throws before anything
        changes. The registry's mesh keeps its own y. */
    method Execute(built: Mesh, rx: real, rz: real) returns (result: Outcome)
      requires 0.0 <= rx < 1.0 && 0.0 <= rz < 1.0
      modifies this, scene, built`position
      ensures old(mesh) != null ==>
        result == Returned && mesh == old(mesh) && unchanged(built) && scene.objects == old(scene.objects) + {mesh}
      ensures old(mesh) == null && !ShapeRegistryHas(shapeType) ==>
        result == Threw && mesh == null && unchanged(built) && scene.objects == old(scene.objects)
      ensures old(mesh) == null && ShapeRegistryHas(shapeType) ==>
        && result == Returned && mesh == built
        && built.GetTransform() == old(built.GetTransform()).(position := Vec3(RandomOffset(rx), old(built.position.y), RandomOffset(rz)))
        && built.material == old(built.material) && built.selectable == old(built.selectable)
        && built.shapeType == old(built.shapeType) && built.surfaceType == old(built.surfaceType)
        && built.params == old(built.params)
        && scene.objects == old(scene.objects) + {built}
    {
      if mesh == null {
        if !ShapeRegistryHas(shapeType) {
          return Threw;
        }
        mesh := built;
        mesh.position := mesh.position.(x := RandomOffset(rx));
        mesh.position := mesh.position.(z := RandomOffset(rz));
      }
      scene.Add(mesh);
      result := Returned;
    }

    method Undo()
      modifies scene
      ensures scene.objects == if mesh != null then old(scene.objects) - {mesh} else old(scene.objects)
    {
      if mesh != null {
        scene.Remove(mesh);
      }
    }
  }

  /** `AddSurfaceCommand`: the same protocol over `SurfaceRegistry`. */
  class AddSurfaceCommand {
    const scene: Scene
    const surfaceType: string
    const params: Params
    var mesh: Mesh?

    constructor (scene: Scene, surfaceType: string, params: Params)
      ensures this.scene == scene && this.surfaceType == surfaceType && this.params == params
      ensures mesh == null
    {
      this.scene := scene;
      this.surfaceType := surfaceType;
      this.params := params;
      mesh := null;
    }

    /** `built` stands for `SurfaceRegistry.create(surfaceType, params).createMesh()`. */
    method Execute(built: Mesh, rx: real, rz: real) returns (result: Outcome)
      requires 0.0 <= rx < 1.0 && 0.0 <= rz < 1.0
      modifies this, scene, built`position
      ensures old(mesh) != null ==>
        result == Returned && mesh == old(mesh) && unchanged(built) && scene.objects == old(scene.objects) + {mesh}
      ensures old(mesh) == null && !SurfaceRegistryHas(surfaceType) ==>
        result == Threw && mesh == null && unchanged(built) && scene.objects == old(scene.objects)
      ensures old(mesh) == null && SurfaceRegistryHas(surfaceType) ==>
        && result == Returned && mesh == built
        && built.GetTransform() == old(built.GetTransform()).(position := Vec3(RandomOffset(rx), old(built.position.y), RandomOffset(rz)))
        && built.material == old(built.material) && built.selectable == old(built.selectable)
        && built.shapeType == old(built.shapeType) && built.surfaceType == old(built.surfaceType)
        && built.params == old(built.params)
        && scene.objects == old(scene.objects) + {built}
    {
      if mesh == null {
        if !SurfaceRegistryHas(surfaceType) {
          return Threw;
        }
        mesh := built;
        mesh.position := mesh.position.(x := RandomOffset(rx));
        mesh.position := mesh.position.(z := RandomOffset(rz));
      }
      scene.Add(mesh);
      result := Returned;
    }

    method Undo()
      modifies scene
      ensures scene.objects == if mesh != null then old(scene.objects) - {mesh} else old(scene.objects)
    {
      if mesh != null {
        scene.Remove(mesh);
      }
    }
  }

  /** `AddCubeCommand` (the one beside the other commands, field `mesh`). */
  class AddCubeCommand {
    const scene: Scene
    var mesh: Mesh?

    constructor (scene: Scene)
      ensures this.scene == scene && mesh == null
    {
      this.scene := scene;
      mesh := null;
    }

    method Execute(rx: real, rz: real)
      requires 0.0 <= rx < 1.0 && 0.0 <= rz < 1.0
      modifies this, scene
      ensures mesh != null && scene.objects == old(scene.objects) + {mesh}
      ensures old(mesh) == null ==> fresh(mesh) && IsNewCube(mesh, rx, rz)
      ensures old(mesh) != null ==> mesh == old(mesh)
    {
      if mesh == null {
        mesh := NewCube(rx, rz);
      }
      scene.Add(mesh);
    }

    method Undo()
      modifies scene
      ensures scene.objects == if mesh != null then old(scene.objects) - {mesh} else old(scene.objects)
    {
      if mesh != null {
        scene.Remove(mesh);
      }
    }
  }
}
