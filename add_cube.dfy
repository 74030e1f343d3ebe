/** The cube command kept under `commands/add/`: the same lazy-create-once
    protocol as `AddCommands.AddCubeCommand`, on a field named `cube` and a
    THREE.Scene used directly. */
module AddCube {
  import opened SceneGraph
  import opened AddCommands

  class AddCubeCommand {
    const scene: Scene
    var cube: Mesh?

    constructor (scene: Scene)
      ensures this.scene == scene && cube == null
    {
      this.scene := scene;
      cube := null;
    }

    /** The cube is built on the first call only; every call adds it. */
    method Execute(rx: real, rz: real)
      requires 0.0 <= rx < 1.0 && 0.0 <= rz < 1.0
      modifies this, scene
      ensures cube != null && scene.objects == old(scene.objects) + {cube}
      ensures old(cube) == null ==> fresh(cube) && IsNewCube(cube, rx, rz)
      ensures old(cube) != null ==> cube == old(cube)
    {
      if cube == null {
        cube := NewCube(rx, rz);
      }
      scene.Add(cube);
    }

    /** Removes the cube only if it was ever built. */
    method Undo()
      modifies scene
      ensures scene.objects == if cube != null then old(scene.objects) - {cube} else old(scene.objects)
    {
      if cube != null {
        scene.Remove(cube);
      }
    }
  }
}
