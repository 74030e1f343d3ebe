/** The commands that delete a mesh: the constructor snapshots what undo
    needs, execute removes the mesh and drops it from the selection, undo puts
    it back with its snapshot transform (the selection is not restored). */
module DeleteCommands {
  import opened Geometry
  import opened SceneGraph
  import opened Selection

  /** `mesh.material?.color?.getHex?.()`. */
  function ColorOf(m: Mesh): Option<int>
    reads m, Mat(m)
  {
    if m.material == null then None else m.material.color
  }

  /** `hex || 0xffffff`: a missing colour and black (0, falsy) both become white. */
  function SnapshotColor(hex: Option<int>): (c: int)
    ensures hex.Some? && hex.value != 0 ==> c == hex.value
    ensures hex.None? || hex.value == 0 ==> c == 0xFFFFFF
  {
    if hex.Some? && hex.value != 0 then hex.value else 0xFFFFFF
  }

  /** `mesh.userData.params ? { ...params } : {}`. */
  function SnapshotParams(params: Option<Params>): (p: Params)
    ensures params.Some? ==> p == params.value
    ensures params.None? ==> p == map[]
  {
    if params.Some? then params.value else map[]
  }

  class DeleteShapeCommand {
    const scene: Scene
    const selection: SelectionSystem
    const store: EditorStore?
    const mesh: Mesh
    const shapeType: Option<string>
    const params: Params
    const position: Vec3
    const rotation: Euler
    const scale: Vec3
    const materialColor: int

    constructor (scene: Scene, selection: SelectionSystem, mesh: Mesh, store: EditorStore?)
      ensures this.scene == scene && this.selection == selection && this.mesh == mesh && this.store == store
      ensures shapeType == mesh.shapeType && params == SnapshotParams(mesh.params)
      ensures Transform(position, rotation, scale) == mesh.GetTransform()
      ensures materialColor == SnapshotColor(ColorOf(mesh))
    {
      this.scene := scene;
      this.selection := selection;
      this.store := store;
      this.mesh := mesh;
      shapeType := mesh.shapeType;
      params := SnapshotParams(mesh.params);
      position := mesh.position;
      rotation := mesh.rotation;
      scale := mesh.scale;
      materialColor := SnapshotColor(ColorOf(mesh));
    }

    /** Removes the mesh; if it was the selected one, the selection is cleared
        and the store told; otherwise the selection and the store are left alone. */
    method Execute()
      modifies scene, selection, store, Mat(selection.selected), Mat(selection.hovered)
      ensures scene.objects == old(scene.objects) - {mesh}
      ensures old(selection.selected) == mesh ==>
        && selection.selected == null && selection.hovered == null
        && selection.originalMaterials == old(selection.originalMaterials)
        && (mesh.material != null && mesh in selection.originalMaterials ==> Lit(mesh.material, 0, 0.0))
        && (var h := old(selection.hovered);
            h != null && h.material != null && h in selection.originalMaterials ==> Lit(h.material, 0, 0.0))
        && (mesh.material != null ==> mesh.material.color == old(mesh.material.color))
        && (var h := old(selection.hovered); h != null && h.material != null ==> h.material.color == old(h.material.color))
        && (var h := old(selection.hovered);
            mesh.material != null && mesh !in selection.originalMaterials &&
            (h == null || h.material != mesh.material || h !in selection.originalMaterials)
            ==> unchanged(mesh.material))
        && (var h := old(selection.hovered);
            h != null && h.material != null && h !in selection.originalMaterials &&
            (mesh.material != h.material || mesh !in selection.originalMaterials)
            ==> unchanged(h.material))
        && (store != null ==> store.selectedShape == null && store.selectedSurface == old(store.selectedSurface))
      ensures old(selection.selected) != mesh ==>
        && unchanged(selection) && (store != null ==> unchanged(store))
        && unchanged(Mat(selection.selected), Mat(selection.hovered))
    {
      scene.Remove(mesh);
      if selection.GetSelected() == mesh {
        selection.Clear();
        if store != null {
          store.UpdateSelectedShape(null);
        }
      }
    }

    /** Adds the mesh back and copies the snapshot transform into it. */
    method Undo()
      modifies scene, mesh`position, mesh`rotation, mesh`scale
      ensures scene.objects == old(scene.objects) + {mesh}
      ensures mesh.GetTransform() == Transform(position, rotation, scale)
      ensures mesh.material == old(mesh.material) && mesh.shapeType == old(mesh.shapeType) && mesh.params == old(mesh.params)
      ensures mesh.selectable == old(mesh.selectable) && mesh.surfaceType == old(mesh.surfaceType)
    {
      scene.Add(mesh);
      mesh.position := position;
      mesh.rotation := rotation;
      mesh.scale := scale;
    }
  }

  class DeleteSurfaceCommand {
    const scene: Scene
    const selection: SelectionSystem
    const store: EditorStore?
    const mesh: Mesh
    const surfaceType: Option<string>
    const params: Params
    const position: Vec3
    const rotation: Euler
    const scale: Vec3
    const materialColor: int

    constructor (scene: Scene, selection: SelectionSystem, mesh: Mesh, store: EditorStore?)
      ensures this.scene == scene && this.selection == selection && this.mesh == mesh && this.store == store
      ensures surfaceType == mesh.surfaceType && params == SnapshotParams(mesh.params)
      ensures Transform(position, rotation, scale) == mesh.GetTransform()
      ensures materialColor == SnapshotColor(ColorOf(mesh))
    {
      this.scene := scene;
      this.selection := selection;
      this.store := store;
      this.mesh := mesh;
      surfaceType := mesh.surfaceType;
      params := SnapshotParams(mesh.params);
      position := mesh.position;
      rotation := mesh.rotation;
      scale := mesh.scale;
      materialColor := SnapshotColor(ColorOf(mesh));
    }

    method Execute()
      modifies scene, selection, store, Mat(selection.selected), Mat(selection.hovered)
      ensures scene.objects == old(scene.objects) - {mesh}
      ensures old(selection.selected) == mesh ==>
        && selection.selected == null && selection.hovered == null
        && selection.originalMaterials == old(selection.originalMaterials)
        && (mesh.material != null && mesh in selection.originalMaterials ==> Lit(mesh.material, 0, 0.0))
        && (var h := old(selection.hovered);
            h != null && h.material != null && h in selection.originalMaterials ==> Lit(h.material, 0, 0.0))
        && (mesh.material != null ==> mesh.material.color == old(mesh.material.color))
        && (var h := old(selection.hovered); h != null && h.material != null ==> h.material.color == old(h.material.color))
        && (var h := old(selection.hovered);
            mesh.material != null && mesh !in selection.originalMaterials &&
            (h == null || h.material != mesh.material || h !in selection.originalMaterials)
            ==> unchanged(mesh.material))
        && (var h := old(selection.hovered);
            h != null && h.material != null && h !in selection.originalMaterials &&
            (mesh.material != h.material || mesh !in selection.originalMaterials)
            ==> unchanged(h.material))
        && (store != null ==> store.selectedSurface == null && store.selectedShape == old(store.selectedShape))
      ensures old(selection.selected) != mesh ==>
        && unchanged(selection) && (store != null ==> unchanged(store))
        && unchanged(Mat(selection.selected), Mat(selection.hovered))
    {
      scene.Remove(mesh);
      if selection.GetSelected() == mesh {
        selection.Clear();
        if store != null {
          store.UpdateSelectedSurface(null);
        }
      }
    }

    method Undo()
      modifies scene, mesh`position, mesh`rotation, mesh`scale
      ensures scene.objects == old(scene.objects) + {mesh}
      ensures mesh.GetTransform() == Transform(position, rotation, scale)
      ensures mesh.material == old(mesh.material) && mesh.surfaceType == old(mesh.surfaceType) && mesh.params == old(mesh.params)
      ensures mesh.selectable == old(mesh.selectable) && mesh.shapeType == old(mesh.shapeType)
    {
      scene.Add(mesh);
      mesh.position := position;
      mesh.rotation := rotation;
      mesh.scale := scale;
    }
  }
}
