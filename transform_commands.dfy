/** The commands that overwrite a mesh's transform: `TransformCommand` (with
    `MoveShapeCommand` built on it), `MoveCommand` and `MoveSurfaceCommand`. */
module TransformCommands {
  import opened Geometry
  import opened SceneGraph

  /** One field of the record handed to a command: absent (or null), a
      three.js value with a `clone` method, or a plain object without one. */
  datatype Arg<T> = Missing | Clonable(value: T) | Plain(value: T)

  /** `{ position, rotation, scale }` as passed in. */
  datatype TransformArgs = TransformArgs(position: Arg<Vec3>, rotation: Arg<Euler>, scale: Arg<Vec3>)

  /** The constructor's default `{}`. */
  const NoArgs: TransformArgs := TransformArgs(Missing, Missing, Missing)

  /** `{ position, rotation, scale }` as stored: a copy or null per field. */
  datatype TransformData = TransformData(position: Option<Vec3>, rotation: Option<Euler>, scale: Option<Vec3>)

  /** `x?.clone?.() || null`: only a clonable value survives, as a copy. */
  function CloneField<T>(a: Arg<T>): (r: Option<T>)
    ensures r.Some? <==> a.Clonable?
    ensures r.Some? ==> r.value == a.value
  {
    if a.Clonable? then Some(a.value) else None
  }

  /** `_cloneTransformData`. */
  function CloneTransformData(data: TransformArgs): (d: TransformData)
    ensures d.position.Some? <==> data.position.Clonable?
    ensures d.rotation.Some? <==> data.rotation.Clonable?
    ensures d.scale.Some? <==> data.scale.Clonable?
  {
    TransformData(CloneField(data.position), CloneField(data.rotation), CloneField(data.scale))
  }

  /** What `_applyTransform` leaves in a mesh's transform: each non-null field
      is copied in, every null field is left as it was. */
  function Applied(t: Transform, d: TransformData): (r: Transform)
    ensures r.position == (if d.position.Some? then d.position.value else t.position)
    ensures r.rotation == (if d.rotation.Some? then d.rotation.value else t.rotation)
    ensures r.scale == (if d.scale.Some? then d.scale.value else t.scale)
  {
    Transform(
      if d.position.Some? then d.position.value else t.position,
      if d.rotation.Some? then d.rotation.value else t.rotation,
      if d.scale.Some? then d.scale.value else t.scale)
  }

  /** `captureTransform`: every field of a mesh, or `{}` for none. */
  function CaptureTransform(mesh: Mesh?): (d: TransformData)
    reads mesh
    ensures mesh == null ==> d == TransformData(None, None, None)
    ensures mesh != null ==> forall t :: Applied(t, d) == mesh.GetTransform()
  {
    if mesh == null then TransformData(None, None, None)
    else TransformData(Some(mesh.position), Some(mesh.rotation), Some(mesh.scale))
  }

  /** A captured record passed back to the constructor: three.js values
      captured from a mesh are clonable, and an absent field stays absent. */
  function CapturedArgs(d: TransformData): (a: TransformArgs)
    ensures CloneTransformData(a) == d
  {
    TransformArgs(
      if d.position.Some? then Clonable(d.position.value) else Missing,
      if d.rotation.Some? then Clonable(d.rotation.value) else Missing,
      if d.scale.Some? then Clonable(d.scale.value) else Missing)
  }

  /** Applying a captured transform restores it, whatever was applied since. */
  lemma RestoreCaptured(mesh: Mesh, t: Transform, d: TransformData)
    ensures Applied(Applied(t, d), CaptureTransform(mesh)) == mesh.GetTransform()
  {
  }

  /** Applying the same data twice is applying it once. */
  lemma ApplyIdempotent(t: Transform, d: TransformData)
    ensures Applied(Applied(t, d), d) == Applied(t, d)
  {
  }

  /** Data with every field null changes nothing. */
  lemma ApplyNothing(t: Transform)
    ensures Applied(t, TransformData(None, None, None)) == t
  {
  }

  class TransformCommand {
    const mesh: Mesh?
    const originalData: TransformData
    const transformData: TransformData

    /** Both records are stored as per-field copies. */
    constructor (mesh: Mesh?, transformData: TransformArgs, originalData: TransformArgs)
      ensures this.mesh == mesh
      ensures this.transformData == CloneTransformData(transformData)
      ensures this.originalData == CloneTransformData(originalData)
    {
      this.mesh := mesh;
      this.originalData := CloneTransformData(originalData);
      this.transformData := CloneTransformData(transformData);
    }

    /** `_applyTransform`: nothing without a mesh. */
    method ApplyTransform(data: TransformData)
      modifies mesh
      ensures mesh != null ==> mesh.GetTransform() == Applied(old(mesh.GetTransform()), data)
      ensures mesh != null ==> mesh.material == old(mesh.material) && mesh.selectable == old(mesh.selectable)
      ensures mesh != null ==> mesh.params == old(mesh.params)
      ensures mesh != null ==> mesh.shapeType == old(mesh.shapeType) && mesh.surfaceType == old(mesh.surfaceType)
    {
      if mesh == null {
        return;
      }
      if data.position.Some? {
        mesh.position := data.position.value;
      }
      if data.rotation.Some? {
        mesh.rotation := data.rotation.value;
      }
      if data.scale.Some? {
        mesh.scale := data.scale.value;
      }
    }

    method Execute()
      modifies mesh
      ensures mesh != null ==> mesh.GetTransform() == Applied(old(mesh.GetTransform()), transformData)
      ensures mesh != null ==> mesh.material == old(mesh.material) && mesh.params == old(mesh.params)
      ensures mesh != null ==> mesh.selectable == old(mesh.selectable)
      ensures mesh != null ==> mesh.shapeType == old(mesh.shapeType) && mesh.surfaceType == old(mesh.surfaceType)
    {
      ApplyTransform(transformData);
    }

    method Undo()
      modifies mesh
      ensures mesh != null ==> mesh.GetTransform() == Applied(old(mesh.GetTransform()), originalData)
      ensures mesh != null ==> mesh.material == old(mesh.material) && mesh.params == old(mesh.params)
      ensures mesh != null ==> mesh.selectable == old(mesh.selectable)
      ensures mesh != null ==> mesh.shapeType == old(mesh.shapeType) && mesh.surfaceType == old(mesh.surfaceType)
    {
      ApplyTransform(originalData);
    }
  }

  /** `newPosition?.clone?.() || newPosition`: a clonable argument is copied,
      anything else is passed on as it is. */
  function CloneOrKeep(a: Arg<Vec3>): (r: Arg<Vec3>)
    ensures r == a
  {
    if a.Clonable? then Clonable(a.value) else a
  }

  /** The records a `MoveShapeCommand` hands to `TransformCommand`: position only. */
  function MoveShapeArgs(position: Arg<Vec3>): TransformArgs {
    TransformArgs(CloneOrKeep(position), Missing, Missing)
  }

  /** `new MoveShapeCommand(mesh, newPosition, oldPosition)`. */
  method NewMoveShapeCommand(mesh: Mesh?, newPosition: Arg<Vec3>, oldPosition: Arg<Vec3>) returns (c: TransformCommand)
    ensures fresh(c) && c.mesh == mesh
    ensures c.transformData == TransformData(CloneField(newPosition), None, None)
    ensures c.originalData == TransformData(CloneField(oldPosition), None, None)
  {
    c := new TransformCommand(mesh, MoveShapeArgs(newPosition), MoveShapeArgs(oldPosition));
  }

  /** A move-shape command only ever writes the position: a clonable new
      position on execute, a clonable old position on undo; a plain or
      missing one leaves the mesh as it is. */
  lemma MoveShapeOnlyMoves(t: Transform, position: Arg<Vec3>)
    ensures var r := Applied(t, CloneTransformData(MoveShapeArgs(position)));
      && r.rotation == t.rotation && r.scale == t.scale
      && r.position == if position.Clonable? then position.value else t.position
  {
  }

  /** `MoveCommand`: both positions copied at construction; a null mesh makes
      both directions no-ops. */
  class MoveCommand {
    const mesh: Mesh?
    const newPosition: Vec3
    const oldPosition: Vec3

    constructor (mesh: Mesh?, newPosition: Vec3, oldPosition: Vec3)
      ensures this.mesh == mesh && this.newPosition == newPosition && this.oldPosition == oldPosition
    {
      this.mesh := mesh;
      this.newPosition := newPosition;
      this.oldPosition := oldPosition;
    }

    method Execute()
      modifies mesh
      ensures mesh != null ==> mesh.GetTransform() == old(mesh.GetTransform()).(position := newPosition)
      ensures mesh != null ==> mesh.material == old(mesh.material) && mesh.params == old(mesh.params)
      ensures mesh != null ==> mesh.selectable == old(mesh.selectable)
      ensures mesh != null ==> mesh.shapeType == old(mesh.shapeType) && mesh.surfaceType == old(mesh.surfaceType)
    {
      if mesh != null {
        mesh.position := newPosition;
      }
    }

    method Undo()
      modifies mesh
      ensures mesh != null ==> mesh.GetTransform() == old(mesh.GetTransform()).(position := oldPosition)
      ensures mesh != null ==> mesh.material == old(mesh.material) && mesh.params == old(mesh.params)
      ensures mesh != null ==> mesh.selectable == old(mesh.selectable)
      ensures mesh != null ==> mesh.shapeType == old(mesh.shapeType) && mesh.surfaceType == old(mesh.surfaceType)
    {
      if mesh != null {
        mesh.position := oldPosition;
      }
    }
  }

  /** `MoveSurfaceCommand`: the arguments come in (from, to) order and there
      is no null guard, so the mesh must exist. */
  class MoveSurfaceCommand {
    const mesh: Mesh
    const fromPosition: Vec3
    const toPosition: Vec3

    constructor (mesh: Mesh, fromPosition: Vec3, toPosition: Vec3)
      ensures this.mesh == mesh && this.fromPosition == fromPosition && this.toPosition == toPosition
    {
      this.mesh := mesh;
      this.fromPosition := fromPosition;
      this.toPosition := toPosition;
    }

    method Execute()
      modifies mesh`position, mesh`rotation, mesh`scale
      ensures mesh.GetTransform() == old(mesh.GetTransform()).(position := toPosition)
      ensures mesh.material == old(mesh.material) && mesh.params == old(mesh.params)
      ensures mesh.selectable == old(mesh.selectable)
      ensures mesh.shapeType == old(mesh.shapeType) && mesh.surfaceType == old(mesh.surfaceType)
    {
      mesh.position := toPosition;
    }

    method Undo()
      modifies mesh`position, mesh`rotation, mesh`scale
      ensures mesh.GetTransform() == old(mesh.GetTransform()).(position := fromPosition)
      ensures mesh.material == old(mesh.material) && mesh.params == old(mesh.params)
      ensures mesh.selectable == old(mesh.selectable)
      ensures mesh.shapeType == old(mesh.shapeType) && mesh.surfaceType == old(mesh.surfaceType)
    {
      mesh.position := fromPosition;
    }
  }
}
