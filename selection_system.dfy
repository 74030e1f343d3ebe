/** `SelectionSystem`: the selected and hovered meshes, highlighted through
    their material's emissive colour, and the copies of the materials taken
    before the first highlight. */
module Selection {
  import opened Geometry
  import opened SceneGraph

  const SelectEmissive: int := 0xFF8800
  const SelectIntensity: real := 0.8
  const HoverEmissive: int := 0xFFDD00
  const HoverIntensity: real := 0.5

  /** A material showing the given emissive colour and intensity. */
  predicate Lit(m: Material, emissive: int, intensity: real)
    reads m
  {
    m.emissive == emissive && m.emissiveIntensity == intensity
  }

  /** The saved-originals map after a highlight of `o`, whose material was in
      state `st` (None: no material): an entry is only added when absent. */
  function Record(saved: map<Mesh, MaterialState>, o: Mesh, st: Option<MaterialState>): (r: map<Mesh, MaterialState>)
    ensures forall m :: m in saved ==> m in r && r[m] == saved[m]
    ensures forall m :: m in r ==> m in saved || (m == o && st.Some?)
    ensures st.Some? ==> o in r
  {
    if st.None? || o in saved then saved else saved[o := st.value]
  }

  /** The state of a mesh's material, if it has one. */
  function MaterialOf(o: Mesh): Option<MaterialState>
    reads o, Mat(o)
  {
    if o.material == null then None else Some(Snapshot(o.material))
  }

  /** Entries are never dropped or overwritten, and only `o` may be added. */
  predicate KeepsRecords(before: map<Mesh, MaterialState>, after: map<Mesh, MaterialState>, o: Mesh?) {
    (forall m :: m in before ==> m in after && after[m] == before[m]) &&
    (forall m :: m in after ==> m in before || m == o)
  }

  class SelectionSystem {
    var selected: Mesh?
    var hovered: Mesh?
    var originalMaterials: map<Mesh, MaterialState>

    constructor ()
      ensures selected == null && hovered == null && originalMaterials == map[]
    {
      selected := null;
      hovered := null;
      originalMaterials := map[];
    }

    /** The common body of `applySelectMaterial` and `applyHoverMaterial`:
        nothing for a mesh without material; otherwise save a copy of the
        material if none is saved yet, then set the emissive colour. */
    method Highlight(target: Mesh, emissive: int, intensity: real)
      modifies this`originalMaterials, Mat(target)
      ensures originalMaterials == Record(old(originalMaterials), target, old(MaterialOf(target)))
      ensures target.material != null ==>
        Lit(target.material, emissive, intensity) && target.material.color == old(target.material.color)
    {
      if target.material == null {
        return;
      }
      if target !in originalMaterials {
        originalMaterials := originalMaterials[target := Snapshot(target.material)];
      }
      target.material.emissive := emissive;
      target.material.emissiveIntensity := intensity;
    }

    /** `applySelectMaterial`: orange emissive at 0.8. */
    method ApplySelectMaterial(target: Mesh)
      modifies this`originalMaterials, Mat(target)
      ensures originalMaterials == Record(old(originalMaterials), target, old(MaterialOf(target)))
      ensures target.material != null ==>
        Lit(target.material, SelectEmissive, SelectIntensity) && target.material.color == old(target.material.color)
    {
      Highlight(target, SelectEmissive, SelectIntensity);
    }

    /** `applyHoverMaterial`: yellow emissive at 0.5. */
    method ApplyHoverMaterial(target: Mesh)
      modifies this`originalMaterials, Mat(target)
      ensures originalMaterials == Record(old(originalMaterials), target, old(MaterialOf(target)))
      ensures target.material != null ==>
        Lit(target.material, HoverEmissive, HoverIntensity) && target.material.color == old(target.material.color)
    {
      Highlight(target, HoverEmissive, HoverIntensity);
    }

    /** `restoreOriginalMaterial`: only a mesh with a material and a saved copy
        is touched, and it is reset to emissive 0 at intensity 0 (the saved
        copy's own values are not read back). */
    method RestoreOriginalMaterial(target: Mesh)
      modifies Mat(target)
      ensures target.material != null && target in originalMaterials ==>
        Lit(target.material, 0, 0.0) && target.material.color == old(target.material.color)
      ensures target.material == null || target !in originalMaterials ==> unchanged(Mat(target))
    {
      if target.material == null {
        return;
      }
      if target in originalMaterials {
        target.material.emissive := 0;
        target.material.emissiveIntensity := 0.0;
      }
    }

    /** `setSelected`: a different previous selection is restored, the new one
        (if any) highlighted. */
    method SetSelected(target: Mesh?)
      modifies this, Mat(selected), Mat(target)
      ensures selected == target && hovered == old(hovered)
      ensures KeepsRecords(old(originalMaterials), originalMaterials, target)
      ensures target != null && target.material != null ==>
        Lit(target.material, SelectEmissive, SelectIntensity) && target in originalMaterials
      ensures var p := old(selected);
        p != null && p != target && p.material != null && p in old(originalMaterials) &&
        (target == null || target.material != p.material)
        ==> Lit(p.material, 0, 0.0)
      ensures var p := old(selected);
        p != null && p != target && p.material != null && p !in old(originalMaterials) &&
        (target == null || target.material != p.material)
        ==> unchanged(p.material)
      ensures var p := old(selected); p != null && p.material != null ==> p.material.color == old(p.material.color)
      ensures target != null && target.material != null ==> target.material.color == old(target.material.color)
      ensures target == null ==> originalMaterials == old(originalMaterials)
    {
      if selected != null && selected != target {
        RestoreOriginalMaterial(selected);
      }
      selected := target;
      if target != null {
        ApplySelectMaterial(target);
      }
    }

    /** `setHovered`: the previous hovered mesh is restored unless it is the
        new one or the selected one; the hover highlight is applied only to a
        mesh that is not selected. */
    method SetHovered(target: Mesh?)
      modifies this, Mat(hovered), Mat(target)
      ensures hovered == target && selected == old(selected)
      ensures KeepsRecords(old(originalMaterials), originalMaterials, target)
      ensures target == null || target == selected ==> originalMaterials == old(originalMaterials)
      ensures target != null && target != selected && target.material != null ==>
        Lit(target.material, HoverEmissive, HoverIntensity) && target in originalMaterials
      ensures var p := old(hovered);
        p != null && p != target && p != selected && p.material != null && p in old(originalMaterials) &&
        (target == null || target == selected || target.material != p.material)
        ==> Lit(p.material, 0, 0.0)
      ensures var p := old(hovered);
        p != null && p != target && p.material != null && (p == selected || p !in old(originalMaterials)) &&
        (target == null || target == selected || target.material != p.material)
        ==> unchanged(p.material)
      ensures var p := old(hovered); p != null && p.material != null ==> p.material.color == old(p.material.color)
      ensures target != null && target.material != null ==> target.material.color == old(target.material.color)
      ensures var p := old(hovered);
        selected != null && selected.material != null &&
        (p == null || p == target || p == selected || p.material != selected.material) &&
        (target == null || target == selected || target.material != selected.material)
        ==> unchanged(selected.material)
    {
      if hovered != null && hovered != target && hovered != selected {
        RestoreOriginalMaterial(hovered);
      }
      hovered := target;
      if target != null && target != selected {
        ApplyHoverMaterial(target);
      }
    }

    /** `clear`: both the selected and the hovered mesh are restored and both
        references end up null (the second test compares with the already
        cleared selection). */
    method Clear()
      modifies this, Mat(selected), Mat(hovered)
      ensures selected == null && hovered == null && originalMaterials == old(originalMaterials)
      ensures var p := old(selected);
        p != null && p.material != null && p in originalMaterials ==> Lit(p.material, 0, 0.0)
      ensures var p := old(hovered);
        p != null && p.material != null && p in originalMaterials ==> Lit(p.material, 0, 0.0)
      ensures var p := old(selected); p != null && p.material != null ==> p.material.color == old(p.material.color)
      ensures var p := old(hovered); p != null && p.material != null ==> p.material.color == old(p.material.color)
      ensures var p, h := old(selected), old(hovered);
        p != null && p.material != null && p !in originalMaterials &&
        (h == null || h.material != p.material || h !in originalMaterials)
        ==> unchanged(p.material)
      ensures var p, h := old(selected), old(hovered);
        h != null && h.material != null && h !in originalMaterials &&
        (p == null || p.material != h.material || p !in originalMaterials)
        ==> unchanged(h.material)
    {
      if selected != null {
        RestoreOriginalMaterial(selected);
        selected := null;
      }
      if hovered != null && hovered != selected {
        RestoreOriginalMaterial(hovered);
        hovered := null;
      }
    }

    function GetSelected(): (o: Mesh?)
      reads this
      ensures o == selected
    {
      selected
    }

    function GetHovered(): (o: Mesh?)
      reads this
      ensures o == hovered
    {
      hovered
    }

    /** `dispose`: forgets every saved material. */
    method Dispose()
      modifies this`originalMaterials
      ensures originalMaterials == map[]
    {
      originalMaterials := map[];
    }
  }
}
