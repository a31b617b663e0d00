/**
 The `DynamicMaterialModel` component: the loaded scene, the hovered mesh,
 and the pass that runs after every change of the override map or of the
 hover state. The pass walks every node; each mesh gets a standard material,
 then its override (colour and/or tiled texture), then its hover highlight.
 Materials are changed in place and survive from one pass to the next.
 */
module DynamicMaterialModel {
  import opened JsValues
  import opened Overrides

  /** A loaded texture bound as a material's map, with its repeat. */
  datatype TextureBinding = TextureBinding(url: string, repeatX: Num, repeatY: Num)

  /** The material fields the pass reads or writes. */
  datatype Material = Material(
    standard: bool,
    name: string,
    color: string,
    roughness: real,
    metalness: real,
    texMap: Option<TextureBinding>,
    emissive: int,
    emissiveIntensity: real)

  const HoverEmissive := 0xaaaaaa
  const HoverIntensity := 0.5
  const NoEmissive := 0x000000

  /** A mesh node: its uuid is fixed, its material is replaced and changed in place. */
  class Mesh {
    const uuid: string
    var material: Material

    constructor (uuid: string, material: Material)
      ensures this.uuid == uuid && this.material == material
    {
      this.uuid := uuid;
      this.material := material;
    }
  }

  /** A node of the scene graph, in traversal order; only meshes are touched. */
  datatype Node = MeshNode(mesh: Mesh) | OtherNode

  ghost function MeshesOf(scene: seq<Node>): set<Mesh> {
    set i | 0 <= i < |scene| && scene[i].MeshNode? :: scene[i].mesh
  }

  /** A scene graph is a tree: no mesh object is reached twice. */
  ghost predicate DistinctMeshes(scene: seq<Node>) {
    forall i, j :: 0 <= i < |scene| && 0 <= j < |scene| && i != j && scene[i].MeshNode? && scene[j].MeshNode?
      ==> scene[i].mesh != scene[j].mesh
  }

  /**
   `new MeshStandardMaterial({color, roughness: 0.5, metalness: 0.5})`: a new
   material that keeps only the colour; its name is empty, it has no map and
   its emissive is black at intensity 1.
   */
  function StandardFrom(color: string): Material {
    Material(true, "", color, 0.5, 0.5, None, NoEmissive, 1.0)
  }

  function Coerced(mat: Material): Material {
    if mat.standard then mat else StandardFrom(mat.color)
  }

  /** `materialUpdates[child.uuid]` */
  function Lookup(updates: Updates, uuid: string): Option<Override> {
    if uuid in updates then Some(updates[uuid]) else None
  }

  /** A truthy colour replaces the colour; a truthy texture binds a new map. */
  function WithOverride(mat: Material, update: Option<Override>): Material {
    match update
    case None => mat
    case Some(u) =>
      var colored := if TruthyStr(u.color) then mat.(color := u.color.value) else mat;
      if TruthyStr(u.texture)
      then colored.(texMap := Some(TextureBinding(u.texture.value, NumOr(u.tileScaleX, 1.0), NumOr(u.tileScaleY, 1.0))))
      else colored
  }

  function WithHover(mat: Material, hovered: bool): Material {
    if hovered then mat.(emissive := HoverEmissive, emissiveIntensity := HoverIntensity)
    else mat.(emissive := NoEmissive, emissiveIntensity := 0.0)
  }

  /** The material one pass leaves on a mesh that had `mat` before it. */
  function Reconciled(mat: Material, uuid: string, updates: Updates, hoveredPart: Option<string>): Material {
    WithHover(WithOverride(Coerced(mat), Lookup(updates, uuid)), hoveredPart == Some(uuid))
  }

  /**
   Field by field, what a pass does to one mesh: the material is standard;
   the colour is the override's if truthy and is kept otherwise; a truthy
   texture binds a map repeating `(tileScaleX || 1, tileScaleY || 1)`, and
   otherwise the map is whatever the material already had (none if it had to
   be replaced by a standard one); the emissive depends only on the hover.
   */
  lemma ReconciledSpec(mat: Material, uuid: string, updates: Updates, hoveredPart: Option<string>)
    ensures var r := Reconciled(mat, uuid, updates, hoveredPart);
      && r.standard
      && r.name == (if mat.standard then mat.name else "")
      && (mat.standard ==> r.roughness == mat.roughness && r.metalness == mat.metalness)
      && (!mat.standard ==> r.roughness == 0.5 && r.metalness == 0.5)
      && r.color == (if uuid in updates && TruthyStr(updates[uuid].color) then updates[uuid].color.value else mat.color)
      && r.texMap == (if uuid in updates && TruthyStr(updates[uuid].texture)
                   then Some(TextureBinding(updates[uuid].texture.value,
                                            NumOr(updates[uuid].tileScaleX, 1.0), NumOr(updates[uuid].tileScaleY, 1.0)))
                   else if mat.standard then mat.texMap else None)
      && (hoveredPart == Some(uuid) ==> r.emissive == HoverEmissive && r.emissiveIntensity == HoverIntensity)
      && (hoveredPart != Some(uuid) ==> r.emissive == NoEmissive && r.emissiveIntensity == 0.0)
  {
  }

  /** Running the pass again with nothing changed leaves every material as it is. */
  lemma ReconciledIdempotent(mat: Material, uuid: string, updates: Updates, hoveredPart: Option<string>)
    ensures Reconciled(Reconciled(mat, uuid, updates, hoveredPart), uuid, updates, hoveredPart)
         == Reconciled(mat, uuid, updates, hoveredPart)
  {
  }

  /** The hover state changes nothing but the emissive colour and intensity. */
  lemma HoverOnlyEmissive(mat: Material, uuid: string, updates: Updates, h1: Option<string>, h2: Option<string>)
    ensures Reconciled(mat, uuid, updates, h1).(emissive := NoEmissive, emissiveIntensity := 0.0)
         == Reconciled(mat, uuid, updates, h2).(emissive := NoEmissive, emissiveIntensity := 0.0)
  {
  }

  /**
   Hovering a mesh and then leaving it, with no apply in between, gives the
   same material as a pass with no hover at all.
   */
  lemma UnhoverRestores(mat: Material, uuid: string, updates: Updates)
    ensures Reconciled(Reconciled(mat, uuid, updates, Some(uuid)), uuid, updates, None)
         == Reconciled(mat, uuid, updates, None)
  {
  }

  /**
   A standard material whose current record has no truthy texture keeps the
   map an earlier pass bound, even though the record no longer names it.
   */
  lemma MapSurvivesTexturelessOverride(mat: Material, uuid: string, updates: Updates, hoveredPart: Option<string>)
    requires mat.standard
    requires uuid in updates ==> !TruthyStr(updates[uuid].texture)
    ensures Reconciled(mat, uuid, updates, hoveredPart).texMap == mat.texMap
  {
  }

  /**
   Apply a tiled texture to a part, run a pass, apply a colour to the same
   part and run another: the record now holds only the colour, yet the mesh
   still shows the texture together with the new colour.
   */
  lemma ColourAfterTextureKeepsMap(mat: Material, part: Part, texture: string, scaleX: Num, scaleY: Num, color: string)
    requires texture != "" && color != ""
    ensures var m1 := TextureApplied(map[], Some(part), Some(texture), scaleX, scaleY);
      var first := Reconciled(mat, part.id, m1, None);
      var m2 := ColorApplied(m1, Some(part), color);
      var second := Reconciled(first, part.id, m2, None);
      && m2[part.id].texture == None
      && second.color == color
      && second.texMap == Some(TextureBinding(texture, NumOr(Some(scaleX), 1.0), NumOr(Some(scaleY), 1.0)))
  {
  }

  /** The body of the `scene.traverse` callback for one mesh. */
  method ProcessMesh(child: Mesh, updates: Updates, hoveredPart: Option<string>)
    modifies child
    ensures child.material == Reconciled(old(child.material), child.uuid, updates, hoveredPart)
  {
    if !child.material.standard {
      child.material := StandardFrom(child.material.color);
    }
    var update := Lookup(updates, child.uuid);
    if update.Some? {
      if TruthyStr(update.value.color) {
        child.material := child.material.(color := update.value.color.value);
      }
      if TruthyStr(update.value.texture) {
        var texture := TextureBinding(update.value.texture.value,
                                      NumOr(update.value.tileScaleX, 1.0), NumOr(update.value.tileScaleY, 1.0));
        child.material := child.material.(texMap := Some(texture));
      }
    }
    if hoveredPart == Some(child.uuid) {
      child.material := child.material.(emissive := HoverEmissive, emissiveIntensity := HoverIntensity);
    } else {
      child.material := child.material.(emissive := NoEmissive, emissiveIntensity := 0.0);
    }
  }

  /** `scene.traverse(...)`: every mesh, in order, is reconciled in place. */
  method Reconcile(scene: seq<Node>, updates: Updates, hoveredPart: Option<string>)
    requires DistinctMeshes(scene)
    modifies MeshesOf(scene)
    ensures forall i :: 0 <= i < |scene| && scene[i].MeshNode? ==>
      scene[i].mesh.material == Reconciled(old(scene[i].mesh.material), scene[i].mesh.uuid, updates, hoveredPart)
    ensures forall i :: 0 <= i < |scene| && scene[i].MeshNode? ==>
      && scene[i].mesh.material.standard
      && (scene[i].mesh.material.emissive == HoverEmissive <==> hoveredPart == Some(scene[i].mesh.uuid))
  {
    for i := 0 to |scene|
      invariant forall k :: 0 <= k < i && scene[k].MeshNode? ==>
        scene[k].mesh.material == Reconciled(old(scene[k].mesh.material), scene[k].mesh.uuid, updates, hoveredPart)
      invariant forall k :: i <= k < |scene| && scene[k].MeshNode? ==>
        scene[k].mesh.material == old(scene[k].mesh.material)
    {
      match scene[i]
      case MeshNode(child) => ProcessMesh(child, updates, hoveredPart);
      case OtherNode =>
    }
    forall i | 0 <= i < |scene| && scene[i].MeshNode?
      ensures scene[i].mesh.material.standard
      ensures scene[i].mesh.material.emissive == HoverEmissive <==> hoveredPart == Some(scene[i].mesh.uuid)
    {
      ReconciledSpec(old(scene[i].mesh.material), scene[i].mesh.uuid, updates, hoveredPart);
    }
  }

  /** The component's own state: the scene it was given and the hovered mesh. */
  class Viewer {
    const scene: seq<Node>
    var hoveredPart: Option<string>

    constructor (scene: seq<Node>)
      ensures this.scene == scene && hoveredPart == None
    {
      this.scene := scene;
      hoveredPart := None;
    }

    /** Pointer over a mesh: only `hoveredPart` changes. */
    method HandlePointerOver(uuid: string)
      modifies this`hoveredPart
      ensures hoveredPart == Some(uuid)
    {
      hoveredPart := Some(uuid);
    }

    /** Pointer out: only `hoveredPart` changes. */
    method HandlePointerOut()
      modifies this`hoveredPart
      ensures hoveredPart == None
    {
      hoveredPart := None;
    }

    /** The effect that re-runs whenever the scene, the overrides or the hover change. */
    method Refresh(materialUpdates: Updates)
      requires DistinctMeshes(scene)
      modifies MeshesOf(scene)
      ensures forall i :: 0 <= i < |scene| && scene[i].MeshNode? ==>
        scene[i].mesh.material == Reconciled(old(scene[i].mesh.material), scene[i].mesh.uuid, materialUpdates, hoveredPart)
    {
      Reconcile(scene, materialUpdates, hoveredPart);
    }
  }
}
