# House model customiser: override editor and material reconcile pass

This project models the logic of the `Model2` page of a browser-based 3D
house customiser. A user picks a mesh of the loaded house, chooses a colour,
a wall texture, a floor tile or a false-ceiling image, and applies it. The
model has two parts:

- **The override editor** (`Model2.Editor`, editor.dfy). It is the component's state:
  - the map from mesh uuid to override record `{color?, texture?, tileScaleX?, tileScaleY?}`;
  - the selected part;
  - the tentative pick of each panel, with the active category of each catalogue;
  - the shared tile scales.

  Its methods are the component's handlers. The apply handlers compute their new map with pure functions (`Overrides`, overrides.dfy). Each replaces the selected mesh's record as a whole. The catalogue lookups are a first-match `find` (`Catalogue`, catalogue.dfy).
- **The reconcile pass** (`DynamicMaterialModel`, scene.dfy). This is the effect that walks the scene after every change of the overrides or of the hovered mesh. It does three things to each mesh's material, in place:
  - makes it a standard material;
  - applies the mesh's override (colour, and/or a texture repeated `(tileScaleX || 1, tileScaleY || 1)`);
  - sets the hover highlight.

  Materials persist between passes. So a mesh whose current record has no texture keeps the map that an earlier pass bound. `ColourAfterTextureKeepsMap` shows this. The system's design notes say a colour-only apply after a texture apply removes the texture. That holds for the override record (`ColorDropsTexture`) but not for the rendered material. Where the two disagree, this model follows the code.

JavaScript's `||` is modelled explicitly (`JsValues`, js_values.dfy). Absent, null, `""`, `0` and `NaN` are falsy. A tile scale is a `Num`, which is a real number or `NaN`; `NaN` is what `parseFloat` gives for an empty input.

## Model

| member | source | states |
|---|---|---|
| `Overrides.Spread` | src/components/Models/Model2.jsx:127-130 | `{...m, [id]: rec}`: `id` maps to `rec`, the keys are the old keys plus `id`, every other key keeps its record |
| `Overrides.ColorApplied` | src/components/Models/Model2.jsx:125-132 | applyChanges: no part selected leaves the map unchanged; otherwise the part's record is exactly `{color}` and every other key is unchanged |
| `Overrides.CeilingApplied` | src/components/Models/Model2.jsx:134-141 | applyCeiling: unchanged unless a part is selected and fallCeiling is truthy; then the record is exactly `{texture: fallCeiling}` and other keys are unchanged |
| `Overrides.TextureApplied` | src/components/Models/Model2.jsx:155-166 | applyTexture / applyTile / applyCeilingTexture: unchanged unless a part and a truthy pick exist; then the record is exactly `{texture: pick, tileScaleX, tileScaleY}`, other keys unchanged |
| `Overrides.ColorAppliedIdempotent` | src/components/Models/Model2.jsx:127-130 | applying the same colour twice gives the same map as applying it once |
| `Overrides.CeilingAppliedIdempotent` | src/components/Models/Model2.jsx:136-139 | applying the same ceiling record twice gives the same map as once |
| `Overrides.TextureAppliedIdempotent` | src/components/Models/Model2.jsx:157-164 | applying the same texture record twice gives the same map as once |
| `Overrides.ColorDropsTexture` | src/components/Models/Model2.jsx:125-132 | a colour applied after a texture leaves a record with the colour and with no texture and no scales |
| `Overrides.SelectAfterColor` | src/components/Models/Model2.jsx:115-123 | re-selecting a part after a colour apply loads that colour (or `#ff6347` if it was empty), no texture, and scale 5 for both axes |
| `Overrides.SelectAfterTexture` | src/components/Models/Model2.jsx:115-123 | re-selecting after a texture apply loads the texture, each truthy scale as applied, 5 for a scale that was 0 or NaN, and `#ff6347` |
| `Catalogue.FirstMatch` | src/components/Models/Model2.jsx:152 | the index `find` stops at: the first entry whose category matches, or none when no entry matches |
| `Catalogue.FirstDeterminesLookup` | src/components/Models/Model2.jsx:151-153 | the first match is unique, so its items are the only lookup result |
| `Catalogue.CategoryItems` | src/components/Models/Model2.jsx:151-153 | the lookup gives the items of the first entry with the category, or `[]` when none has it |
| `Model2.Editor.constructor` | src/components/Models/Model2.jsx:96-111 | initial state: nothing selected, empty map, `#ff6347`, the two fixed start categories, the first ceiling category or `""`, scales 1 |
| `Model2.Editor.HandlePartSelection` | src/components/Models/Model2.jsx:115-123 | sets the selected part to `{id, name}` and loads colour, texture, fallCeiling and scales from its record with the falsy defaults; the override map and the category state are unchanged |
| `Model2.Editor.ApplyChanges` | src/components/Models/Model2.jsx:125-132 | only the override map changes, to `ColorApplied` of the old map, selection and colour |
| `Model2.Editor.ApplyCeiling` | src/components/Models/Model2.jsx:134-141 | only the override map changes, to `CeilingApplied` of the old map, selection and fallCeiling |
| `Model2.Editor.HandleCategoryChange` | src/components/Models/Model2.jsx:143-149 | sets the wall-texture category and clears only the wall-texture pick; everything else is unchanged |
| `Model2.Editor.SelectedCategoryTextures` | src/components/Models/Model2.jsx:151-153 | the first-match lookup of the selected wall-texture category |
| `Model2.Editor.ApplyTexture` | src/components/Models/Model2.jsx:155-166 | only the override map changes, to `TextureApplied` with the wall-texture pick and the shared scales |
| `Model2.Editor.HandleTileCategoryChange` | src/components/Models/Model2.jsx:170-176 | sets the tile category and clears only the tile pick |
| `Model2.Editor.ApplyTile` | src/components/Models/Model2.jsx:178-185 | only the override map changes, to `TextureApplied` with the tile pick and the shared scales |
| `Model2.Editor.SelectedCategoryTiles` | src/components/Models/Model2.jsx:187-189 | the first-match lookup of the selected tile category |
| `Model2.Editor.HandleCeilingCategoryChange` | src/components/Models/Model2.jsx:192-198 | sets the ceiling category and clears only the ceiling pick |
| `Model2.Editor.ApplyCeilingTexture` | src/components/Models/Model2.jsx:200-211 | only the override map changes, to `TextureApplied` with the ceiling pick and the shared scales |
| `Model2.Editor.SelectedCeilingTextures` | src/components/Models/Model2.jsx:213-215 | the first-match lookup of the selected ceiling category |
| `Model2.Editor.PickColor` | src/components/Models/Model2.jsx:338-354 | a swatch click or the colour input sets only the colour |
| `Model2.Editor.PickTexture` | src/components/Models/Model2.jsx:416 | a texture click sets only the wall-texture pick |
| `Model2.Editor.SetTileScaleX` | src/components/Models/Model2.jsx:435 | the X scale input sets only `tileScaleX` (NaN included) |
| `Model2.Editor.SetTileScaleY` | src/components/Models/Model2.jsx:447 | the Y scale input sets only `tileScaleY` (NaN included) |
| `Model2.Editor.PickCeilingTexture` | src/components/Models/Model2.jsx:599 | a ceiling image click sets only the ceiling pick |
| `Model2.Editor.PickTile` | src/components/Models/Model2.jsx:690 | a tile click sets only the tile pick |
| `DynamicMaterialModel.ReconciledSpec` | src/components/Models/Model2.jsx:34-64 | after a pass a mesh is standard. A truthy override colour replaces its colour. A truthy texture binds a map with repeat `(scaleX‖1, scaleY‖1)`; otherwise an already-standard material keeps its map and a coerced one has none. Emissive is grey/0.5 exactly when hovered, else black/0 |
| `DynamicMaterialModel.ReconciledIdempotent` | src/components/Models/Model2.jsx:33-66 | a second pass with the same overrides and hover changes nothing |
| `DynamicMaterialModel.HoverOnlyEmissive` | src/components/Models/Model2.jsx:58-64 | two passes that differ only in the hovered mesh give materials that differ only in emissive colour and intensity |
| `DynamicMaterialModel.UnhoverRestores` | src/components/Models/Model2.jsx:58-64 | a hovered pass followed by an unhovered pass equals an unhovered pass alone |
| `DynamicMaterialModel.MapSurvivesTexturelessOverride` | src/components/Models/Model2.jsx:48-54 | a standard material whose record has no truthy texture keeps the map it had |
| `DynamicMaterialModel.ColourAfterTextureKeepsMap` | src/components/Models/Model2.jsx:43-54 | texture apply, pass, colour apply, pass: the record has no texture, but the mesh shows the new colour and still has the texture's map |
| `DynamicMaterialModel.ProcessMesh` | src/components/Models/Model2.jsx:34-65 | the traverse callback leaves the mesh's material equal to `Reconciled` of its old material |
| `DynamicMaterialModel.Reconcile` | src/components/Models/Model2.jsx:33-66 | every mesh of the scene ends with `Reconciled` of its own old material. Every mesh is standard, and the emissive is grey exactly for the mesh whose uuid is `hoveredPart` |
| `DynamicMaterialModel.Viewer.constructor` | src/components/Models/Model2.jsx:19-20 | the viewer starts with nothing hovered |
| `DynamicMaterialModel.Viewer.HandlePointerOver` | src/components/Models/Model2.jsx:76-78 | hovering sets `hoveredPart` to the mesh's uuid and changes nothing else |
| `DynamicMaterialModel.Viewer.HandlePointerOut` | src/components/Models/Model2.jsx:80-82 | leaving sets `hoveredPart` to null and changes nothing else |
| `DynamicMaterialModel.Viewer.Refresh` | src/components/Models/Model2.jsx:23-67 | the effect reconciles every mesh with the current overrides and hover state |

## Left out

- GLTF loading, `TextureLoader` fetching and the bounding-box size logging (`Model2.jsx:19`, `:24-31`, `:49`) are foreign library calls. A scene is given to the viewer as a sequence of nodes, and a texture is its URL string. A texture that fails to load is not modelled.
- The texture's `RepeatWrapping` wrap modes and the material's `needsUpdate` flag are render hints and are not modelled.
- A material is a value held by one mesh. The renderer can share one material object between several meshes, so that changing it for one changes the others. That aliasing is not modelled.
- Colours are opaque strings: `new Color(...)` parsing is not modelled. Roughness, metalness and emissive intensity are exact reals, not floating point.
- The scene is a flat sequence in traversal order. It is required to reach each mesh object at most once, as a scene graph does.
- React's scheduling is not modelled: batching of state setters and running the effect after each change of scene, overrides or hover. A caller calls `Viewer.Refresh` after each change.
- Pointer-event propagation and picking (`:69-74`) come from the renderer. Only the resulting `HandlePartSelection(id, name)` call is modelled.
- The catalogue data files are not part of this model. They become constructor parameters. An entry without its items field (where `?.textures` would be undefined) is not modelled.
- Print, share and reset (`:264-287`) are host-platform calls. The scroll resets in the category handlers are DOM side effects. Neither is modelled.
- The commented-out canvas capture, the unused `html2canvas` import and all JSX layout are not modelled.
