/**
 The `Model2` component: the override map, the selected part, the tentative
 picks of the four customisation panels and the shared tile scales, with the
 handlers that change them. The catalogues are fixed when the editor is built.
 */
module Model2 {
  import opened JsValues
  import opened Overrides
  import opened Catalogue

  /** Every state variable of the component, as one value. */
  datatype EditorState = EditorState(
    selectedPart: Option<Part>,
    materialUpdates: Updates,
    color: string,
    selectedTexture: Option<string>,
    selectedCategory: string,
    selectedTile: Option<string>,
    selectedTileCategory: string,
    tileScaleX: Num,
    tileScaleY: Num,
    fallCeiling: Option<string>,
    selectedCeilingCategory: string,
    selectedCeilingTexture: Option<string>)

  const InitialCategory := "Master Bedroom"
  const InitialTileCategory := "Vitrified Tile"

  /** `ceilingsData[0]?.category || ""` */
  function FirstCategory(cat: seq<CatalogEntry>): string {
    if |cat| > 0 then StrOr(Some(cat[0].category), "") else ""
  }

  class Editor {
    const texturesData: seq<CatalogEntry>
    const tilesData: seq<CatalogEntry>
    const ceilingsData: seq<CatalogEntry>

    var selectedPart: Option<Part>
    var materialUpdates: Updates
    var color: string
    var selectedTexture: Option<string>
    var selectedCategory: string
    var selectedTile: Option<string>
    var selectedTileCategory: string
    var tileScaleX: Num
    var tileScaleY: Num
    var fallCeiling: Option<string>
    var selectedCeilingCategory: string
    var selectedCeilingTexture: Option<string>

    function State(): EditorState
      reads this
    {
      EditorState(selectedPart, materialUpdates, color, selectedTexture, selectedCategory,
                  selectedTile, selectedTileCategory, tileScaleX, tileScaleY, fallCeiling,
                  selectedCeilingCategory, selectedCeilingTexture)
    }

    /** The initial values of the component's `useState` calls. */
    constructor (texturesData: seq<CatalogEntry>, tilesData: seq<CatalogEntry>, ceilingsData: seq<CatalogEntry>)
      ensures this.texturesData == texturesData && this.tilesData == tilesData && this.ceilingsData == ceilingsData
      ensures State() == EditorState(None, map[], DefaultColor, None, InitialCategory, None, InitialTileCategory,
                                     Num(1.0), Num(1.0), None, FirstCategory(ceilingsData), None)
    {
      this.texturesData := texturesData;
      this.tilesData := tilesData;
      this.ceilingsData := ceilingsData;
      selectedPart := None;
      materialUpdates := map[];
      color := DefaultColor;
      selectedTexture := None;
      selectedCategory := InitialCategory;
      selectedTile := None;
      selectedTileCategory := InitialTileCategory;
      tileScaleX := Num(1.0);
      tileScaleY := Num(1.0);
      fallCeiling := None;
      selectedCeilingCategory := FirstCategory(ceilingsData);
      selectedCeilingTexture := None;
    }

    /**
     A mesh was picked: remember it and load its record into the editor,
     with the defaults `#ff6347`, null and 5 for falsy fields. The override
     map is not touched.
     */
    method HandlePartSelection(partId: string, materialName: string)
      modifies this
      ensures var rec := Existing(old(materialUpdates), partId);
        State() == old(State()).(
          selectedPart := Some(Part(partId, materialName)),
          color := StrOr(rec.color, DefaultColor),
          selectedTexture := StrOrNull(rec.texture),
          tileScaleX := NumOr(rec.tileScaleX, DefaultScale),
          tileScaleY := NumOr(rec.tileScaleY, DefaultScale),
          fallCeiling := StrOrNull(rec.texture))
    {
      selectedPart := Some(Part(partId, materialName));
      var existingProps := Existing(materialUpdates, partId);
      color := StrOr(existingProps.color, DefaultColor);
      selectedTexture := StrOrNull(existingProps.texture);
      tileScaleX := NumOr(existingProps.tileScaleX, DefaultScale);
      tileScaleY := NumOr(existingProps.tileScaleY, DefaultScale);
      fallCeiling := StrOrNull(existingProps.texture);
    }

    /** Apply Colour: only the override map changes. */
    method ApplyChanges()
      modifies this
      ensures State() == old(State()).(materialUpdates := ColorApplied(old(materialUpdates), selectedPart, color))
    {
      if selectedPart.Some? {
        materialUpdates := Spread(materialUpdates, selectedPart.value.id, ColorRecord(color));
      }
    }

    method ApplyCeiling()
      modifies this
      ensures State() == old(State()).(materialUpdates := CeilingApplied(old(materialUpdates), selectedPart, fallCeiling))
    {
      if selectedPart.Some? && TruthyStr(fallCeiling) {
        materialUpdates := Spread(materialUpdates, selectedPart.value.id, CeilingRecord(fallCeiling.value));
      }
    }

    /** Changing the wall-texture category clears only the wall-texture pick. */
    method HandleCategoryChange(value: string)
      modifies this
      ensures State() == old(State()).(selectedCategory := value, selectedTexture := None)
    {
      selectedCategory := value;
      selectedTexture := None;
    }

    function SelectedCategoryTextures(): (r: seq<CatalogItem>)
      reads this
      ensures IsLookup(texturesData, selectedCategory, r)
    {
      CategoryItems(texturesData, selectedCategory)
    }

    method ApplyTexture()
      modifies this
      ensures State() == old(State()).(materialUpdates :=
        TextureApplied(old(materialUpdates), selectedPart, selectedTexture, tileScaleX, tileScaleY))
    {
      if selectedPart.Some? && TruthyStr(selectedTexture) {
        materialUpdates := Spread(materialUpdates, selectedPart.value.id,
                                  TiledRecord(selectedTexture.value, tileScaleX, tileScaleY));
      }
    }

    method HandleTileCategoryChange(value: string)
      modifies this
      ensures State() == old(State()).(selectedTileCategory := value, selectedTile := None)
    {
      selectedTileCategory := value;
      selectedTile := None;
    }

    method ApplyTile()
      modifies this
      ensures State() == old(State()).(materialUpdates :=
        TextureApplied(old(materialUpdates), selectedPart, selectedTile, tileScaleX, tileScaleY))
    {
      if selectedPart.Some? && TruthyStr(selectedTile) {
        materialUpdates := Spread(materialUpdates, selectedPart.value.id,
                                  TiledRecord(selectedTile.value, tileScaleX, tileScaleY));
      }
    }

    function SelectedCategoryTiles(): (r: seq<CatalogItem>)
      reads this
      ensures IsLookup(tilesData, selectedTileCategory, r)
    {
      CategoryItems(tilesData, selectedTileCategory)
    }

    method HandleCeilingCategoryChange(value: string)
      modifies this
      ensures State() == old(State()).(selectedCeilingCategory := value, selectedCeilingTexture := None)
    {
      selectedCeilingCategory := value;
      selectedCeilingTexture := None;
    }

    method ApplyCeilingTexture()
      modifies this
      ensures State() == old(State()).(materialUpdates :=
        TextureApplied(old(materialUpdates), selectedPart, selectedCeilingTexture, tileScaleX, tileScaleY))
    {
      if selectedPart.Some? && TruthyStr(selectedCeilingTexture) {
        materialUpdates := Spread(materialUpdates, selectedPart.value.id,
                                  TiledRecord(selectedCeilingTexture.value, tileScaleX, tileScaleY));
      }
    }

    function SelectedCeilingTextures(): (r: seq<CatalogItem>)
      reads this
      ensures IsLookup(ceilingsData, selectedCeilingCategory, r)
    {
      CategoryItems(ceilingsData, selectedCeilingCategory)
    }

    /** A palette swatch click or the custom colour input. */
    method PickColor(value: string)
      modifies this
      ensures State() == old(State()).(color := value)
    {
      color := value;
    }

    method PickTexture(image: string)
      modifies this
      ensures State() == old(State()).(selectedTexture := Some(image))
    {
      selectedTexture := Some(image);
    }

    method PickTile(image: string)
      modifies this
      ensures State() == old(State()).(selectedTile := Some(image))
    {
      selectedTile := Some(image);
    }

    method PickCeilingTexture(image: string)
      modifies this
      ensures State() == old(State()).(selectedCeilingTexture := Some(image))
    {
      selectedCeilingTexture := Some(image);
    }

    /** The scale inputs store `parseFloat(value)`, NaN included. */
    method SetTileScaleX(value: Num)
      modifies this
      ensures State() == old(State()).(tileScaleX := value)
    {
      tileScaleX := value;
    }

    method SetTileScaleY(value: Num)
      modifies this
      ensures State() == old(State()).(tileScaleY := value)
    {
      tileScaleY := value;
    }
  }

  /**
   Select M1 (material "Wall"), pick #112233 and apply: M1's record becomes
   `{color: "#112233"}`. Selecting another mesh then leaves it as it is.
   */
  method ColourScenario(m2: string)
    requires m2 != "M1"
  {
    var editor := new Editor([], [], []);
    editor.HandlePartSelection("M1", "Wall");
    editor.PickColor("#112233");
    editor.ApplyChanges();
    assert editor.materialUpdates["M1"] == Override(Some("#112233"), None, None, None);
    editor.HandlePartSelection(m2, "Floor");
    assert editor.materialUpdates["M1"] == Override(Some("#112233"), None, None, None);
    assert m2 !in editor.materialUpdates;
  }

  /**
   Select M1, pick texture T, set the scales to 2 and 3 and apply: the
   record becomes `{texture: T, tileScaleX: 2, tileScaleY: 3}`, replacing an
   earlier colour-only record.
   */
  method TextureScenario(t: string)
    requires t != ""
  {
    var editor := new Editor([], [], []);
    editor.HandlePartSelection("M1", "Wall");
    editor.ApplyChanges();
    editor.PickTexture(t);
    editor.SetTileScaleX(Num(2.0));
    editor.SetTileScaleY(Num(3.0));
    editor.ApplyTexture();
    assert editor.materialUpdates["M1"] == Override(None, Some(t), Some(Num(2.0)), Some(Num(3.0)));
  }
}
