/**
 The override map of the customiser: for each mesh uuid, the record the last
 "apply" action wrote for it. Every apply action builds a new map by spreading
 the old one and replacing the record of the selected mesh as a whole; no
 action merges fields and no action deletes a key.
 */
module Overrides {
  import opened JsValues

  /** `{color?, texture?, tileScaleX?, tileScaleY?}`; None is an absent field. */
  datatype Override = Override(
    color: Option<string>,
    texture: Option<string>,
    tileScaleX: Option<Num>,
    tileScaleY: Option<Num>)

  /** The picked mesh: its uuid and the name of its material. */
  datatype Part = Part(id: string, name: string)

  type Updates = map<string, Override>

  /** The empty record `{}`. */
  const NoOverride := Override(None, None, None, None)

  /** Colour the editor shows for a part with no truthy colour override. */
  const DefaultColor := "#ff6347"

  /** Tile scale the editor shows for a part with no truthy scale override. */
  const DefaultScale := 5.0

  /** The three records the apply actions write. */
  function ColorRecord(color: string): Override {
    Override(Some(color), None, None, None)
  }

  function CeilingRecord(texture: string): Override {
    Override(None, Some(texture), None, None)
  }

  function TiledRecord(texture: string, scaleX: Num, scaleY: Num): Override {
    Override(None, Some(texture), Some(scaleX), Some(scaleY))
  }

  /** `m` and `r` hold the same records for every key other than `id`. */
  ghost predicate AgreeExcept(m: Updates, r: Updates, id: string) {
    forall k :: k != id ==> (k in m <==> k in r) && (k in m ==> m[k] == r[k])
  }

  /** `{...m, [id]: rec}` */
  function Spread(m: Updates, id: string, rec: Override): (r: Updates)
    ensures id in r && r[id] == rec
    ensures r.Keys == m.Keys + {id}
    ensures AgreeExcept(m, r, id)
  {
    m[id := rec]
  }

  /** `materialUpdates[partId] || {}` */
  function Existing(m: Updates, id: string): Override {
    if id in m then m[id] else NoOverride
  }

  /** applyChanges: the selected part's record becomes exactly `{color}`. */
  function ColorApplied(m: Updates, part: Option<Part>, color: string): (r: Updates)
    ensures part.None? ==> r == m
    ensures part.Some? ==> part.value.id in r && r[part.value.id] == ColorRecord(color)
    ensures part.Some? ==> AgreeExcept(m, r, part.value.id)
  {
    if part.Some? then Spread(m, part.value.id, ColorRecord(color)) else m
  }

  /** applyCeiling: needs a part and a truthy fallCeiling; writes `{texture}`. */
  function CeilingApplied(m: Updates, part: Option<Part>, fallCeiling: Option<string>): (r: Updates)
    ensures !(part.Some? && TruthyStr(fallCeiling)) ==> r == m
    ensures part.Some? && TruthyStr(fallCeiling) ==>
      part.value.id in r && r[part.value.id] == CeilingRecord(fallCeiling.value)
    ensures part.Some? ==> AgreeExcept(m, r, part.value.id)
  {
    if part.Some? && TruthyStr(fallCeiling) then Spread(m, part.value.id, CeilingRecord(fallCeiling.value)) else m
  }

  /**
   applyTexture, applyTile and applyCeilingTexture: each needs a part and a
   truthy tentative item of its own catalogue and writes
   `{texture: item, tileScaleX, tileScaleY}` with the shared scales as they are.
   */
  function TextureApplied(m: Updates, part: Option<Part>, pick: Option<string>, scaleX: Num, scaleY: Num): (r: Updates)
    ensures !(part.Some? && TruthyStr(pick)) ==> r == m
    ensures part.Some? && TruthyStr(pick) ==>
      part.value.id in r && r[part.value.id] == TiledRecord(pick.value, scaleX, scaleY)
    ensures part.Some? ==> AgreeExcept(m, r, part.value.id)
  {
    if part.Some? && TruthyStr(pick) then Spread(m, part.value.id, TiledRecord(pick.value, scaleX, scaleY)) else m
  }

  /** Applying the same record twice gives the same map as applying it once. */
  lemma ColorAppliedIdempotent(m: Updates, part: Option<Part>, color: string)
    ensures ColorApplied(ColorApplied(m, part, color), part, color) == ColorApplied(m, part, color)
  {
  }

  lemma CeilingAppliedIdempotent(m: Updates, part: Option<Part>, fallCeiling: Option<string>)
    ensures CeilingApplied(CeilingApplied(m, part, fallCeiling), part, fallCeiling)
         == CeilingApplied(m, part, fallCeiling)
  {
  }

  lemma TextureAppliedIdempotent(m: Updates, part: Option<Part>, pick: Option<string>, scaleX: Num, scaleY: Num)
    ensures TextureApplied(TextureApplied(m, part, pick, scaleX, scaleY), part, pick, scaleX, scaleY)
         == TextureApplied(m, part, pick, scaleX, scaleY)
  {
  }

  /**
   A colour applied after a texture replaces the whole record: the texture
   and both scales are gone from the override map.
   */
  lemma ColorDropsTexture(m: Updates, part: Part, pick: string, scaleX: Num, scaleY: Num, color: string)
    requires pick != ""
    ensures var r := ColorApplied(TextureApplied(m, Some(part), Some(pick), scaleX, scaleY), Some(part), color);
      r[part.id].texture.None? && r[part.id].tileScaleX.None? && r[part.id].tileScaleY.None?
      && r[part.id].color == Some(color)
  {
  }

  /**
   What selecting a part loads back from the record an apply wrote for it:
   the applied colour (if truthy), no texture and the default scales.
   */
  lemma SelectAfterColor(m: Updates, part: Part, color: string)
    ensures var rec := Existing(ColorApplied(m, Some(part), color), part.id);
      && StrOr(rec.color, DefaultColor) == (if color != "" then color else DefaultColor)
      && StrOrNull(rec.texture) == None
      && NumOr(rec.tileScaleX, DefaultScale) == Num(DefaultScale)
      && NumOr(rec.tileScaleY, DefaultScale) == Num(DefaultScale)
  {
  }

  /**
   After a texture-like apply, selecting the part loads the applied texture,
   each applied scale that is truthy, and 5 for a scale that was 0 or NaN.
   */
  lemma SelectAfterTexture(m: Updates, part: Part, pick: string, scaleX: Num, scaleY: Num)
    requires pick != ""
    ensures var rec := Existing(TextureApplied(m, Some(part), Some(pick), scaleX, scaleY), part.id);
      && StrOr(rec.color, DefaultColor) == DefaultColor
      && StrOrNull(rec.texture) == Some(pick)
      && NumOr(rec.tileScaleX, DefaultScale) == (if TruthyNum(Some(scaleX)) then scaleX else Num(DefaultScale))
      && NumOr(rec.tileScaleY, DefaultScale) == (if TruthyNum(Some(scaleY)) then scaleY else Num(DefaultScale))
  {
  }
}
