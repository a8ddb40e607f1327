/** The per-draw record expressions share while binding textures
    (`drawMetadata`). Each texture-backed node binds its texture to the unit
    `freeTexUnit` names and then advances it, so nodes drawn in one pass
    never share a unit. */
module Draw {
  class DrawMetadata {
    var freeTexUnit: int

    constructor(firstUnit: int)
      ensures freeTexUnit == firstUnit
    {
      freeTexUnit := firstUnit;
    }

    /** Take the current unit (`gl.TEXTURE0 + freeTexUnit`) and advance. */
    method TakeUnit() returns (unit: int)
      modifies this
      ensures unit == old(freeTexUnit) && freeTexUnit == old(freeTexUnit) + 1
    {
      unit := freeTexUnit;
      freeTexUnit := freeTexUnit + 1;
    }
  }
}
