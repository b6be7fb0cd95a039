/** The play-field geometry and the renderer's "upload only if changed" cache of shader
    constants. The Direct3D calls themselves are not modelled: an upload is counted in a
    ghost counter per constant buffer. */
module Renderer {
  import opened Geometry

  /** The pixel geometry of the square play field. */
  datatype FieldCache = FieldCache(
    fieldSize: real,
    fieldTL: Point,
    fieldBR: Point,
    center: Point,
    halfField: real,
    circleRadiusPx: real,
    spawnMaxRadius: real,
    cursorRadiusPx: real,
    valid: bool)

  /** `UpdateFieldCache` for a renderer of `width` by `height` pixels: a degenerate
      viewport only clears `valid`; otherwise the field is a square of side
      `min(W, H) * scale` centred in the viewport, and the radii are fractions of half
      that side. */
  function UpdateFieldCache(width: int, height: int, cache: FieldCache,
                            scale: real, circleRadiusNorm: real, cursorRadiusNorm: real): (c: FieldCache)
    ensures width <= 0 || height <= 0 ==> c == cache.(valid := false)
    ensures width > 0 && height > 0 ==>
      && c.valid
      && c.fieldSize == Min(width as real, height as real) * scale
      && c.halfField * 2.0 == c.fieldSize
      && c.fieldTL == Point((width as real - c.fieldSize) / 2.0, (height as real - c.fieldSize) / 2.0)
      && c.fieldBR == Point(c.fieldTL.x + c.fieldSize, c.fieldTL.y + c.fieldSize)
      && c.center == Point(width as real / 2.0, height as real / 2.0)
      && c.circleRadiusPx == circleRadiusNorm * c.halfField
      && c.cursorRadiusPx == cursorRadiusNorm * c.halfField
      && c.spawnMaxRadius >= 0.0
      && c.spawnMaxRadius >= c.halfField - c.circleRadiusPx
      && (c.spawnMaxRadius == 0.0 || c.spawnMaxRadius == c.halfField - c.circleRadiusPx)
  {
    if width <= 0 || height <= 0 then
      cache.(valid := false)
    else
      var w, h := width as real, height as real;
      var fieldSize := Min(w, h) * scale;
      var halfField := fieldSize * 0.5;
      var fieldTL := Point((w - fieldSize) * 0.5, (h - fieldSize) * 0.5);
      var fieldBR := Point(fieldTL.x + fieldSize, fieldTL.y + fieldSize);
      var center := Point(fieldTL.x + halfField, fieldTL.y + halfField);
      var circleRadiusPx := circleRadiusNorm * halfField;
      var spawnMaxRadius := Max(0.0, halfField - circleRadiusPx);
      FieldCache(fieldSize, fieldTL, fieldBR, center, halfField, circleRadiusPx,
                 spawnMaxRadius, cursorRadiusNorm * halfField, true)
  }

  /** With a scale in (0, 1] the field fits inside the viewport. */
  lemma FieldInsideViewport(width: int, height: int, cache: FieldCache,
                            scale: real, circleRadiusNorm: real, cursorRadiusNorm: real)
    requires width > 0 && height > 0 && 0.0 < scale <= 1.0
    ensures var c := UpdateFieldCache(width, height, cache, scale, circleRadiusNorm, cursorRadiusNorm);
      && 0.0 < c.fieldSize <= Min(width as real, height as real)
      && 0.0 <= c.fieldTL.x && c.fieldBR.x <= width as real
      && 0.0 <= c.fieldTL.y && c.fieldBR.y <= height as real
  {
    var c := UpdateFieldCache(width, height, cache, scale, circleRadiusNorm, cursorRadiusNorm);
    ScaledWithin(Min(width as real, height as real), scale);
    assert 0.0 < c.fieldSize <= Min(width as real, height as real);
  }

  /** Scaling a positive length by a factor in (0, 1] keeps it positive and no longer. */
  lemma ScaledWithin(m: real, scale: real)
    requires 0.0 < m && 0.0 < scale <= 1.0
    ensures 0.0 < m * scale <= m
  {
    assert m * scale <= m * 1.0;
  }

  /** A target placed within `spawnMaxRadius` of the centre lies wholly inside the field
      when the target radius fraction is in [0, 1]: the spawn disc keeps every target
      clear of the field's edges. */
  lemma SpawnedTargetInsideField(width: int, height: int, cache: FieldCache,
                                 scale: real, circleRadiusNorm: real, cursorRadiusNorm: real, p: Point)
    requires width > 0 && height > 0 && 0.0 < scale
    requires 0.0 <= circleRadiusNorm <= 1.0
    requires var c := UpdateFieldCache(width, height, cache, scale, circleRadiusNorm, cursorRadiusNorm);
      Within(p, c.center, c.spawnMaxRadius)
    ensures var c := UpdateFieldCache(width, height, cache, scale, circleRadiusNorm, cursorRadiusNorm);
      && c.fieldTL.x <= p.x - c.circleRadiusPx && p.x + c.circleRadiusPx <= c.fieldBR.x
      && c.fieldTL.y <= p.y - c.circleRadiusPx && p.y + c.circleRadiusPx <= c.fieldBR.y
  {
    var c := UpdateFieldCache(width, height, cache, scale, circleRadiusNorm, cursorRadiusNorm);
    CoordinateWithin(p, c.center, c.spawnMaxRadius);
    assert c.halfField > 0.0;
    assert 0.0 <= c.circleRadiusPx <= c.halfField by {
      assert circleRadiusNorm * c.halfField <= 1.0 * c.halfField;
    }
    assert c.spawnMaxRadius == c.halfField - c.circleRadiusPx;
  }

  datatype Color = Color(r: real, g: real, b: real, a: real)

  /** The six meaningful components of `VS_ConstantBuffer`; the other six are always zero. */
  datatype VsConstants = VsConstants(scaleX: real, scaleY: real, translateX: real, translateY: real,
                                     windowW: real, windowH: real)

  datatype PsCircleConstants = PsCircleConstants(color: Color, centerX: real, centerY: real,
                                                 radius: real, featherWidth: real)

  const ZeroColor := Color(0.0, 0.0, 0.0, 0.0)
  const ZeroVs := VsConstants(0.0, 0.0, 0.0, 0.0, 0.0, 0.0)
  const ZeroPsCircle := PsCircleConstants(ZeroColor, 0.0, 0.0, 0.0, 0.0)

  /** The vertex constants of the field quad. */
  function FieldVs(fc: FieldCache, width: int, height: int): VsConstants
  {
    VsConstants(fc.fieldSize, fc.fieldSize, fc.fieldTL.x, fc.fieldTL.y, width as real, height as real)
  }

  /** The vertex constants of a circle's bounding quad. */
  function CircleVs(center: Point, radius: real, width: int, height: int): VsConstants
  {
    VsConstants(radius * 2.0, radius * 2.0, center.x - radius, center.y - radius, width as real, height as real)
  }

  /** The state of `Renderer` that the field and circle drawing keep between calls. */
  class Renderer {
    var hasDevice: bool
    var width: int
    var height: int
    var maxFrameLatency: int
    var lastVS: VsConstants
    var hasLastVS: bool
    var lastPSField: Color
    var hasLastPSField: bool
    var lastPSCircle: PsCircleConstants
    var hasLastPSCircle: bool
    /** How many times each constant buffer was uploaded. */
    ghost var vsUploads: nat
    ghost var psFieldUploads: nat
    ghost var psCircleUploads: nat

    /** The constructor: no device, a zero size, empty caches, a latency of 1. */
    constructor ()
      ensures !hasDevice && width == 0 && height == 0 && maxFrameLatency == 1
      ensures !hasLastVS && !hasLastPSField && !hasLastPSCircle
      ensures lastVS == ZeroVs && lastPSField == ZeroColor && lastPSCircle == ZeroPsCircle
      ensures vsUploads == 0 && psFieldUploads == 0 && psCircleUploads == 0
    {
      hasDevice, width, height, maxFrameLatency := false, 0, 0, 1;
      lastVS, hasLastVS := ZeroVs, false;
      lastPSField, hasLastPSField := ZeroColor, false;
      lastPSCircle, hasLastPSCircle := ZeroPsCircle, false;
      vsUploads, psFieldUploads, psCircleUploads := 0, 0, 0;
    }

    /** `Initialize` as far as this state goes: the size is recorded first; whether device
        and swap-chain creation succeeded, and whether `InitGraphics` then created every
        shader, layout and buffer, are inputs. The result is `InitGraphics`'s only when the
        device exists; a device once created is kept even if the graphics setup fails. */
    method Initialize(w: int, h: int, deviceCreated: bool, graphicsReady: bool) returns (ok: bool)
      modifies this`width, this`height, this`hasDevice
      ensures width == w && height == h
      ensures hasDevice == deviceCreated
      ensures ok == (deviceCreated && graphicsReady)
    {
      width, height := w, h;
      hasDevice := deviceCreated;
      if !deviceCreated {
        return false;
      }
      ok := graphicsReady;
    }

    /** `SetMaxFrameLatency`: the stored latency is at least 1; a latency of 0 is raised
        to 1 and any other is kept as given, with no upper clamp. */
    method SetMaxFrameLatency(latency: nat)
      modifies this`maxFrameLatency
      ensures maxFrameLatency >= 1
      ensures latency >= 1 ==> maxFrameLatency == latency
      ensures latency == 0 ==> maxFrameLatency == 1
    {
      var l := latency;
      if l < 1 {
        l := 1;
      }
      maxFrameLatency := l;
    }

    /** `Resize`: ignored without a device; otherwise records the size and forgets the
        cached vertex constants, which hold the window size. */
    method Resize(w: int, h: int)
      modifies this`width, this`height, this`hasLastVS
      ensures !old(hasDevice) ==> width == old(width) && height == old(height) && hasLastVS == old(hasLastVS)
      ensures old(hasDevice) ==> width == w && height == h && !hasLastVS
    {
      if !hasDevice {
        return;
      }
      width, height := w, h;
      hasLastVS := false;
    }

    /** Upload the vertex constants unless the cached copy equals them. */
    method UploadVsIfChanged(vs: VsConstants)
      modifies this`lastVS, this`hasLastVS, this`vsUploads
      ensures lastVS == vs && hasLastVS
      ensures vsUploads == old(vsUploads) + if !old(hasLastVS) || old(lastVS) != vs then 1 else 0
    {
      if !hasLastVS || vs != lastVS {
        vsUploads := vsUploads + 1;
        lastVS := vs;
        hasLastVS := true;
      }
    }

    /** `DrawField`: each of the two buffers is uploaded exactly when nothing is cached or
        the cached copy differs, and afterwards the cache holds the new value. */
    method DrawField(fc: FieldCache, color: Color)
      modifies this`lastVS, this`hasLastVS, this`vsUploads
      modifies this`lastPSField, this`hasLastPSField, this`psFieldUploads
      ensures lastVS == FieldVs(fc, width, height) && hasLastVS
      ensures vsUploads == old(vsUploads) + if !old(hasLastVS) || old(lastVS) != FieldVs(fc, width, height) then 1 else 0
      ensures lastPSField == color && hasLastPSField
      ensures psFieldUploads == old(psFieldUploads) + if !old(hasLastPSField) || old(lastPSField) != color then 1 else 0
    {
      UploadVsIfChanged(FieldVs(fc, width, height));
      if !hasLastPSField || color != lastPSField {
        psFieldUploads := psFieldUploads + 1;
        lastPSField := color;
        hasLastPSField := true;
      }
    }

    /** `DrawCircle`: the same rule for the vertex constants and the circle's pixel constants. */
    method DrawCircle(center: Point, radius: real, color: Color, feather: real)
      modifies this`lastVS, this`hasLastVS, this`vsUploads
      modifies this`lastPSCircle, this`hasLastPSCircle, this`psCircleUploads
      ensures lastVS == CircleVs(center, radius, width, height) && hasLastVS
      ensures vsUploads == old(vsUploads) + if !old(hasLastVS) || old(lastVS) != CircleVs(center, radius, width, height) then 1 else 0
      ensures lastPSCircle == PsCircleConstants(color, center.x, center.y, radius, feather) && hasLastPSCircle
      ensures psCircleUploads == old(psCircleUploads) +
        if !old(hasLastPSCircle) || old(lastPSCircle) != PsCircleConstants(color, center.x, center.y, radius, feather) then 1 else 0
    {
      UploadVsIfChanged(CircleVs(center, radius, width, height));
      var ps := PsCircleConstants(color, center.x, center.y, radius, feather);
      if !hasLastPSCircle || ps != lastPSCircle {
        psCircleUploads := psCircleUploads + 1;
        lastPSCircle := ps;
        hasLastPSCircle := true;
      }
    }

    /** `EndCircleRendering`: the next circle uploads its pixel constants whatever they are. */
    method EndCircleRendering()
      modifies this`hasLastPSCircle
      ensures !hasLastPSCircle
    {
      hasLastPSCircle := false;
    }
  }

  /** Drawing the same field twice uploads nothing the second time. */
  method RedrawFieldUploadsNothing(r: Renderer, fc: FieldCache, color: Color)
    modifies r
    ensures r.vsUploads == old(r.vsUploads) + if !old(r.hasLastVS) || old(r.lastVS) != FieldVs(fc, r.width, r.height) then 1 else 0
    ensures r.psFieldUploads == old(r.psFieldUploads) + if !old(r.hasLastPSField) || old(r.lastPSField) != color then 1 else 0
  {
    r.DrawField(fc, color);
    r.DrawField(fc, color);
  }

  /** After `EndCircleRendering` the next circle uploads its pixel constants, even when
      they equal the last ones drawn. */
  method CircleAfterEndUploads(r: Renderer, center: Point, radius: real, color: Color, feather: real)
    modifies r
    ensures var ps := PsCircleConstants(color, center.x, center.y, radius, feather);
      r.psCircleUploads == old(r.psCircleUploads) + (if !old(r.hasLastPSCircle) || old(r.lastPSCircle) != ps then 1 else 0) + 1
  {
    r.DrawCircle(center, radius, color, feather);
    r.EndCircleRendering();
    r.DrawCircle(center, radius, color, feather);
  }
}
