/**
 * GPUSurfaceGL: an on-screen OpenGL surface. It wraps the delegate's
 * framebuffer object (FBO) in a Skia surface, keeps that surface while the
 * requested size stays the same, and re-wraps it when presenting resets the
 * FBO.
 *
 * The delegate's answers (make-current, the FBO it hands out, present, FBO
 * reset) and Skia's answers (which colour types a context can render to,
 * whether wrapping a render target succeeds) are inputs of the operations.
 */
module GpuSurfaceGL {
  import opened Wrappers

  type uint32 = x: int | 0 <= x < 0x1_0000_0000

  /** A GL enum such as a sized internal format. */
  type GrGLenum = uint32

  const GlRgba8: GrGLenum := 0x8058
  const GlRgba4: GrGLenum := 0x8056
  const GlRgb565: GrGLenum := 0x8D62

  /** An integer size; Skia calls it empty when either side is not positive. */
  datatype SkISize = SkISize(width: int, height: int)
  {
    predicate IsEmpty()
    {
      width <= 0 || height <= 0
    }
  }

  /** Skia colour types (the ones the surface asks about, and a few others). */
  datatype SkColorType = Unknown | Alpha8 | RGB565 | ARGB4444 | RGBA8888 | BGRA8888 | RGBAF16

  /** The order in which a colour type for the on-screen surface is chosen. */
  const ColorTypePriority: seq<SkColorType> := [RGBA8888, ARGB4444, RGB565]

  /** The GL format that goes with each colour type of the priority list. */
  function GlFormatOf(t: SkColorType): GrGLenum
    requires t in ColorTypePriority
  {
    match t
    case RGBA8888 => GlRgba8
    case ARGB4444 => GlRgba4
    case RGB565 => GlRgb565
  }

  /**
   * A wrapped on-screen surface: its size, the FBO it renders into, its
   * colour type and GL format. The format is None when no colour type was
   * supported, where the source leaves it unwritten.
   */
  datatype Surface = Surface(size: SkISize, fbo: uint32, colorType: SkColorType, format: Option<GrGLenum>)

  /**
   * A frame handed to the rasterizer: its surface (None for a frame that
   * renders nowhere), whether it supports read-back, and whether submitting
   * it presents the surface (otherwise submission just succeeds).
   */
  datatype SurfaceFrame = SurfaceFrame(surface: Option<Surface>, supportsReadback: bool, submitPresents: bool)

  /**
   * The first colour type of the priority list that `supported` (the
   * context's colorTypeSupportedAsSurface answers) contains, with its GL
   * format written to the out-parameter; Unknown, with the out-parameter
   * untouched, when there is none.
   */
  method FirstSupportedColorType(supported: set<SkColorType>, format: GrGLenum)
    returns (colorType: SkColorType, formatOut: GrGLenum)
    ensures colorType == Unknown || colorType in ColorTypePriority
    ensures colorType != Unknown ==> colorType in supported && formatOut == GlFormatOf(colorType)
    ensures colorType == Unknown <==> forall i :: 0 <= i < |ColorTypePriority| ==> ColorTypePriority[i] !in supported
    ensures colorType == Unknown ==> formatOut == format
    ensures forall i :: 0 <= i < |ColorTypePriority| && ColorTypePriority[i] in supported ==>
              exists j :: 0 <= j <= i && colorType == ColorTypePriority[j]
  {
    if RGBA8888 in supported {
      return RGBA8888, GlRgba8;
    }
    if ARGB4444 in supported {
      return ARGB4444, GlRgba4;
    }
    if RGB565 in supported {
      return RGB565, GlRgb565;
    }
    return Unknown, format;
  }

  /**
   * WrapOnscreenSurface: picks the colour type and wraps `fbo` as a render
   * target of `size`; `skiaAccepts` is whether Skia makes a surface of it.
   */
  method WrapOnscreenSurface(supported: set<SkColorType>, size: SkISize, fbo: uint32, skiaAccepts: bool)
    returns (surface: Option<Surface>)
    ensures skiaAccepts <==> surface.Some?
    ensures surface.Some? ==>
              surface.value.size == size && surface.value.fbo == fbo
              && (surface.value.colorType == Unknown <==> surface.value.format.None?)
              && (surface.value.colorType != Unknown ==>
                    surface.value.colorType in supported && surface.value.colorType in ColorTypePriority
                    && surface.value.format == Some(GlFormatOf(surface.value.colorType)))
  {
    var colorType, format := FirstSupportedColorType(supported, 0);
    if !skiaAccepts {
      return None;
    }
    var fmt := if colorType == Unknown then None else Some(format);
    surface := Some(Surface(size, fbo, colorType, fmt));
  }

  class GPUSurfaceGL {
    /** Whether the delegate pointer is set. */
    var hasDelegate: bool
    /** The Skia context, as the colour types it can render to; None for a null context. */
    var context: Option<set<SkColorType>>
    var contextOwner: bool
    const renderToSurface: bool
    var valid: bool
    var onscreenSurface: Option<Surface>
    var fboId: uint32

    /** A surface exists only over a context, and the FBO id is 0 without a surface. */
    ghost predicate Consistent()
      reads this
    {
      (onscreenSurface.Some? ==> context.Some?)
      && (onscreenSurface.None? ==> fboId == 0)
    }

    /**
     * The constructor taking a context. It is valid only when making the
     * context current succeeds, and then exactly when the context is not null.
     */
    constructor (grContext: Option<set<SkColorType>>, renderToSurface: bool, makeCurrentOk: bool)
      ensures Consistent()
      ensures hasDelegate && context == grContext && !contextOwner && this.renderToSurface == renderToSurface
      ensures valid <==> makeCurrentOk && grContext.Some?
      ensures onscreenSurface.None? && fboId == 0
    {
      hasDelegate := true;
      context := grContext;
      contextOwner := false;
      this.renderToSurface := renderToSurface;
      onscreenSurface := None;
      fboId := 0;
      valid := false;
      if makeCurrentOk {
        valid := grContext.Some?;
      }
    }

    /**
     * The constructor that makes its own context: `madeContext` is what
     * making a GL context through the delegate yielded. The surface then
     * owns the context, whether or not one was made.
     */
    constructor OwningContext(madeContext: Option<set<SkColorType>>, renderToSurface: bool, makeCurrentOk: bool)
      ensures Consistent()
      ensures hasDelegate && context == madeContext && contextOwner && this.renderToSurface == renderToSurface
      ensures valid <==> makeCurrentOk && madeContext.Some?
      ensures onscreenSurface.None? && fboId == 0
    {
      hasDelegate := true;
      context := madeContext;
      this.renderToSurface := renderToSurface;
      onscreenSurface := None;
      fboId := 0;
      valid := false;
      if makeCurrentOk {
        valid := madeContext.Some?;
      }
      contextOwner := true;
    }

    /**
     * The destructor: nothing when the surface is not valid or the context
     * cannot be made current; otherwise drops the surface, the FBO id and
     * the context. `abandoned` is whether the context's resources were
     * released, which happens only for an owned context.
     */
    method Destroy(makeCurrentOk: bool) returns (abandoned: bool)
      requires Consistent()
      modifies this
      ensures Consistent()
      ensures !old(valid) || !makeCurrentOk ==> !abandoned && unchanged(this)
      ensures old(valid) && makeCurrentOk ==>
                abandoned == old(contextOwner)
                && onscreenSurface.None? && fboId == 0 && context.None?
                && valid == old(valid) && hasDelegate == old(hasDelegate) && contextOwner == old(contextOwner)
    {
      abandoned := false;
      if !valid {
        return;
      }
      if !makeCurrentOk {
        return;
      }
      onscreenSurface := None;
      fboId := 0;
      if contextOwner {
        abandoned := true;
      }
      context := None;
    }

    /**
     * Keeps the surface when `size` equals its size; otherwise clears the
     * surface and FBO id, fails on an empty size, asks the delegate for an
     * FBO (`delegateFbo`) and wraps it. A context is needed exactly when a
     * wrap is attempted.
     */
    method CreateOrUpdateSurfaces(size: SkISize, delegateFbo: uint32, skiaAccepts: bool) returns (ok: bool)
      requires Consistent()
      requires (onscreenSurface.Some? && onscreenSurface.value.size == size) || size.IsEmpty() || context.Some?
      modifies this`onscreenSurface, this`fboId
      ensures Consistent()
      ensures old(onscreenSurface).Some? && old(onscreenSurface).value.size == size ==>
                ok && onscreenSurface == old(onscreenSurface) && fboId == old(fboId)
      ensures !(old(onscreenSurface).Some? && old(onscreenSurface).value.size == size) && size.IsEmpty() ==>
                !ok && onscreenSurface.None? && fboId == 0
      ensures !(old(onscreenSurface).Some? && old(onscreenSurface).value.size == size) && !size.IsEmpty() ==>
                (ok <==> skiaAccepts)
                && (!ok ==> onscreenSurface.None? && fboId == 0)
                && (ok ==> onscreenSurface.Some? && onscreenSurface.value.size == size
                           && onscreenSurface.value.fbo == delegateFbo && fboId == delegateFbo)
    {
      if onscreenSurface.Some? && size == onscreenSurface.value.size {
        return true;
      }
      onscreenSurface := None;
      fboId := 0;
      if size.IsEmpty() {
        return false;
      }
      var surface := WrapOnscreenSurface(context.value, size, delegateFbo, skiaAccepts);
      if surface.None? {
        return false;
      }
      onscreenSurface := surface;
      fboId := delegateFbo;
      return true;
    }

    /**
     * Presents the current FBO. Fails without a delegate, a canvas or a
     * context, or when the delegate's present fails. When the delegate says
     * the FBO was reset, the surface is re-wrapped at its current size over
     * the new FBO (`newFbo`); a failed re-wrap keeps the old surface.
     */
    method PresentSurface(hasCanvas: bool, presentOk: bool, fboReset: bool, newFbo: uint32, skiaAccepts: bool)
      returns (ok: bool)
      requires Consistent()
      requires !hasDelegate || !hasCanvas || context.None? || onscreenSurface.Some?
      modifies this`onscreenSurface, this`fboId
      ensures Consistent()
      ensures !old(hasDelegate) || !hasCanvas || context.None? || !presentOk ==>
                !ok && onscreenSurface == old(onscreenSurface) && fboId == old(fboId)
      ensures hasDelegate && hasCanvas && context.Some? && presentOk && !fboReset ==>
                ok && onscreenSurface == old(onscreenSurface) && fboId == old(fboId)
      ensures hasDelegate && hasCanvas && context.Some? && presentOk && fboReset && !skiaAccepts ==>
                !ok && onscreenSurface == old(onscreenSurface) && fboId == old(fboId)
      ensures hasDelegate && hasCanvas && context.Some? && presentOk && fboReset && skiaAccepts ==>
                ok && onscreenSurface.Some? && onscreenSurface.value.size == old(onscreenSurface).value.size
                && onscreenSurface.value.fbo == newFbo && fboId == newFbo
    {
      if !hasDelegate || !hasCanvas || context.None? {
        return false;
      }
      if !presentOk {
        return false;
      }
      if fboReset {
        var currentSize := onscreenSurface.value.size;
        var newSurface := WrapOnscreenSurface(context.value, currentSize, newFbo, skiaAccepts);
        if newSurface.None? {
          return false;
        }
        onscreenSurface := newSurface;
        fboId := newFbo;
      }
      return true;
    }

    /**
     * AcquireFrame's branches. No frame without a delegate or when the
     * context cannot be made current; a surface that does not render to
     * its own surface hands out a surface-less frame that supports
     * read-back and whose submission just succeeds; otherwise the surface
     * is brought to `transformedSize` (the requested size under the root
     * transformation) and the frame renders into it and presents it, with
     * the delegate's read-back answer.
     */
    method AcquireFrame(makeCurrentOk: bool, transformedSize: SkISize, delegateFbo: uint32, skiaAccepts: bool,
                        delegateSupportsReadback: bool)
      returns (frame: Option<SurfaceFrame>)
      requires Consistent()
      requires hasDelegate && makeCurrentOk && renderToSurface ==>
                 (onscreenSurface.Some? && onscreenSurface.value.size == transformedSize)
                 || transformedSize.IsEmpty() || context.Some?
      modifies this`onscreenSurface, this`fboId
      ensures Consistent()
      ensures !hasDelegate || !makeCurrentOk ==>
                frame.None? && onscreenSurface == old(onscreenSurface) && fboId == old(fboId)
      ensures hasDelegate && makeCurrentOk && !renderToSurface ==>
                frame == Some(SurfaceFrame(None, true, false))
                && onscreenSurface == old(onscreenSurface) && fboId == old(fboId)
      ensures hasDelegate && makeCurrentOk && renderToSurface ==>
                (frame.Some? ==> frame.value == SurfaceFrame(onscreenSurface, delegateSupportsReadback, true)
                                 && onscreenSurface.Some? && onscreenSurface.value.size == transformedSize)
                && (frame.None? ==> onscreenSurface.None? && fboId == 0)
      ensures hasDelegate && makeCurrentOk && renderToSurface
              && old(onscreenSurface).Some? && old(onscreenSurface).value.size == transformedSize ==>
                frame.Some? && onscreenSurface == old(onscreenSurface) && fboId == old(fboId)
      ensures hasDelegate && makeCurrentOk && renderToSurface
              && !(old(onscreenSurface).Some? && old(onscreenSurface).value.size == transformedSize) ==>
                (frame.Some? <==> !transformedSize.IsEmpty() && skiaAccepts)
                && (frame.Some? ==> onscreenSurface.value.fbo == delegateFbo && fboId == delegateFbo)
    {
      if !hasDelegate {
        return None;
      }
      if !makeCurrentOk {
        return None;
      }
      if !renderToSurface {
        return Some(SurfaceFrame(None, true, false));
      }
      var ok := CreateOrUpdateSurfaces(transformedSize, delegateFbo, skiaAccepts);
      if !ok {
        return None;
      }
      frame := Some(SurfaceFrame(onscreenSurface, delegateSupportsReadback, true));
    }
  }
}
