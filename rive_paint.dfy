/**
 * FUnrealRivePaint (Source/RiveCore/Private/Core/UnrealRivePaint.cpp): the
 * paint state the renderer reads. A paint is a solid colour, a gradient or
 * an image, and the setters keep the paint type in step with which of the
 * gradient and image references is held.
 */
module RivePaint {
  import opened Wrappers

  datatype EPaintType = None | SolidColor | LinearGradient | RadialGradient | Image

  datatype RenderPaintStyle = Stroke | Fill
  datatype StrokeJoin = Miter | RoundJoin | Bevel
  datatype StrokeCap = Butt | RoundCap | Square
  /** rive::BlendMode; only its default is named here. */
  datatype BlendMode = SrcOver | OtherBlendMode(code: nat)

  /** rive::ColorInt, 0xAARRGGBB. */
  type ColorInt = bv32

  /** A reference to an FUnrealRiveGradient: its identity and the paint type it was made with. */
  datatype GradientRef = GradientRef(id: nat, paintType: EPaintType)
  /** A reference to an FUnrealRiveTexture. */
  datatype TextureRef = TextureRef(id: nat)

  /** The paint types a gradient carries: None (default constructed), LinearGradient or RadialGradient. */
  predicate IsGradientType(t: EPaintType)
  {
    t == EPaintType.None || t == LinearGradient || t == RadialGradient
  }

  function Abs(x: real): (r: real)
    ensures r >= 0.0 && (r == x || r == -x)
  {
    if x < 0.0 then -x else x
  }

  class FUnrealRivePaint {
    var PaintType: EPaintType
    var IsStroked: bool
    var Color: ColorInt
    var Gradient: Option<GradientRef>
    var ImageTexture: Option<TextureRef>
    var ImageOpacity: real
    var Thickness: real
    var JoinType: StrokeJoin
    var CapType: StrokeCap
    var Blend: BlendMode

    ghost predicate Valid()
      reads this
    {
      PaintCoherent(PaintType, Gradient, ImageTexture) && Thickness >= 0.0
    }

    /** The defaults: solid opaque black, filled, thickness 1, miter joins, butt caps, source-over; `opacity` stands for the uninitialised ImageOpacity. */
    constructor (opacity: real)
      ensures Valid()
      ensures PaintType == SolidColor && !IsStroked && Color == 0xff00_0000 && Thickness == 1.0
      ensures Gradient.None? && ImageTexture.None? && ImageOpacity == opacity
      ensures JoinType == Miter && CapType == Butt && Blend == SrcOver
    {
      PaintType := SolidColor;
      IsStroked := false;
      Color := 0xff00_0000;
      Gradient := Option.None;
      ImageTexture := Option.None;
      ImageOpacity := opacity;
      Thickness := 1.0;
      JoinType := Miter;
      CapType := Butt;
      Blend := SrcOver;
    }

    /** style: stroked exactly when the style is stroke. */
    method SetStyle(style: RenderPaintStyle)
      modifies this`IsStroked
      ensures IsStroked <==> style == Stroke
    {
      IsStroked := style == Stroke;
    }

    /** color: a solid colour; the gradient and image references are dropped. */
    method SetColor(color: ColorInt)
      requires Valid()
      modifies this`ImageTexture, this`Gradient, this`Color, this`PaintType
      ensures Valid()
      ensures Color == color && PaintType == SolidColor && Gradient.None? && ImageTexture.None?
    {
      ImageTexture := Option.None;
      Gradient := Option.None;
      Color := color;
      PaintType := SolidColor;
    }

    /** thickness: the absolute value is kept. */
    method SetThickness(thickness: real)
      requires Valid()
      modifies this`Thickness
      ensures Valid()
      ensures Thickness == Abs(thickness)
    {
      Thickness := Abs(thickness);
    }

    method SetJoin(join: StrokeJoin)
      modifies this`JoinType
      ensures JoinType == join
    {
      JoinType := join;
    }

    method SetCap(cap: StrokeCap)
      modifies this`CapType
      ensures CapType == cap
    {
      CapType := cap;
    }

    method SetBlendMode(mode: BlendMode)
      modifies this`Blend
      ensures Blend == mode
    {
      Blend := mode;
    }

    /** shader: the image is dropped; no shader means a solid colour, otherwise the gradient's own paint type. */
    method SetShader(shader: Option<GradientRef>)
      requires Valid()
      requires shader.Some? ==> IsGradientType(shader.value.paintType)
      modifies this`ImageTexture, this`Gradient, this`PaintType
      ensures Valid()
      ensures ImageTexture.None? && Gradient == shader
      ensures PaintType == if shader.None? then SolidColor else shader.value.paintType
    {
      ImageTexture := Option.None;
      Gradient := shader;
      PaintType := if Gradient.Some? then Gradient.value.paintType else SolidColor;
    }

    /** image: an image paint with the given opacity; the gradient is dropped. */
    method SetImage(texture: Option<TextureRef>, opacity: real)
      requires Valid()
      modifies this`ImageOpacity, this`ImageTexture, this`Gradient, this`PaintType
      ensures Valid()
      ensures ImageOpacity == opacity && ImageTexture == texture && Gradient.None? && PaintType == Image
    {
      ImageOpacity := opacity;
      ImageTexture := texture;
      Gradient := Option.None;
      PaintType := Image;
    }
  }

  /**
   * The paint type names what the paint draws with: a solid colour holds
   * neither a gradient nor an image, a gradient type is used exactly when a
   * gradient is held (whose type it is, and which excludes an image), and an
   * image paint holds no gradient.
   */
  predicate PaintCoherent(t: EPaintType, gradient: Option<GradientRef>, image: Option<TextureRef>)
  {
    (t == SolidColor ==> gradient.None? && image.None?) &&
    (IsGradientType(t) <==> gradient.Some?) &&
    (gradient.Some? ==> t == gradient.value.paintType && image.None?) &&
    (t == Image ==> gradient.None?)
  }

  /** A coherent paint never holds both a gradient and an image, and a held image means an image paint. */
  lemma CoherentPaintHoldsOneSource(t: EPaintType, gradient: Option<GradientRef>, image: Option<TextureRef>)
    requires PaintCoherent(t, gradient, image)
    ensures !(gradient.Some? && image.Some?)
    ensures image.Some? ==> t == Image
  {
  }
}
