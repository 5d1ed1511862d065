/**
 * The guards and mappings of RenderContextRHIImpl
 * (Source/RiveRenderer/Private/Platform/RenderContextRHIImpl.cpp): choosing an
 * image decoder from the encoded header, mapping shader features to shader
 * permutations, creating render buffers, and clamping texture sizes.
 */
module RenderContext {
  import opened Wrappers
  import opened FixedWidth

  // ---------------------------------------------------------------------
  // decodeImageTexture

  const PngFingerprint: seq<bv8> := [0x89, 0x50, 0x4E, 0x47]
  const JpegFingerprint: seq<bv8> := [0xFF, 0xD8, 0xFF]
  const WebpFingerprint: seq<bv8> := [0x52, 0x49, 0x46]

  datatype ImageFormat = PNG | JPEG

  /** Who decodes the bytes: nobody (null texture), Unreal's image wrapper, or rive's own decoder. */
  datatype ImageDecoder = NoDecoder | UnrealDecoder(format: ImageFormat) | RiveDecoder

  predicate HasPrefix(bytes: seq<bv8>, prefix: seq<bv8>)
  {
    |prefix| <= |bytes| && bytes[..|prefix|] == prefix
  }

  /**
   * Fewer than four bytes, or a header that is none of the three
   * fingerprints, gives no texture; PNG is tried first, then JPEG, then the
   * WebP fingerprint, which goes to rive's decoder.
   */
  function DecoderFor(bytes: seq<bv8>): (r: ImageDecoder)
    ensures |bytes| < 4 ==> r == NoDecoder
    ensures |bytes| >= 4 && HasPrefix(bytes, PngFingerprint) ==> r == UnrealDecoder(PNG)
    ensures |bytes| >= 4 && HasPrefix(bytes, JpegFingerprint) ==> r == UnrealDecoder(JPEG)
    ensures |bytes| >= 4 && HasPrefix(bytes, WebpFingerprint) ==> r == RiveDecoder
    ensures r == NoDecoder <==>
      |bytes| < 4 || !(HasPrefix(bytes, PngFingerprint) || HasPrefix(bytes, JpegFingerprint) || HasPrefix(bytes, WebpFingerprint))
  {
    if |bytes| < |PngFingerprint| then NoDecoder
    else if bytes[..4] == PngFingerprint then
      assert bytes[0] == bytes[..4][0] == 0x89;
      UnrealDecoder(PNG)
    else if bytes[..3] == JpegFingerprint then
      assert bytes[0] == bytes[..3][0] == 0xFF;
      UnrealDecoder(JPEG)
    else if bytes[..3] == WebpFingerprint then RiveDecoder
    else NoDecoder
  }

  /** Only the first four bytes decide the decoder. */
  lemma {:induction false} DecoderDependsOnHeaderOnly(a: seq<bv8>, b: seq<bv8>)
    requires |a| >= 4 && |b| >= 4 && a[..4] == b[..4]
    ensures DecoderFor(a) == DecoderFor(b)
  {
    assert a[..3] == a[..4][..3] && b[..3] == b[..4][..3];
  }

  // ---------------------------------------------------------------------
  // GetPermutationForFeatures

  datatype ShaderFeature = Clipping | ClipRect | AdvancedBlend | EvenOdd | NestedClipping | HslBlendModes | Feather

  datatype VertexPermutation = VertexPermutation(clip: bool, clipRect: bool, advancedBlend: bool, feather: bool)

  datatype PixelPermutation = PixelPermutation(clip: bool, clipRect: bool, nestedClip: bool, advancedBlend: bool,
                                               fixedFunctionColorOutput: bool, evenOdd: bool, hslBlendMode: bool,
                                               typedUavLoads: bool, feather: bool)

  /** The pixel shader permutation: one flag per feature, fixed-function colour output exactly without advanced blending, typed UAV loads from the RHI capabilities. */
  function PixelPermutationFor(features: set<ShaderFeature>, supportsTypedUavLoads: bool): (p: PixelPermutation)
    ensures p.fixedFunctionColorOutput == !p.advancedBlend
    ensures p.advancedBlend <==> AdvancedBlend in features
    ensures p.typedUavLoads == supportsTypedUavLoads
  {
    PixelPermutation(Clipping in features, ClipRect in features, NestedClipping in features, AdvancedBlend in features,
                     AdvancedBlend !in features, EvenOdd in features, HslBlendModes in features,
                     supportsTypedUavLoads, Feather in features)
  }

  /** The vertex shader permutation: clipping, clip rect, advanced blend and feather. */
  function VertexPermutationFor(features: set<ShaderFeature>): (v: VertexPermutation)
    ensures v.advancedBlend <==> AdvancedBlend in features
  {
    VertexPermutation(Clipping in features, ClipRect in features, AdvancedBlend in features, Feather in features)
  }

  /** The features a pixel permutation was chosen for. */
  function FeaturesOf(p: PixelPermutation): set<ShaderFeature>
  {
    (if p.clip then {Clipping} else {}) + (if p.clipRect then {ClipRect} else {}) +
    (if p.nestedClip then {NestedClipping} else {}) + (if p.advancedBlend then {AdvancedBlend} else {}) +
    (if p.evenOdd then {EvenOdd} else {}) + (if p.hslBlendMode then {HslBlendModes} else {}) +
    (if p.feather then {Feather} else {})
  }

  /** Distinct feature sets get distinct pixel permutations: the features can be read back. */
  lemma PixelPermutationKeepsFeatures(features: set<ShaderFeature>, supportsTypedUavLoads: bool)
    ensures FeaturesOf(PixelPermutationFor(features, supportsTypedUavLoads)) == features
  {
    var p := PixelPermutationFor(features, supportsTypedUavLoads);
    forall f | f in features ensures f in FeaturesOf(p) {
      match f
      case Clipping => assert p.clip;
      case ClipRect => assert p.clipRect;
      case AdvancedBlend => assert p.advancedBlend;
      case EvenOdd => assert p.evenOdd;
      case NestedClipping => assert p.nestedClip;
      case HslBlendModes => assert p.hslBlendMode;
      case Feather => assert p.feather;
    }
  }

  /** The vertex and pixel permutations agree on the flags both carry. */
  lemma PermutationsAgree(features: set<ShaderFeature>, supportsTypedUavLoads: bool)
    ensures var p, v := PixelPermutationFor(features, supportsTypedUavLoads), VertexPermutationFor(features);
      p.clip == v.clip && p.clipRect == v.clipRect && p.advancedBlend == v.advancedBlend && p.feather == v.feather
  {
  }

  // ---------------------------------------------------------------------
  // makeRenderBuffer

  datatype RenderBufferType = IndexBuffer | VertexBuffer
  datatype RenderBufferDesc = RenderBufferDesc(bufferType: RenderBufferType, flags: nat, sizeInBytes: nat, stride: nat)

  /** A zero-sized buffer is null; index buffers have a 2-byte (uint16) stride, the others 0. */
  function MakeRenderBuffer(bufferType: RenderBufferType, flags: nat, sizeInBytes: nat): (r: Option<RenderBufferDesc>)
    ensures r.None? <==> sizeInBytes == 0
    ensures r.Some? ==> r.value.bufferType == bufferType && r.value.flags == flags && r.value.sizeInBytes == sizeInBytes
    ensures r.Some? ==> (r.value.stride == 2 <==> bufferType == IndexBuffer) && (r.value.stride == 0 <==> bufferType != IndexBuffer)
  {
    if sizeInBytes == 0 then None
    else Some(RenderBufferDesc(bufferType, flags, sizeInBytes, if bufferType == IndexBuffer then 2 else 0))
  }

  // ---------------------------------------------------------------------
  // Texture resizing

  const TwoTo32Minus1: nat := 0xFFFF_FFFF

  /** std::max(1u, n) */
  function AtLeastOne(n: nat): (r: nat)
    ensures r >= 1 && r >= n && (n >= 1 ==> r == n)
  {
    if n < 1 then 1 else n
  }

  /** The texture extents the render context last asked for, after the static_cast<int32_t>. */
  class RenderContextRHIImpl {
    var GradientTextureExtent: (int, int)
    var TessellationTextureExtent: (int, int)
    var AtlasTextureExtent: (int, int)

    constructor ()
      ensures GradientTextureExtent == (0, 0) && TessellationTextureExtent == (0, 0) && AtlasTextureExtent == (0, 0)
    {
      GradientTextureExtent, TessellationTextureExtent, AtlasTextureExtent := (0, 0), (0, 0), (0, 0);
    }

    /** resizeGradientTexture: the height is raised to at least 1. */
    method ResizeGradientTexture(width: nat, height: nat)
      requires width <= TwoTo32Minus1 && height <= TwoTo32Minus1
      modifies this`GradientTextureExtent
      ensures GradientTextureExtent == (Int32Of(width), Int32Of(AtLeastOne(height)))
      ensures height < TwoTo31 ==> GradientTextureExtent.1 >= 1
    {
      var h := if height < 1 then 1 else height;
      GradientTextureExtent := (Int32Of(width), Int32Of(h));
    }

    /** resizeTessellationTexture: the height is raised to at least 1. */
    method ResizeTessellationTexture(width: nat, height: nat)
      requires width <= TwoTo32Minus1 && height <= TwoTo32Minus1
      modifies this`TessellationTextureExtent
      ensures TessellationTextureExtent == (Int32Of(width), Int32Of(AtLeastOne(height)))
      ensures height < TwoTo31 ==> TessellationTextureExtent.1 >= 1
    {
      var h := if height < 1 then 1 else height;
      TessellationTextureExtent := (Int32Of(width), Int32Of(h));
    }

    /** resizeAtlasTexture: both sides are raised to at least 1. */
    method ResizeAtlasTexture(width: nat, height: nat)
      requires width <= TwoTo32Minus1 && height <= TwoTo32Minus1
      modifies this`AtlasTextureExtent
      ensures AtlasTextureExtent == (Int32Of(AtLeastOne(width)), Int32Of(AtLeastOne(height)))
      ensures width < TwoTo31 && height < TwoTo31 ==> AtlasTextureExtent.0 >= 1 && AtlasTextureExtent.1 >= 1
    {
      var w := if width < 1 then 1 else width;
      var h := if height < 1 then 1 else height;
      AtlasTextureExtent := (Int32Of(w), Int32Of(h));
    }
  }
}
