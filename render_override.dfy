/**
 * FRiveRenderer::CreateRenderContext (Source/RiveRenderer/Private/Platform/RiveRenderer.cpp):
 * the riveRenderOverride= command-line value chooses which RHI capabilities the
 * render context may assume, and a Null RHI gets no render context at all.
 */
module RenderOverride {
  import opened Wrappers
  import opened AsciiText

  /** RenderContextRHIImpl::RHICapabilitiesOverrides, the two flags the override sets. */
  datatype CapabilitiesOverrides = CapabilitiesOverrides(supportsPixelShaderUavs: bool, supportsRasterOrderViews: bool)

  /**
   * The overrides for a command-line value compared ignoring ASCII case:
   * "atomics" asks for pixel-shader UAVs, "raster" for raster order views,
   * "msaa" for neither; a missing or unknown value keeps the defaults.
   */
  function OverridesFor(commandLineValue: Option<string>, defaults: CapabilitiesOverrides): (r: CapabilitiesOverrides)
    ensures commandLineValue.Some? && EqualsIgnoreCase(commandLineValue.value, "atomics") ==> r == CapabilitiesOverrides(true, false)
    ensures commandLineValue.Some? && EqualsIgnoreCase(commandLineValue.value, "raster") ==> r == CapabilitiesOverrides(false, true)
    ensures commandLineValue.Some? && EqualsIgnoreCase(commandLineValue.value, "msaa") ==> r == CapabilitiesOverrides(false, false)
    ensures (commandLineValue.None? ||
             !(EqualsIgnoreCase(commandLineValue.value, "atomics") || EqualsIgnoreCase(commandLineValue.value, "raster") ||
               EqualsIgnoreCase(commandLineValue.value, "msaa"))) ==> r == defaults
  {
    match commandLineValue
    case None => defaults
    case Some(value) =>
      var lower := Lower(value);
      if lower == "atomics" then CapabilitiesOverrides(true, false)
      else if lower == "raster" then CapabilitiesOverrides(false, true)
      else if lower == "msaa" then CapabilitiesOverrides(false, false)
      else defaults
  }

  /** Lower-casing a value first does not change the overrides it selects. */
  lemma {:induction false} OverridesIgnoreCase(value: string, defaults: CapabilitiesOverrides)
    ensures OverridesFor(Some(Lower(value)), defaults) == OverridesFor(Some(value), defaults)
  {
    forall i | 0 <= i < |value| ensures Lower(Lower(value))[i] == Lower(value)[i] {
      assert Lower(value)[i] == LowerChar(value[i]);
    }
    assert Lower(Lower(value)) == Lower(value);
  }

  /** Only the three keywords move away from the defaults, and they select three different capability sets. */
  lemma OverridesKeywordsDistinct(defaults: CapabilitiesOverrides)
    ensures OverridesFor(Some("atomics"), defaults) != OverridesFor(Some("raster"), defaults)
    ensures OverridesFor(Some("raster"), defaults) != OverridesFor(Some("msaa"), defaults)
    ensures OverridesFor(Some("atomics"), defaults) != OverridesFor(Some("msaa"), defaults)
    ensures OverridesFor(Some("ATOMICS"), defaults) == CapabilitiesOverrides(true, false)
  {
  }

  datatype RhiInterfaceType = NullRhi | D3D11 | D3D12 | Vulkan | Metal | OpenGL

  class FRiveRenderer {
    /** The render context, recorded by the overrides it was made with; None while there is none. */
    var RenderContext: Option<CapabilitiesOverrides>

    constructor ()
      ensures RenderContext.None?
    {
      RenderContext := None;
    }

    /**
     * The Null RHI returns before a context is made; every other RHI gets a
     * context with the overrides the command line selects.
     */
    method CreateRenderContext(rhi: RhiInterfaceType, commandLineValue: Option<string>, defaults: CapabilitiesOverrides)
      modifies this`RenderContext
      ensures rhi == NullRhi ==> RenderContext == old(RenderContext)
      ensures rhi != NullRhi ==> RenderContext == Some(OverridesFor(commandLineValue, defaults))
    {
      if rhi == NullRhi {
        return;
      }
      var overrides := defaults;
      if commandLineValue.Some? {
        var lower := Lower(commandLineValue.value);
        if lower == "atomics" {
          overrides := CapabilitiesOverrides(true, false);
        } else if lower == "raster" {
          overrides := CapabilitiesOverrides(false, true);
        } else if lower == "msaa" {
          overrides := CapabilitiesOverrides(false, false);
        }
      }
      RenderContext := Some(overrides);
    }
  }
}
