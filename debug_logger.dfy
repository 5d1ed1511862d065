/**
 * FDebugLogger (Source/RiveRenderer/Private/Logs/RiveRendererLog.h): the
 * indentation of the renderer's verbose log, one "." and two spaces per
 * level, and the name of the thread a message comes from.
 */
module DebugLogger {
  const SpacesPerIndent: nat := 2
  /** What Indent appends: a dot and SpacesPerIndent spaces. */
  const IndentUnit: string := ".  "

  /** The indentation string for `level` levels. */
  function IndentFor(level: nat): string
  {
    if level == 0 then [] else IndentFor(level - 1) + IndentUnit
  }

  /** The indentation string is three characters per level. */
  lemma {:induction false} IndentLength(level: nat)
    ensures |IndentFor(level)| == 3 * level
  {
    if level > 0 {
      IndentLength(level - 1);
    }
  }

  class FDebugLogger {
    var IndentLevel: int
    var IndentStr: string

    ghost predicate Valid()
      reads this
    {
      IndentLevel >= 0 && IndentStr == IndentFor(IndentLevel)
    }

    constructor ()
      ensures Valid() && IndentLevel == 0 && IndentStr == []
    {
      IndentLevel := 0;
      IndentStr := [];
    }

    method Indent()
      requires Valid()
      modifies this
      ensures Valid()
      ensures IndentLevel == old(IndentLevel) + 1 && IndentStr == old(IndentStr) + ".  "
      ensures |IndentStr| == 3 * IndentLevel
    {
      IndentLevel := IndentLevel + 1;
      IndentStr := IndentStr + "." + "          "[..SpacesPerIndent];
      IndentLength(IndentLevel);
    }

    /** UnIndent: FString::RemoveAt needs the three characters to exist, so the level must be positive. */
    method UnIndent()
      requires Valid() && IndentLevel > 0
      modifies this
      ensures Valid()
      ensures IndentLevel == old(IndentLevel) - 1 && IndentStr == old(IndentStr)[..|old(IndentStr)| - 3]
      ensures |IndentStr| == 3 * IndentLevel
    {
      IndentLength(IndentLevel);
      IndentLevel := IndentLevel - 1;
      IndentStr := IndentStr[..|IndentStr| - SpacesPerIndent - 1];
      assert IndentFor(IndentLevel + 1) == IndentFor(IndentLevel) + IndentUnit;
      IndentLength(IndentLevel);
    }

    /** FScopeLogIndent: indenting for a scope and leaving it restores the level and the string. */
    method ScopeLogIndent()
      requires Valid()
      modifies this
      ensures Valid()
      ensures IndentLevel == old(IndentLevel) && IndentStr == old(IndentStr)
    {
      Indent();
      UnIndent();
    }
  }

  /** CurrentThread: the game thread is checked first, then the RHI thread, then the render thread. */
  function CurrentThread(inGameThread: bool, inRHIThread: bool, inRenderingThread: bool): (r: string)
    ensures r == "GameThread" <==> inGameThread
    ensures r == "RHIThread" <==> !inGameThread && inRHIThread
    ensures r == "RenderThread" <==> !inGameThread && !inRHIThread && inRenderingThread
    ensures r == "UnknownThread" <==> !inGameThread && !inRHIThread && !inRenderingThread
  {
    if inGameThread then "GameThread"
    else if inRHIThread then "RHIThread"
    else if inRenderingThread then "RenderThread"
    else "UnknownThread"
  }
}
