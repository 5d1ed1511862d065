/**
 * URiveTexture's render-target resizing (Source/Rive/Private/Rive/RiveTexture.cpp):
 * a new size is taken only when it differs from the current one and lies
 * strictly between the minimum and maximum resolutions.
 */
module RiveTexture {
  /** What a resize call did. */
  datatype ResizeAction = Unchanged | Rejected | CreatedResource | ReinitialisedResource

  /** C++'s float-to-int conversion: truncation toward zero. */
  function TruncateTowardZero(x: real): (r: int)
    ensures x >= 0.0 ==> r == x.Floor
    ensures x < 0.0 ==> r == -((-x).Floor)
    ensures (r as real) <= x < (r as real) + 1.0 || (r as real) - 1.0 < x <= (r as real)
  {
    if x >= 0.0 then x.Floor else -((-x).Floor)
  }

  /** A size the guard rejects: a side at or below the minimum, or at or above the maximum. */
  predicate OutOfRange(x: int, y: int, minResolution: int, maxResolution: int)
  {
    x <= minResolution || y <= minResolution || x >= maxResolution || y >= maxResolution
  }

  class URiveTexture {
    /** RIVE_MIN_TEX_RESOLUTION and RIVE_MAX_TEX_RESOLUTION. */
    const MinResolution: int
    const MaxResolution: int
    var SizeX: int
    var SizeY: int
    /** The FIntPoint Size. */
    var Size: (int, int)
    var HasResource: bool

    ghost predicate Valid()
      reads this
    {
      Size == (SizeX, SizeY)
    }

    /** Every size starts at RIVE_STANDARD_TEX_RESOLUTION. */
    constructor (minResolution: int, maxResolution: int, standardResolution: int)
      ensures Valid() && MinResolution == minResolution && MaxResolution == maxResolution
      ensures SizeX == standardResolution && SizeY == standardResolution && !HasResource
    {
      MinResolution := minResolution;
      MaxResolution := maxResolution;
      SizeX, SizeY := standardResolution, standardResolution;
      Size := (standardResolution, standardResolution);
      HasResource := false;
    }

    /**
     * The outcome of a resize to (x, y): the same size does nothing; a size
     * out of range is rejected and nothing changes; otherwise both sizes are
     * set and the resource is created when there is none (which needs a
     * renderer) or reinitialised at the new size.
     */
    twostate predicate ResizedTo(x: int, y: int, rendererAvailable: bool, action: ResizeAction)
      reads this
    {
      && (x == old(SizeX) && y == old(SizeY) ==>
            action == Unchanged && SizeX == old(SizeX) && SizeY == old(SizeY) && HasResource == old(HasResource))
      && (!(x == old(SizeX) && y == old(SizeY)) && OutOfRange(x, y, MinResolution, MaxResolution) ==>
            action == Rejected && SizeX == old(SizeX) && SizeY == old(SizeY) && HasResource == old(HasResource))
      && (!(x == old(SizeX) && y == old(SizeY)) && !OutOfRange(x, y, MinResolution, MaxResolution) ==>
            SizeX == x && SizeY == y &&
            (if old(HasResource) then action == ReinitialisedResource && HasResource
             else action == CreatedResource && HasResource == rendererAvailable))
    }

    /** ResizeRenderTargets(FIntPoint): see ResizedTo. */
    method ResizeRenderTargets(x: int, y: int, rendererAvailable: bool) returns (action: ResizeAction)
      requires Valid()
      modifies this`SizeX, this`SizeY, this`Size, this`HasResource
      ensures Valid()
      ensures ResizedTo(x, y, rendererAvailable, action)
    {
      if x == SizeX && y == SizeY {
        return Unchanged;
      }
      if x <= MinResolution || y <= MinResolution || x >= MaxResolution || y >= MaxResolution {
        return Rejected;
      }
      Size := (x, y);
      SizeX := x;
      SizeY := y;
      if !HasResource {
        HasResource := rendererAvailable;
        action := CreatedResource;
      } else {
        action := ReinitialisedResource;
      }
    }

    /** ResizeRenderTargets(FVector2f): the components are truncated toward zero first. */
    method ResizeRenderTargetsFromVector(x: real, y: real, rendererAvailable: bool) returns (action: ResizeAction)
      requires Valid()
      modifies this`SizeX, this`SizeY, this`Size, this`HasResource
      ensures Valid()
      ensures ResizedTo(TruncateTowardZero(x), TruncateTowardZero(y), rendererAvailable, action)
    {
      action := ResizeRenderTargets(TruncateTowardZero(x), TruncateTowardZero(y), rendererAvailable);
    }
  }
}
