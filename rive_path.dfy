/**
 * FUnrealRivePath (Source/RiveCore/Private/Core/UnrealRivePath.cpp): a
 * rive::RawPath plus a fill rule, with dirty bits that say whether the cached
 * bounds and the cached unique id still describe the current path.
 */
module RivePath {
  import opened FixedWidth

  datatype Vec2D = Vec2D(x: real, y: real)

  datatype Verb = Move | Line | Cubic | Close

  datatype FillRule = NonZero | EvenOdd | Clockwise

  /**
   * The parts of rive::RawPath this model needs: the verbs, the points, whether
   * the current contour is open, and where the last contour started (the point
   * an implicit move goes back to).
   */
  datatype RawPath = RawPath(verbs: seq<Verb>, points: seq<Vec2D>, contourOpen: bool, lastMove: Vec2D)
  {
    /** An open contour always has a point to continue from. */
    predicate WellFormed()
    {
      contourOpen ==> |points| > 0
    }
  }

  const Origin := Vec2D(0.0, 0.0)
  const EmptyPath := RawPath([], [], false, Origin)

  function MoveTo(p: RawPath, point: Vec2D): (r: RawPath)
    ensures r.WellFormed() && |r.points| == |p.points| + 1 && r.points[|r.points| - 1] == point
  {
    RawPath(p.verbs + [Move], p.points + [point], true, point)
  }

  /** Starts a contour at the last move point when none is open. */
  function InjectImplicitMoveIfNeeded(p: RawPath): (r: RawPath)
    requires p.WellFormed()
    ensures r.WellFormed() && r.contourOpen
    ensures p.contourOpen ==> r == p
  {
    if p.contourOpen then p else MoveTo(p, p.lastMove)
  }

  function LineTo(p: RawPath, point: Vec2D): (r: RawPath)
    requires p.WellFormed()
    ensures r.WellFormed()
  {
    p.(verbs := p.verbs + [Line], points := p.points + [point], contourOpen := true)
  }

  function CubicTo(p: RawPath, origin: Vec2D, extent: Vec2D, point: Vec2D): (r: RawPath)
    requires p.WellFormed()
    ensures r.WellFormed()
  {
    p.(verbs := p.verbs + [Cubic], points := p.points + [origin, extent, point], contourOpen := true)
  }

  function ClosePath(p: RawPath): (r: RawPath)
    requires p.WellFormed()
    ensures r.WellFormed() && !r.contourOpen
  {
    if p.contourOpen then p.(verbs := p.verbs + [Close], contourOpen := false) else p
  }

  function LastPoint(p: RawPath): Vec2D
    requires |p.points| > 0
  {
    p.points[|p.points| - 1]
  }

  // EDirtyComponent
  const PathBounds: bv32 := 1
  const UniqueIdBit: bv32 := 4
  const AllBits: bv32 := 0xFFFF_FFFF

  /** IsPathDirty: every bit of `component` is set. */
  predicate IsDirty(flags: bv32, component: bv32)
  {
    flags & component == component
  }

  /** ClearPathDirt clears exactly the bits of `component`: those read clean, the others keep their state. */
  lemma ClearClearsOnlyItsBits(flags: bv32, component: bv32, other: bv32)
    ensures component != 0 ==> (flags & !component) & component != component
    ensures other & component == 0 ==> ((flags & !component) & other == other <==> flags & other == other)
  {
  }

  /** The process-wide UniqueIDCounter, a static std::atomic<uint64_t>. */
  class UniqueIdCounter {
    var Value: uint64

    constructor ()
      ensures Value == 0
    {
      Value := 0;
    }
  }

  class FUnrealRivePath {
    var FillMode: FillRule
    var Path: RawPath
    /** The path whose bounds Bounds holds (rive::AABB is the RawPath's bounds()). */
    var BoundsOf: RawPath
    var UniqueID: uint64
    /** The path UniqueID was taken for. */
    ghost var UniqueIdOf: RawPath
    var DirtyFlag: bv32

    /** The cached bounds and id describe the current path whenever their bit is clean. */
    ghost predicate Valid()
      reads this
    {
      Path.WellFormed() &&
      (!IsDirty(DirtyFlag, PathBounds) ==> BoundsOf == Path) &&
      (!IsDirty(DirtyFlag, UniqueIdBit) ==> UniqueIdOf == Path)
    }

    /** The constructor takes over `rawPath` (pruning empty segments is rive::RawPath's). */
    constructor (fillMode: FillRule, rawPath: RawPath)
      requires rawPath.WellFormed()
      ensures Valid()
      ensures FillMode == fillMode && Path == rawPath && DirtyFlag == AllBits
    {
      FillMode := fillMode;
      Path := rawPath;
      BoundsOf := EmptyPath;
      UniqueID := 0;
      UniqueIdOf := EmptyPath;
      DirtyFlag := AllBits;
    }

    /** MarkPathDirty: assigns the flags, replacing the previous value. */
    method MarkPathDirty(component: bv32)
      modifies this`DirtyFlag
      ensures DirtyFlag == component
    {
      DirtyFlag := component;
    }

    /** ClearPathDirt: clears the bits of `component`. */
    method ClearPathDirt(component: bv32)
      modifies this`DirtyFlag
      ensures DirtyFlag == old(DirtyFlag) & !component
    {
      DirtyFlag := DirtyFlag & !component;
    }

    function IsPathDirty(component: bv32): (r: bool)
      reads this`DirtyFlag
      ensures r <==> DirtyFlag & component == component
    {
      IsDirty(DirtyFlag, component)
    }

    method Rewind()
      requires Valid()
      modifies this`Path, this`DirtyFlag
      ensures Valid() && Path == EmptyPath && DirtyFlag == AllBits
    {
      Path := EmptyPath;
      MarkPathDirty(AllBits);
    }

    /** fillRule changes the fill mode only: the path is not marked dirty. */
    method SetFillRule(fillMode: FillRule)
      modifies this`FillMode
      ensures FillMode == fillMode
    {
      FillMode := fillMode;
    }

    method MoveToPoint(point: Vec2D)
      requires Valid()
      modifies this`Path, this`DirtyFlag
      ensures Valid() && Path == MoveTo(old(Path), point) && DirtyFlag == AllBits
    {
      Path := MoveTo(Path, point);
      MarkPathDirty(AllBits);
    }

    /** lineTo: a contour is started if needed, and the line is added only when it leads somewhere new. */
    method LineToPoint(point: Vec2D)
      requires Valid()
      modifies this`Path, this`DirtyFlag
      ensures Valid() && DirtyFlag == AllBits
      ensures var started := InjectImplicitMoveIfNeeded(old(Path));
        Path == if LastPoint(started) != point then LineTo(started, point) else started
    {
      Path := InjectImplicitMoveIfNeeded(Path);
      if LastPoint(Path) != point {
        Path := LineTo(Path, point);
      }
      MarkPathDirty(AllBits);
    }

    /** cubicTo: skipped only when the last point and all three new points coincide. */
    method CubicToPoint(origin: Vec2D, extent: Vec2D, point: Vec2D)
      requires Valid()
      modifies this`Path, this`DirtyFlag
      ensures Valid() && DirtyFlag == AllBits
      ensures var started := InjectImplicitMoveIfNeeded(old(Path));
        Path == if LastPoint(started) == origin == extent == point then started else CubicTo(started, origin, extent, point)
    {
      Path := InjectImplicitMoveIfNeeded(Path);
      if LastPoint(Path) != origin || origin != extent || extent != point {
        Path := CubicTo(Path, origin, extent, point);
      }
      MarkPathDirty(AllBits);
    }

    method Close()
      requires Valid()
      modifies this`Path, this`DirtyFlag
      ensures Valid() && Path == ClosePath(old(Path)) && DirtyFlag == AllBits
    {
      Path := ClosePath(Path);
      MarkPathDirty(AllBits);
    }

    /**
     * addRenderPath: `combined` is the path rive::RawPath::addPath (with its
     * transform and pruning) produces; the path is then marked dirty.
     */
    method AddRenderPath(combined: RawPath)
      requires Valid() && combined.WellFormed()
      modifies this`Path, this`DirtyFlag
      ensures Valid() && Path == combined && DirtyFlag == AllBits
    {
      Path := combined;
      MarkPathDirty(AllBits);
    }

    /** GetBounds: recomputed only when the bounds bit is dirty; the result is always the current path's. */
    method GetBounds() returns (bounds: RawPath)
      requires Valid()
      modifies this`BoundsOf, this`DirtyFlag
      ensures Valid()
      ensures bounds == Path
      ensures !IsDirty(DirtyFlag, PathBounds)
      ensures DirtyFlag == if IsDirty(old(DirtyFlag), PathBounds) then old(DirtyFlag) & !PathBounds else old(DirtyFlag)
    {
      if IsPathDirty(PathBounds) {
        BoundsOf := Path;
        ClearPathDirt(PathBounds);
      }
      bounds := BoundsOf;
    }

    /**
     * GetUniqueID: when the id bit is dirty a fresh counter value is taken
     * and the bit is cleared; otherwise the cached id is returned and nothing
     * changes.
     */
    method GetUniqueID(counter: UniqueIdCounter) returns (id: uint64)
      requires Valid()
      modifies this`UniqueID, this`UniqueIdOf, this`DirtyFlag, counter
      ensures Valid()
      ensures !IsDirty(DirtyFlag, UniqueIdBit)
      ensures IsDirty(old(DirtyFlag), UniqueIdBit) ==>
        id == Inc(old(counter.Value)) && counter.Value == id && DirtyFlag == old(DirtyFlag) & !UniqueIdBit
      ensures !IsDirty(old(DirtyFlag), UniqueIdBit) ==>
        id == old(UniqueID) && counter.Value == old(counter.Value) && DirtyFlag == old(DirtyFlag)
      ensures id == UniqueID && UniqueIdOf == Path
    {
      if IsPathDirty(UniqueIdBit) {
        counter.Value := Inc(counter.Value);
        UniqueID := counter.Value;
        UniqueIdOf := Path;
        ClearPathDirt(UniqueIdBit);
      }
      id := UniqueID;
    }
  }

  /** Clearing one cache's bit leaves the other cache's bit as it was. */
  lemma CacheBitsIndependent(flags: bv32)
    ensures IsDirty(flags & !PathBounds, UniqueIdBit) <==> IsDirty(flags, UniqueIdBit)
    ensures IsDirty(flags & !UniqueIdBit, PathBounds) <==> IsDirty(flags, PathBounds)
  {
  }
}
