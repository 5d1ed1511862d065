/**
 * FUnrealRiveGradData (Source/RiveCore/Private/Core/UnrealRiveGradient.h):
 * a copy of a gradient's colours or stops that lives in a four-element
 * inline buffer when it fits and in a heap array otherwise.
 */
module GradData {
  /** The size of the inline buffer (TStaticArray<T, 4>). */
  const InlineCapacity: nat := 4

  class FUnrealRiveGradData<T(0)> {
    /** Where the data lives: the inline buffer, a heap array, or null. */
    var RawData: array?<T>
    const UnrealData: array<T>

    ghost predicate Valid()
      reads this
    {
      UnrealData.Length == InlineCapacity
    }

    predicate IsInline()
      reads this
    {
      RawData == UnrealData
    }

    /** The default constructor: no data. */
    constructor Empty()
      ensures Valid() && RawData == null && fresh(UnrealData)
    {
      RawData := null;
      UnrealData := new T[InlineCapacity];
    }

    /** Copies the first `size` elements of `data`, inline when they fit, into a new heap array otherwise. */
    constructor (data: seq<T>, size: nat)
      requires size <= |data|
      ensures Valid() && fresh(UnrealData)
      ensures RawData != null && (IsInline() <==> size <= InlineCapacity)
      ensures !IsInline() ==> fresh(RawData) && RawData.Length == size
      ensures size <= RawData.Length && RawData[..size] == data[..size]
    {
      var inlineBuffer := new T[InlineCapacity];
      UnrealData := inlineBuffer;
      var target: array<T>;
      if size <= InlineCapacity {
        target := inlineBuffer;
      } else {
        target := new T[size];
      }
      var k := 0;
      while k < size
        invariant 0 <= k <= size
        invariant target[..k] == data[..k]
        modifies target
      {
        target[k] := data[k];
        k := k + 1;
      }
      RawData := target;
    }

    /**
     * The move constructor: inline data is copied into this object's own
     * buffer; heap data changes owner, and the source falls back to its
     * inline buffer so that it will not free the array.
     */
    constructor Move(other: FUnrealRiveGradData<T>)
      requires other.Valid()
      modifies other`RawData
      ensures Valid() && fresh(UnrealData)
      ensures old(other.IsInline()) ==>
        IsInline() && UnrealData[..] == old(other.UnrealData[..]) && other.RawData == old(other.RawData)
      ensures !old(other.IsInline()) ==>
        RawData == old(other.RawData) && other.IsInline()
    {
      var inlineBuffer := new T[InlineCapacity];
      UnrealData := inlineBuffer;
      if other.RawData == other.UnrealData {
        var k := 0;
        while k < InlineCapacity
          invariant 0 <= k <= InlineCapacity
          invariant inlineBuffer[..k] == other.UnrealData[..k]
          modifies inlineBuffer
        {
          inlineBuffer[k] := other.UnrealData[k];
          k := k + 1;
        }
        assert inlineBuffer[..] == inlineBuffer[..InlineCapacity];
        RawData := inlineBuffer;
      } else {
        RawData := other.RawData;
        other.RawData := other.UnrealData;
      }
    }

    /** The destructor: the array delete[] receives, which is never the inline buffer (null when nothing is freed). */
    function Freed(): (r: array?<T>)
      reads this
      ensures r != UnrealData
      ensures r == null <==> IsInline() || RawData == null
      ensures r != null ==> r == RawData
    {
      if RawData != UnrealData then RawData else null
    }

    /** operator[] */
    function At(index: nat): T
      reads this, RawData
      requires RawData != null && index < RawData.Length
    {
      RawData[index]
    }
  }

  /**
   * After a move out of heap storage, only the new owner frees the array:
   * the source now points at its inline buffer.
   */
  method MoveTransfersOwnership<T(0)>(data: seq<T>, size: nat) returns (source: FUnrealRiveGradData<T>, target: FUnrealRiveGradData<T>)
    requires InlineCapacity < size <= |data|
    ensures source.Freed() == null
    ensures target.Freed() != null && target.RawData != null && size <= target.RawData.Length
    ensures target.RawData[..size] == data[..size]
  {
    source := new FUnrealRiveGradData(data, size);
    target := new FUnrealRiveGradData.Move(source);
  }
}
