/**
 * The enum property wrapper (Source/Rive/Private/Rive/ViewModel/RiveViewModelInstanceEnum.cpp):
 * reads of the current value and the option list, and a setter that
 * validates the new value against the option list first.
 */
module InstanceEnum {
  import opened AsciiText

  /** The runtime enum property the wrapper points at (rive::ViewModelInstanceEnumRuntime). */
  class EnumRuntime {
    var Value: string
    var Values: seq<string>

    constructor (value: string, values: seq<string>)
      ensures Value == value && Values == values
    {
      Value := value;
      Values := values;
    }

    /** The current value is one of the options. */
    predicate HoldsOption()
      reads this
    {
      Value in Values
    }
  }

  /** As written: TArray<FString>::Contains, which compares ignoring case. */
  predicate AcceptsAsWritten(values: seq<string>, value: string)
  {
    ContainsIgnoreCase(values, value)
  }

  /** Corrected: the value must be one of the options exactly. */
  predicate AcceptsExact(values: seq<string>, value: string)
  {
    value in values
  }

  class URiveViewModelInstanceEnum {
    var NativePtr: EnumRuntime?

    constructor (native: EnumRuntime?)
      ensures NativePtr == native
    {
      NativePtr := native;
    }

    /** The runtime's value, or "" without a runtime. */
    function GetValue(): (r: string)
      reads this, NativePtr
      ensures NativePtr == null ==> r == ""
      ensures NativePtr != null ==> r == NativePtr.Value
    {
      if NativePtr == null then "" else NativePtr.Value
    }

    /** The runtime's options in its order; empty without a runtime. */
    method GetValues() returns (values: seq<string>)
      ensures NativePtr == null ==> values == []
      ensures NativePtr != null ==> values == NativePtr.Values
    {
      values := [];
      if NativePtr == null {
        return;
      }
      var options := NativePtr.Values;
      var k := 0;
      while k < |options|
        invariant 0 <= k <= |options|
        invariant values == options[..k]
      {
        values := values + [options[k]];
        k := k + 1;
      }
    }

    /**
     * SetValue as written: a value GetValues contains (ignoring case) is
     * passed to the runtime in the caller's casing; anything else, or a
     * missing runtime, changes nothing.
     */
    method SetValue(value: string)
      modifies NativePtr
      ensures NativePtr != null ==> NativePtr.Values == old(NativePtr.Values)
      ensures NativePtr != null && AcceptsAsWritten(old(NativePtr.Values), value) ==> NativePtr.Value == value
      ensures NativePtr != null && !AcceptsAsWritten(old(NativePtr.Values), value) ==> NativePtr.Value == old(NativePtr.Value)
    {
      if NativePtr == null {
        return;
      }
      var values := GetValues();
      if !ContainsIgnoreCase(values, value) {
        return;
      }
      NativePtr.Value := value;
    }

    /** SetValue with the exact membership test: the runtime only ever receives one of its options. */
    method SetValueExact(value: string)
      modifies NativePtr
      ensures NativePtr != null ==> NativePtr.Values == old(NativePtr.Values)
      ensures NativePtr != null && AcceptsExact(old(NativePtr.Values), value) ==> NativePtr.Value == value
      ensures NativePtr != null && !AcceptsExact(old(NativePtr.Values), value) ==> NativePtr.Value == old(NativePtr.Value)
      ensures NativePtr != null && old(NativePtr.HoldsOption()) ==> NativePtr.HoldsOption()
    {
      if NativePtr == null {
        return;
      }
      var values := GetValues();
      if value !in values {
        return;
      }
      NativePtr.Value := value;
    }
  }

  /** Every exact member is also accepted as written: the corrected test only rejects more. */
  lemma ExactIsStricter(values: seq<string>, value: string)
    ensures AcceptsExact(values, value) ==> AcceptsAsWritten(values, value)
  {
    if value in values {
      var i :| 0 <= i < |values| && values[i] == value;
      assert EqualsIgnoreCase(values[i], value);
    }
  }

  /** The corrected test accepts exactly the options, so a set value is always one of them. */
  lemma ExactAcceptsOnlyOptions(values: seq<string>, value: string)
    ensures AcceptsExact(values, value) <==> exists i :: 0 <= i < |values| && values[i] == value
  {
    if value in values {
      var i :| 0 <= i < |values| && values[i] == value;
    }
  }

  /**
   * As written, "LEFT" passes the check against the options ["left"] and is
   * handed to the runtime although it is not one of its options.
   */
  lemma AsWrittenAcceptsOtherCasing()
    ensures AcceptsAsWritten(["left"], "LEFT") && !AcceptsExact(["left"], "LEFT")
  {
    var lowered := Lower("LEFT");
    forall i | 0 <= i < 4 ensures lowered[i] == "left"[i] {
      assert lowered[i] == LowerChar("LEFT"[i]);
    }
    assert Lower(["left"][0]) == Lower("LEFT");
    assert "LEFT" != "left" by { assert "LEFT"[0] != "left"[0]; }
  }
}
