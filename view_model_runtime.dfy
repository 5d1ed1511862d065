/**
 * The runtime view-model wrapper (Source/Rive/Private/Rive/ViewModel/RiveViewModel.cpp):
 * read accessors over a rive::ViewModelRuntime pointer that may be null, a
 * case-insensitive property type lookup, and instance creation with an index
 * bounds check.
 */
module ViewModelRuntime {
  import opened Wrappers
  import opened AsciiText
  import opened DataTypes
  import opened FixedWidth

  /** One entry of rive::ViewModelRuntime::properties(). */
  datatype RuntimeProperty = RuntimeProperty(name: string, dataType: DataType)

  /** What the runtime view model reports about itself. */
  datatype RuntimeViewModel = RuntimeViewModel(name: string, instanceNames: seq<string>, properties: seq<RuntimeProperty>)

  /** Which runtime creation a wrapper instance comes from. */
  datatype InstanceSource = DefaultInstance | BlankInstance | InstanceAtIndex(index: nat) | InstanceNamed(name: string)

  /** The first property whose name equals `name` ignoring case. */
  function FindProperty(properties: seq<RuntimeProperty>, name: string): (r: Option<nat>)
    ensures r.Some? ==> r.value < |properties| && EqualsIgnoreCase(properties[r.value].name, name)
    ensures r.Some? ==> forall j :: 0 <= j < r.value ==> !EqualsIgnoreCase(properties[j].name, name)
    ensures r.None? <==> forall j :: 0 <= j < |properties| ==> !EqualsIgnoreCase(properties[j].name, name)
    decreases |properties|
  {
    if properties == [] then Option.None
    else if EqualsIgnoreCase(properties[0].name, name) then Some(0)
    else
      var rest := FindProperty(properties[1..], name);
      if rest.None? then Option.None else Some(rest.value + 1)
  }

  class URiveViewModel {
    var ViewModelRuntimePtr: Option<RuntimeViewModel>

    constructor ()
      ensures ViewModelRuntimePtr.None?
    {
      ViewModelRuntimePtr := Option.None;
    }

    method Initialize(runtime: Option<RuntimeViewModel>)
      modifies this
      ensures ViewModelRuntimePtr == runtime
    {
      ViewModelRuntimePtr := runtime;
    }

    /** The runtime's name, or "" without a runtime. */
    function GetName(): (r: string)
      reads this
      ensures ViewModelRuntimePtr.None? ==> r == ""
      ensures ViewModelRuntimePtr.Some? ==> r == ViewModelRuntimePtr.value.name
    {
      if ViewModelRuntimePtr.None? then "" else ViewModelRuntimePtr.value.name
    }

    /** The instance count cast to int32, or 0 without a runtime. */
    function GetInstanceCount(): (r: int)
      reads this
      ensures ViewModelRuntimePtr.None? ==> r == 0
      ensures ViewModelRuntimePtr.Some? && |ViewModelRuntimePtr.value.instanceNames| < TwoTo31 ==>
        r == |ViewModelRuntimePtr.value.instanceNames|
    {
      if ViewModelRuntimePtr.None? then 0 else Int32Of(|ViewModelRuntimePtr.value.instanceNames|)
    }

    /** The runtime's instance names in the runtime's order; empty without a runtime. */
    method GetInstanceNames() returns (names: seq<string>)
      ensures ViewModelRuntimePtr.None? ==> names == []
      ensures ViewModelRuntimePtr.Some? ==> names == ViewModelRuntimePtr.value.instanceNames
    {
      names := [];
      if ViewModelRuntimePtr.None? {
        return;
      }
      var source := ViewModelRuntimePtr.value.instanceNames;
      var k := 0;
      while k < |source|
        invariant 0 <= k <= |source|
        invariant names == source[..k]
      {
        names := names + [source[k]];
        k := k + 1;
      }
    }

    /** The runtime's property names in the runtime's order; empty without a runtime. */
    method GetPropertyNames() returns (names: seq<string>)
      ensures ViewModelRuntimePtr.None? ==> names == []
      ensures ViewModelRuntimePtr.Some? ==> |names| == |ViewModelRuntimePtr.value.properties|
      ensures ViewModelRuntimePtr.Some? ==>
        forall i :: 0 <= i < |names| ==> names[i] == ViewModelRuntimePtr.value.properties[i].name
    {
      names := [];
      if ViewModelRuntimePtr.None? {
        return;
      }
      var properties := ViewModelRuntimePtr.value.properties;
      var k := 0;
      while k < |properties|
        invariant 0 <= k <= |properties|
        invariant |names| == k
        invariant forall i :: 0 <= i < k ==> names[i] == properties[i].name
      {
        names := names + [properties[k].name];
        k := k + 1;
      }
    }

    /** The type of the first property named `name` (ignoring case); none when there is none or no runtime. */
    method GetPropertyTypeByName(name: string) returns (t: DataType)
      ensures ViewModelRuntimePtr.None? ==> t == none
      ensures ViewModelRuntimePtr.Some? ==>
        var found := FindProperty(ViewModelRuntimePtr.value.properties, name);
        t == if found.None? then none else ViewModelRuntimePtr.value.properties[found.value].dataType
    {
      if ViewModelRuntimePtr.None? {
        return none;
      }
      var properties := ViewModelRuntimePtr.value.properties;
      var k := 0;
      while k < |properties|
        invariant 0 <= k <= |properties|
        invariant forall j :: 0 <= j < k ==> !EqualsIgnoreCase(properties[j].name, name)
      {
        if EqualsIgnoreCase(properties[k].name, name) {
          return properties[k].dataType;
        }
        k := k + 1;
      }
      return none;
    }

    /**
     * The shared tail of the Create* methods: without a runtime, or when the
     * runtime returns no instance (`runtimeCreated` false), the result is
     * null; otherwise a wrapper around the runtime's instance.
     */
    function CreateWrapper(source: InstanceSource, runtimeCreated: bool): (r: Option<InstanceSource>)
      reads this
      ensures r.Some? <==> ViewModelRuntimePtr.Some? && runtimeCreated
      ensures r.Some? ==> r.value == source
    {
      if ViewModelRuntimePtr.Some? && runtimeCreated then Some(source) else Option.None
    }

    /**
     * CreateInstanceFromIndex: null without a runtime or when `index` is
     * negative or not below the instance count cast to int32 (a count of
     * 2^31 or more wraps, as the static_cast does).
     */
    function CreateInstanceFromIndex(index: int, runtimeCreated: bool): (r: Option<InstanceSource>)
      reads this
      requires -TwoTo31 <= index < TwoTo31
      ensures ViewModelRuntimePtr.Some? ==>
        (r.Some? <==> 0 <= index < Int32Of(|ViewModelRuntimePtr.value.instanceNames|) && runtimeCreated)
      ensures ViewModelRuntimePtr.Some? && |ViewModelRuntimePtr.value.instanceNames| < TwoTo31 ==>
        (r.Some? <==> 0 <= index < |ViewModelRuntimePtr.value.instanceNames| && runtimeCreated)
      ensures r.Some? ==> 0 <= index && r.value == InstanceAtIndex(index)
      ensures ViewModelRuntimePtr.None? ==> r.None?
    {
      if ViewModelRuntimePtr.None? then Option.None
      else if index < 0 || index >= Int32Of(|ViewModelRuntimePtr.value.instanceNames|) then Option.None
      else CreateWrapper(InstanceAtIndex(index), runtimeCreated)
    }
  }

  /** A null runtime pointer makes every accessor return its default. */
  lemma NullRuntimeDefaults(vm: URiveViewModel, name: string, index: int, runtimeCreated: bool)
    requires vm.ViewModelRuntimePtr.None?
    requires -TwoTo31 <= index < TwoTo31
    ensures vm.GetName() == "" && vm.GetInstanceCount() == 0
    ensures vm.CreateInstanceFromIndex(index, runtimeCreated).None?
    ensures vm.CreateWrapper(DefaultInstance, runtimeCreated).None? && vm.CreateWrapper(BlankInstance, runtimeCreated).None?
    ensures vm.CreateWrapper(InstanceNamed(name), runtimeCreated).None?
  {
  }
}
