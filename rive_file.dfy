/**
 * URiveFile's metadata bookkeeping (Source/Rive/Private/Rive/RiveFile.cpp and
 * Source/Rive/Public/Rive/RiveFile.h): loading the file through the command
 * builder, filling the artboard, enum and view-model definitions as the
 * runtime lists them, the four "data received" flags and the data-ready
 * broadcast, the definition lookups, and the numbering of the generated
 * view-model instance enums. The model follows an editor build
 * (WITH_EDITOR and WITH_EDITORONLY_DATA) unless a parameter says otherwise.
 */
module RiveFileMeta {
  import opened Wrappers
  import opened AsciiText
  import opened DataTypes
  import FixedWidth
  import CommandBuilder
  import RiveUtils

  /** GViewModelInstanceBlankName and GViewModelInstanceDefaultName. */
  const BlankInstanceName: string := "--Blank--"
  const DefaultInstanceName: string := "--Default--"

  /** One property as the runtime lists it: name, runtime data type, metadata. */
  datatype ListedProperty = ListedProperty(name: string, dataType: DataType, metaData: string)

  /** One enumerator of a generated UEnum: its qualified name and its value. */
  datatype EnumEntry = EnumEntry(name: string, value: int)

  // ---------------------------------------------------------------------
  // Lookups (RiveFile.h)

  /** GetViewModelDefinition: the position of the first definition whose name equals `name` (ignoring case), if any. */
  function FindViewModelDefinition(defs: seq<ViewModelDefinition>, name: string): (r: Option<nat>)
    ensures r.Some? ==> r.value < |defs| && EqualsIgnoreCase(defs[r.value].Name, name)
    ensures r.Some? ==> forall j :: 0 <= j < r.value ==> !EqualsIgnoreCase(defs[j].Name, name)
    ensures r.None? ==> forall j :: 0 <= j < |defs| ==> !EqualsIgnoreCase(defs[j].Name, name)
  {
    if defs == [] then Option.None
    else if EqualsIgnoreCase(defs[0].Name, name) then Some(0)
    else
      var rest := FindViewModelDefinition(defs[1..], name);
      if rest.None? then Option.None else Some(rest.value + 1)
  }

  /** The position of the first artboard definition whose name equals `name` (ignoring case), if any. */
  function FindArtboardByName(defs: seq<ArtboardDefinition>, name: string): (r: Option<nat>)
    ensures r.Some? ==> r.value < |defs| && EqualsIgnoreCase(defs[r.value].Name, name)
    ensures r.Some? ==> forall j :: 0 <= j < r.value ==> !EqualsIgnoreCase(defs[j].Name, name)
    ensures r.None? ==> forall j :: 0 <= j < |defs| ==> !EqualsIgnoreCase(defs[j].Name, name)
  {
    if defs == [] then Option.None
    else if EqualsIgnoreCase(defs[0].Name, name) then Some(0)
    else
      var rest := FindArtboardByName(defs[1..], name);
      if rest.None? then Option.None else Some(rest.value + 1)
  }

  /** GetArtboardDefinition: an empty name picks the first artboard; otherwise the first artboard of that name. */
  function GetArtboardDefinition(defs: seq<ArtboardDefinition>, name: string): (r: Option<nat>)
    ensures name == [] && |defs| > 0 ==> r == Some(0)
    ensures !(name == [] && |defs| > 0) ==> r == FindArtboardByName(defs, name)
  {
    if name == [] && |defs| > 0 then Some(0) else FindArtboardByName(defs, name)
  }

  // ---------------------------------------------------------------------
  // Generated view-model instance enums

  /** The enumerators of a view model's instance enum: Blank is 0, Default is 1, the i-th instance is i + 2. */
  method InstanceEnumEntries(enumName: string, instanceNames: seq<string>) returns (entries: seq<EnumEntry>)
    ensures |entries| == |instanceNames| + 2
    ensures entries[0] == EnumEntry(enumName + "::" + BlankInstanceName, 0)
    ensures entries[1] == EnumEntry(enumName + "::" + DefaultInstanceName, 1)
    ensures forall i :: 0 <= i < |instanceNames| ==> entries[i + 2] == EnumEntry(enumName + "::" + instanceNames[i], i + 2)
    ensures forall i :: 0 <= i < |entries| ==> entries[i].value == i
  {
    entries := [EnumEntry(enumName + "::" + BlankInstanceName, 0), EnumEntry(enumName + "::" + DefaultInstanceName, 1)];
    var i := 0;
    while i < |instanceNames|
      invariant 0 <= i <= |instanceNames|
      invariant |entries| == i + 2
      invariant entries[0] == EnumEntry(enumName + "::" + BlankInstanceName, 0)
      invariant entries[1] == EnumEntry(enumName + "::" + DefaultInstanceName, 1)
      invariant forall j :: 0 <= j < i ==> entries[j + 2] == EnumEntry(enumName + "::" + instanceNames[j], j + 2)
      invariant forall j :: 0 <= j < |entries| ==> entries[j].value == j
    {
      entries := entries + [EnumEntry(enumName + "::" + instanceNames[i], i + 2)];
      i := i + 1;
    }
  }

  /** The name of a view model's instance enum: both names sanitised, joined under a fixed prefix. */
  method InstanceEnumName(viewModelName: string, fileName: string) returns (enumName: string)
    ensures enumName == "EViewModelInstanceEnum_" + RiveUtils.Sanitized(viewModelName, RiveUtils.InvalidObjectNameCharacters)
                        + "_" + RiveUtils.Sanitized(fileName, RiveUtils.InvalidObjectNameCharacters)
  {
    var sanitizedViewModelName := RiveUtils.SanitizeObjectName(viewModelName, RiveUtils.InvalidObjectNameCharacters);
    var sanitizedFileName := RiveUtils.SanitizeObjectName(fileName, RiveUtils.InvalidObjectNameCharacters);
    enumName := "EViewModelInstanceEnum_" + sanitizedViewModelName + "_" + sanitizedFileName;
  }

  /** Whether a message sent to the command queue is the call `operation` about `subject` and `name`, whatever its request id. */
  predicate IsCall(m: CommandBuilder.QueueMessage, operation: string, subject: nat, name: string)
  {
    m.Call? && m.operation == operation && m.subject == subject && m.name == name
  }

  /**
   * The creation calls that gather defaults for the named instances of a view
   * model, in order; each carries the view model's and the instance's name and
   * takes no request id.
   */
  function CreateInstanceCalls(fileHandle: nat, viewModelName: string, instanceNames: seq<string>): seq<CommandBuilder.QueueMessage>
    decreases |instanceNames|
  {
    if instanceNames == [] then []
    else
      var n := |instanceNames| - 1;
      CreateInstanceCalls(fileHandle, viewModelName, instanceNames[..n])
        + [CommandBuilder.Call("instantiateViewModelInstanceNamed", fileHandle, viewModelName + "/" + instanceNames[n], Option.None)]
  }

  /**
   * The gathering callbacks queued for the named instances, in order: an
   * instance may report the end of gathering only in the last view model and
   * only when its name equals the last instance name `finalName`, compared as
   * FString compares, ignoring case.
   */
  function GatherCallbacks(viewModelName: string, instanceNames: seq<string>, finalName: string, isLast: bool): seq<CommandBuilder.Callback>
    decreases |instanceNames|
  {
    if instanceNames == [] then []
    else
      var n := |instanceNames| - 1;
      GatherCallbacks(viewModelName, instanceNames[..n], finalName, isLast)
        + [CommandBuilder.GatherInstanceDefaults(viewModelName, instanceNames[n], isLast && EqualsIgnoreCase(instanceNames[n], finalName))]
  }

  /** Creation call j is the one for instance name j. */
  lemma {:induction false} CreateInstanceCallsPointwise(fileHandle: nat, viewModelName: string, instanceNames: seq<string>)
    ensures |CreateInstanceCalls(fileHandle, viewModelName, instanceNames)| == |instanceNames|
    ensures forall j :: 0 <= j < |instanceNames| ==>
      CreateInstanceCalls(fileHandle, viewModelName, instanceNames)[j] ==
        CommandBuilder.Call("instantiateViewModelInstanceNamed", fileHandle, viewModelName + "/" + instanceNames[j], Option.None)
    decreases |instanceNames|
  {
    if instanceNames != [] {
      CreateInstanceCallsPointwise(fileHandle, viewModelName, instanceNames[..|instanceNames| - 1]);
    }
  }

  /** Gathering callback j is the one for instance name j, reporting the end of gathering exactly when it may. */
  lemma {:induction false} GatherCallbacksPointwise(viewModelName: string, instanceNames: seq<string>, finalName: string, isLast: bool)
    ensures |GatherCallbacks(viewModelName, instanceNames, finalName, isLast)| == |instanceNames|
    ensures forall j :: 0 <= j < |instanceNames| ==>
      GatherCallbacks(viewModelName, instanceNames, finalName, isLast)[j] ==
        CommandBuilder.GatherInstanceDefaults(viewModelName, instanceNames[j], isLast && EqualsIgnoreCase(instanceNames[j], finalName))
    decreases |instanceNames|
  {
    if instanceNames != [] {
      GatherCallbacksPointwise(viewModelName, instanceNames[..|instanceNames| - 1], finalName, isLast);
    }
  }

  /**
   * Everything ViewModelPropertyDefinitionsListed queues to run once on the
   * server: reading the default instance's name, one gathering callback per
   * named instance, and, for the last view model with no instance names, one
   * that only reports the end of gathering.
   */
  function DefaultsCallbacks(viewModelName: string, instanceNames: seq<string>, isLast: bool): seq<CommandBuilder.Callback>
  {
    [CommandBuilder.ReadDefaultInstanceName(viewModelName)]
      + GatherCallbacks(viewModelName, instanceNames, if instanceNames == [] then "" else instanceNames[|instanceNames| - 1], isLast)
      + (if instanceNames == [] && isLast then [CommandBuilder.DefaultsGathered] else [])
  }

  /**
   * The default-gathering requests for one view model: create its default
   * instance and read its name, then for each named instance create it and
   * queue the callback that reads its default values; the last view model
   * with no instance names queues one more callback that only reports the end
   * of gathering. No request id is taken.
   */
  method QueueDefaultsGathering(builder: CommandBuilder.FRiveCommandBuilder, fileHandle: nat, viewModelName: string,
                                instanceNames: seq<string>, isLast: bool)
    requires builder.Valid()
    modifies builder`CurrentRequestId, builder`Issued, builder`Sent, builder`Commands
    ensures builder.Valid()
    ensures builder.CurrentRequestId == old(builder.CurrentRequestId) && builder.Issued == old(builder.Issued)
    ensures builder.Sent == old(builder.Sent) + [CommandBuilder.Call("instantiateDefaultViewModelInstance", fileHandle, viewModelName, Option.None)]
                            + CreateInstanceCalls(fileHandle, viewModelName, instanceNames)
    ensures builder.Commands == old(builder.Commands) + DefaultsCallbacks(viewModelName, instanceNames, isLast)
  {
    var _ := builder.Create("instantiateDefaultViewModelInstance", fileHandle, viewModelName, false);
    builder.RunOnce(CommandBuilder.ReadDefaultInstanceName(viewModelName));
    var sent := builder.Sent;
    var commands := builder.Commands;
    var finalName := if instanceNames == [] then "" else instanceNames[|instanceNames| - 1];
    ghost var calls: seq<CommandBuilder.QueueMessage> := [];
    ghost var gather: seq<CommandBuilder.Callback> := [];
    var i := 0;
    while i < |instanceNames|
      invariant 0 <= i <= |instanceNames|
      invariant builder.Valid()
      invariant builder.CurrentRequestId == old(builder.CurrentRequestId) && builder.Issued == old(builder.Issued)
      invariant calls == CreateInstanceCalls(fileHandle, viewModelName, instanceNames[..i])
      invariant gather == GatherCallbacks(viewModelName, instanceNames[..i], finalName, isLast)
      invariant builder.Sent == sent + calls
      invariant builder.Commands == commands + gather
    {
      var canBroadcast := isLast && EqualsIgnoreCase(instanceNames[i], finalName);
      var call := CommandBuilder.Call("instantiateViewModelInstanceNamed", fileHandle, viewModelName + "/" + instanceNames[i], Option.None);
      var callback := CommandBuilder.GatherInstanceDefaults(viewModelName, instanceNames[i], canBroadcast);
      QueueInstanceGathering(builder, fileHandle, viewModelName, instanceNames[i], canBroadcast);
      InstanceStep(fileHandle, viewModelName, instanceNames, finalName, isLast, i);
      calls := calls + [call];
      gather := gather + [callback];
      i := i + 1;
    }
    assert instanceNames[..i] == instanceNames;
    if instanceNames == [] && isLast {
      builder.RunOnce(CommandBuilder.DefaultsGathered);
    }
  }

  /** Taking one more instance name adds its creation call and its gathering callback at the end. */
  lemma InstanceStep(fileHandle: nat, viewModelName: string, instanceNames: seq<string>, finalName: string, isLast: bool, i: nat)
    requires i < |instanceNames|
    ensures CreateInstanceCalls(fileHandle, viewModelName, instanceNames[..i + 1]) ==
      CreateInstanceCalls(fileHandle, viewModelName, instanceNames[..i])
        + [CommandBuilder.Call("instantiateViewModelInstanceNamed", fileHandle, viewModelName + "/" + instanceNames[i], Option.None)]
    ensures GatherCallbacks(viewModelName, instanceNames[..i + 1], finalName, isLast) ==
      GatherCallbacks(viewModelName, instanceNames[..i], finalName, isLast)
        + [CommandBuilder.GatherInstanceDefaults(viewModelName, instanceNames[i], isLast && EqualsIgnoreCase(instanceNames[i], finalName))]
  {
    assert instanceNames[..i + 1][..i] == instanceNames[..i];
  }

  /** One named instance's share of QueueDefaultsGathering: its creation call and its gathering callback. */
  method QueueInstanceGathering(builder: CommandBuilder.FRiveCommandBuilder, fileHandle: nat, viewModelName: string,
                                instanceName: string, canBroadcast: bool)
    requires builder.Valid()
    modifies builder`CurrentRequestId, builder`Issued, builder`Sent, builder`Commands
    ensures builder.Valid()
    ensures builder.CurrentRequestId == old(builder.CurrentRequestId) && builder.Issued == old(builder.Issued)
    ensures builder.Sent == old(builder.Sent) + [CommandBuilder.Call("instantiateViewModelInstanceNamed", fileHandle, viewModelName + "/" + instanceName, Option.None)]
    ensures builder.Commands == old(builder.Commands) + [CommandBuilder.GatherInstanceDefaults(viewModelName, instanceName, canBroadcast)]
  {
    var _ := builder.Create("instantiateViewModelInstanceNamed", fileHandle, viewModelName + "/" + instanceName, false);
    builder.RunOnce(CommandBuilder.GatherInstanceDefaults(viewModelName, instanceName, canBroadcast));
  }

  /** Whether a queued callback, once back on the game thread, marks the instance defaults as gathered. */
  predicate SignalsDefaults(callback: CommandBuilder.Callback)
  {
    (callback.GatherInstanceDefaults? && callback.canBroadcast) || callback.DefaultsGathered?
  }

  /**
   * The instance-default data is reported complete by the callbacks of the last
   * view model only, and there always by the last callback queued; no other
   * view model's callbacks report it.
   */
  lemma DefaultsSignalledOnlyByLast(viewModelName: string, instanceNames: seq<string>, isLast: bool)
    ensures (exists j :: 0 <= j < |DefaultsCallbacks(viewModelName, instanceNames, isLast)| &&
               SignalsDefaults(DefaultsCallbacks(viewModelName, instanceNames, isLast)[j])) <==> isLast
    ensures isLast ==> SignalsDefaults(DefaultsCallbacks(viewModelName, instanceNames, isLast)[|DefaultsCallbacks(viewModelName, instanceNames, isLast)| - 1])
  {
    var r := DefaultsCallbacks(viewModelName, instanceNames, isLast);
    var finalName := if instanceNames == [] then "" else instanceNames[|instanceNames| - 1];
    var gather := GatherCallbacks(viewModelName, instanceNames, finalName, isLast);
    GatherCallbacksPointwise(viewModelName, instanceNames, finalName, isLast);
    assert r == [CommandBuilder.ReadDefaultInstanceName(viewModelName)] + gather
      + (if instanceNames == [] && isLast then [CommandBuilder.DefaultsGathered] else []);
    if isLast {
      assert SignalsDefaults(r[|r| - 1]);
    } else {
      forall j | 0 <= j < |r|
        ensures !SignalsDefaults(r[j])
      {
        if 1 <= j {
          assert r[j] == gather[j - 1];
        }
      }
    }
  }

  /**
   * As written, an instance whose name differs from the last one only in case
   * also reports the end of gathering: with instances "Hero" then "hero" in
   * the last view model, the callback for "Hero" reports it before "hero" has
   * been gathered, and the callback for "hero" reports it again.
   */
  lemma CaseVariantReportsEarly()
    ensures var r := DefaultsCallbacks("Stats", ["Hero", "hero"], true);
      |r| == 3 && SignalsDefaults(r[1]) && SignalsDefaults(r[2]) && r[1].instanceName == "Hero"
  {
    var names := ["Hero", "hero"];
    GatherCallbacksPointwise("Stats", names, "hero", true);
    assert Lower("Hero") == Lower("hero") by {
      assert Lower("Hero")[0] == 'h';
    }
  }

  /**
   * Corrected: the callbacks for the named instances, of which only the one
   * at position `finalIndex` (the last instance, by position rather than by
   * name) may report the end of gathering.
   */
  function GatherCallbacksCorrected(viewModelName: string, instanceNames: seq<string>, finalIndex: int, isLast: bool): seq<CommandBuilder.Callback>
    decreases |instanceNames|
  {
    if instanceNames == [] then []
    else
      var n := |instanceNames| - 1;
      GatherCallbacksCorrected(viewModelName, instanceNames[..n], finalIndex, isLast)
        + [CommandBuilder.GatherInstanceDefaults(viewModelName, instanceNames[n], isLast && n == finalIndex)]
  }

  /**
   * With the corrected callbacks, the last view model reports the end of
   * gathering exactly from the callback of its last instance, whatever the
   * names; any other view model never does.
   */
  lemma {:induction false} CorrectedReportsOnce(viewModelName: string, instanceNames: seq<string>, isLast: bool)
    ensures |GatherCallbacksCorrected(viewModelName, instanceNames, |instanceNames| - 1, isLast)| == |instanceNames|
    ensures forall j :: 0 <= j < |instanceNames| ==>
      GatherCallbacksCorrected(viewModelName, instanceNames, |instanceNames| - 1, isLast)[j].GatherInstanceDefaults? &&
      GatherCallbacksCorrected(viewModelName, instanceNames, |instanceNames| - 1, isLast)[j].instanceName == instanceNames[j] &&
      (SignalsDefaults(GatherCallbacksCorrected(viewModelName, instanceNames, |instanceNames| - 1, isLast)[j]) <==> isLast && j == |instanceNames| - 1)
  {
    CorrectedPointwise(viewModelName, instanceNames, |instanceNames| - 1, isLast);
  }

  /** Corrected callback j is the one for instance name j, flagged exactly when j is `finalIndex` in the last view model. */
  lemma {:induction false} CorrectedPointwise(viewModelName: string, instanceNames: seq<string>, finalIndex: int, isLast: bool)
    ensures |GatherCallbacksCorrected(viewModelName, instanceNames, finalIndex, isLast)| == |instanceNames|
    ensures forall j :: 0 <= j < |instanceNames| ==>
      GatherCallbacksCorrected(viewModelName, instanceNames, finalIndex, isLast)[j] ==
        CommandBuilder.GatherInstanceDefaults(viewModelName, instanceNames[j], isLast && j == finalIndex)
    decreases |instanceNames|
  {
    if instanceNames != [] {
      CorrectedPointwise(viewModelName, instanceNames[..|instanceNames| - 1], finalIndex, isLast);
    }
  }

  class URiveFile {
    /** The object name of the file asset. */
    var Name: string
    var RiveFileData: seq<bv8>
    var RiveNativeFileSpan: seq<bv8>
    var NeedsImport: bool
    var NativeFileHandle: nat
    var ArtboardDefinitions: seq<ArtboardDefinition>
    var EnumDefinitions: seq<EnumDefinition>
    var ViewModelDefinitions: seq<ViewModelDefinition>
    /** The generated instance enums, keyed by view-model name ignoring case (a TMap<FString, ...>). */
    var ViewModelInstanceEnums: map<string, seq<EnumEntry>>
    var HasArtboardData: bool
    var HasEnumsData: bool
    var HasViewModelData: bool
    var HasViewModelInstanceDefaultsData: bool
    /** How many times OnDataReady has been broadcast. */
    var DataReadyBroadcasts: nat

    constructor (name: string, data: seq<bv8>, needsImport: bool)
      ensures Name == name && RiveFileData == data && NeedsImport == needsImport
      ensures RiveNativeFileSpan == [] && NativeFileHandle == 0
      ensures ArtboardDefinitions == [] && EnumDefinitions == [] && ViewModelDefinitions == [] && ViewModelInstanceEnums == map[]
      ensures !HasArtboardData && !HasEnumsData && !HasViewModelData && !HasViewModelInstanceDefaultsData
      ensures DataReadyBroadcasts == 0
    {
      Name := name;
      RiveFileData := data;
      RiveNativeFileSpan := [];
      NeedsImport := needsImport;
      NativeFileHandle := 0;
      ArtboardDefinitions := [];
      EnumDefinitions := [];
      ViewModelDefinitions := [];
      ViewModelInstanceEnums := map[];
      HasArtboardData := false;
      HasEnumsData := false;
      HasViewModelData := false;
      HasViewModelInstanceDefaultsData := false;
      DataReadyBroadcasts := 0;
    }

    /** GetHasData: in an editor build the artboard, enum and view-model flags together; packaged builds always have data. */
    predicate GetHasData(withEditor: bool)
      reads this
    {
      !withEditor || (HasArtboardData && HasEnumsData && HasViewModelData)
    }

    /** All four flags CheckShouldBroadcastDataReady waits for. */
    predicate AllDataReceived()
      reads this
    {
      HasArtboardData && HasViewModelData && HasEnumsData && HasViewModelInstanceDefaultsData
    }

    /** When the data-ready broadcast can fire, GetHasData holds; the converse fails while instance defaults are pending. */
    lemma ReadyImpliesHasData()
      ensures AllDataReceived() ==> GetHasData(true)
      ensures HasArtboardData && HasEnumsData && HasViewModelData && !HasViewModelInstanceDefaultsData ==> GetHasData(true) && !AllDataReceived()
    {
    }

    /** CheckShouldBroadcastDataReady: broadcast exactly when all four flags are set. */
    method CheckShouldBroadcastDataReady()
      modifies this`DataReadyBroadcasts
      ensures DataReadyBroadcasts == old(DataReadyBroadcasts) + if AllDataReceived() then 1 else 0
    {
      if HasArtboardData && HasViewModelData && HasEnumsData && HasViewModelInstanceDefaultsData {
        DataReadyBroadcasts := DataReadyBroadcasts + 1;
      }
    }

    /** The state Initialize starts a re-import from: no definitions, no flags, import no longer due. */
    predicate ImportStarted()
      reads this
    {
      && ArtboardDefinitions == [] && EnumDefinitions == [] && ViewModelDefinitions == []
      && !HasArtboardData && !HasViewModelData && !HasViewModelInstanceDefaultsData && !HasEnumsData
      && !NeedsImport
    }

    /**
     * Initialize(builder): copy the file data into the native span when there
     * is none yet or a re-import is due (giving up when the data is empty);
     * on import, clear every definition and flag, load the file and request
     * the enum, artboard and view-model listings; otherwise mark every kind of
     * metadata as present and load the file. `fileHandle` is the handle the
     * command queue returns for the load.
     */
    method Initialize(builder: CommandBuilder.FRiveCommandBuilder, fileHandle: nat, withEditorOnlyData: bool)
      requires builder.Valid()
      modifies this`RiveNativeFileSpan, this`NeedsImport, this`NativeFileHandle, this`ArtboardDefinitions,
               this`EnumDefinitions, this`ViewModelDefinitions, this`HasArtboardData, this`HasEnumsData,
               this`HasViewModelData, this`HasViewModelInstanceDefaultsData,
               builder`CurrentRequestId, builder`Issued, builder`Sent
      ensures builder.Valid()
      ensures (old(RiveNativeFileSpan) == [] || old(NeedsImport)) && RiveFileData == [] ==> unchanged(this) && unchanged(builder)
      ensures !((old(RiveNativeFileSpan) == [] || old(NeedsImport)) && RiveFileData == []) ==>
        && RiveNativeFileSpan == (if old(RiveNativeFileSpan) == [] || old(NeedsImport) then RiveFileData else old(RiveNativeFileSpan))
        && Loaded(builder, fileHandle, withEditorOnlyData)
    {
      if RiveNativeFileSpan == [] || NeedsImport {
        if RiveFileData == [] {
          return;
        }
        RiveNativeFileSpan := RiveFileData;
      }
      LoadOrImport(builder, fileHandle, withEditorOnlyData);
    }

    /**
     * The state after the load step of Initialize: the file is loaded under
     * the queue's handle; an editor build with an import due has started the
     * import and sent the three listing requests after the load; otherwise
     * the definitions are kept, an editor build marks every kind of metadata
     * as present, and only the load is sent.
     */
    twostate predicate Loaded(builder: CommandBuilder.FRiveCommandBuilder, fileHandle: nat, withEditorOnlyData: bool)
      reads this, builder
    {
      && DataReadyBroadcasts == old(DataReadyBroadcasts)
      && NativeFileHandle == fileHandle
      && |builder.Sent| > |old(builder.Sent)|
      && builder.Sent[..|old(builder.Sent)|] == old(builder.Sent)
      && builder.Sent[|old(builder.Sent)|] == CommandBuilder.Call("loadFile", 0, "", Option.None)
      && builder.CurrentRequestId ==
           (if withEditorOnlyData && old(NeedsImport) then FixedWidth.IncTimes(old(builder.CurrentRequestId), 3)
            else old(builder.CurrentRequestId))
      && (withEditorOnlyData && old(NeedsImport) ==>
            && ImportStarted()
            && |builder.Sent| == |old(builder.Sent)| + 4
            && IsCall(builder.Sent[|old(builder.Sent)| + 1], "requestViewModelEnums", fileHandle, "")
            && IsCall(builder.Sent[|old(builder.Sent)| + 2], "requestArtboardNames", fileHandle, "")
            && IsCall(builder.Sent[|old(builder.Sent)| + 3], "requestViewModelNames", fileHandle, ""))
      && (!(withEditorOnlyData && old(NeedsImport)) ==>
            && ArtboardDefinitions == old(ArtboardDefinitions) && EnumDefinitions == old(EnumDefinitions)
            && ViewModelDefinitions == old(ViewModelDefinitions) && NeedsImport == old(NeedsImport)
            && (withEditorOnlyData ==> AllDataReceived())
            && (!withEditorOnlyData ==>
                  HasArtboardData == old(HasArtboardData) && HasEnumsData == old(HasEnumsData) &&
                  HasViewModelData == old(HasViewModelData) && HasViewModelInstanceDefaultsData == old(HasViewModelInstanceDefaultsData))
            && |builder.Sent| == |old(builder.Sent)| + 1)
    }

    /** The load step of Initialize, once the native span holds the data. */
    method LoadOrImport(builder: CommandBuilder.FRiveCommandBuilder, fileHandle: nat, withEditorOnlyData: bool)
      requires builder.Valid()
      modifies this`NeedsImport, this`NativeFileHandle, this`ArtboardDefinitions,
               this`EnumDefinitions, this`ViewModelDefinitions, this`HasArtboardData, this`HasEnumsData,
               this`HasViewModelData, this`HasViewModelInstanceDefaultsData,
               builder`CurrentRequestId, builder`Issued, builder`Sent
      ensures builder.Valid()
      ensures Loaded(builder, fileHandle, withEditorOnlyData)
    {
      if withEditorOnlyData {
        if NeedsImport {
          BeginImport(builder, fileHandle);
          return;
        }
        HasArtboardData := true;
        HasViewModelData := true;
        HasEnumsData := true;
        HasViewModelInstanceDefaultsData := true;
      }
      LoadNativeFile(builder, fileHandle);
    }

    /** The import branch of Initialize. */
    method BeginImport(builder: CommandBuilder.FRiveCommandBuilder, fileHandle: nat)
      requires builder.Valid()
      modifies this`NeedsImport, this`NativeFileHandle, this`ArtboardDefinitions,
               this`EnumDefinitions, this`ViewModelDefinitions, this`HasArtboardData, this`HasEnumsData,
               this`HasViewModelData, this`HasViewModelInstanceDefaultsData,
               builder`CurrentRequestId, builder`Issued, builder`Sent
      ensures builder.Valid()
      ensures ImportStarted() && NativeFileHandle == fileHandle
      ensures builder.CurrentRequestId == FixedWidth.IncTimes(old(builder.CurrentRequestId), 3)
      ensures |builder.Sent| == |old(builder.Sent)| + 4
      ensures builder.Sent[..|old(builder.Sent)|] == old(builder.Sent)
      ensures builder.Sent[|old(builder.Sent)|] == CommandBuilder.Call("loadFile", 0, "", Option.None)
      ensures IsCall(builder.Sent[|old(builder.Sent)| + 1], "requestViewModelEnums", fileHandle, "")
      ensures IsCall(builder.Sent[|old(builder.Sent)| + 2], "requestArtboardNames", fileHandle, "")
      ensures IsCall(builder.Sent[|old(builder.Sent)| + 3], "requestViewModelNames", fileHandle, "")
    {
      ClearDefinitions();
      LoadNativeFile(builder, fileHandle);
      RequestListings(builder, fileHandle);
    }

    /** The start of an import: every definition and flag is cleared, and the import is no longer due. */
    method ClearDefinitions()
      modifies this`NeedsImport, this`ArtboardDefinitions, this`EnumDefinitions, this`ViewModelDefinitions,
               this`HasArtboardData, this`HasEnumsData, this`HasViewModelData, this`HasViewModelInstanceDefaultsData
      ensures ImportStarted()
    {
      ArtboardDefinitions := [];
      EnumDefinitions := [];
      ViewModelDefinitions := [];
      HasArtboardData := false;
      HasViewModelData := false;
      HasViewModelInstanceDefaultsData := false;
      HasEnumsData := false;
      NeedsImport := false;
    }

    /** The listing requests of an import: enums, then artboard names, then view-model names, each numbered. */
    method RequestListings(builder: CommandBuilder.FRiveCommandBuilder, fileHandle: nat)
      requires builder.Valid()
      modifies builder`CurrentRequestId, builder`Issued, builder`Sent
      ensures builder.Valid()
      ensures builder.CurrentRequestId == FixedWidth.IncTimes(old(builder.CurrentRequestId), 3)
      ensures |builder.Sent| == |old(builder.Sent)| + 3 && builder.Sent[..|old(builder.Sent)|] == old(builder.Sent)
      ensures IsCall(builder.Sent[|old(builder.Sent)|], "requestViewModelEnums", fileHandle, "")
      ensures IsCall(builder.Sent[|old(builder.Sent)| + 1], "requestArtboardNames", fileHandle, "")
      ensures IsCall(builder.Sent[|old(builder.Sent)| + 2], "requestViewModelNames", fileHandle, "")
    {
      var _ := builder.Request("requestViewModelEnums", fileHandle, "");
      var _ := builder.Request("requestArtboardNames", fileHandle, "");
      var _ := builder.Request("requestViewModelNames", fileHandle, "");
    }

    /** LoadFile without a request id; the queue's handle is kept. */
    method LoadNativeFile(builder: CommandBuilder.FRiveCommandBuilder, fileHandle: nat)
      requires builder.Valid()
      modifies this`NativeFileHandle, builder`CurrentRequestId, builder`Issued, builder`Sent
      ensures builder.Valid()
      ensures NativeFileHandle == fileHandle
      ensures builder.Sent == old(builder.Sent) + [CommandBuilder.Call("loadFile", 0, "", Option.None)]
      ensures builder.CurrentRequestId == old(builder.CurrentRequestId)
    {
      var _ := builder.Create("loadFile", 0, "", false);
      NativeFileHandle := fileHandle;
    }

    /** EnumsListed: the enum definitions become the listed enums, names and values in listed order; then the readiness check. */
    method EnumsListed(enums: seq<(string, seq<string>)>)
      modifies this`EnumDefinitions, this`HasEnumsData, this`DataReadyBroadcasts
      ensures |EnumDefinitions| == |enums|
      ensures forall i :: 0 <= i < |enums| ==> EnumDefinitions[i] == EnumDefinition(enums[i].0, enums[i].1)
      ensures HasEnumsData
      ensures DataReadyBroadcasts == old(DataReadyBroadcasts) + if AllDataReceived() then 1 else 0
    {
      EnumDefinitions := [];
      var i := 0;
      while i < |enums|
        invariant 0 <= i <= |enums|
        invariant |EnumDefinitions| == i
        invariant forall j :: 0 <= j < i ==> EnumDefinitions[j] == EnumDefinition(enums[j].0, enums[j].1)
        invariant DataReadyBroadcasts == old(DataReadyBroadcasts)
      {
        var values: seq<string> := [];
        var k := 0;
        while k < |enums[i].1|
          invariant 0 <= k <= |enums[i].1|
          invariant values == enums[i].1[..k]
        {
          values := values + [enums[i].1[k]];
          k := k + 1;
        }
        assert enums[i].1[..k] == enums[i].1;
        EnumDefinitions := EnumDefinitions + [EnumDefinition(enums[i].0, values)];
        i := i + 1;
      }
      HasEnumsData := true;
      CheckShouldBroadcastDataReady();
    }

    /**
     * ArtboardsListed: one definition per listed name, in order, with its
     * details still empty; they arrive later through ArtboardDataReady.
     */
    method ArtboardsListed(names: seq<string>)
      modifies this`ArtboardDefinitions
      ensures |ArtboardDefinitions| == |names|
      ensures forall i :: 0 <= i < |names| ==> ArtboardDefinitions[i] == ArtboardDefinition(names[i], [], "", "")
    {
      ArtboardDefinitions := [];
      var i := 0;
      while i < |names|
        invariant 0 <= i <= |names|
        invariant |ArtboardDefinitions| == i
        invariant forall j :: 0 <= j < i ==> ArtboardDefinitions[j] == ArtboardDefinition(names[j], [], "", "")
      {
        ArtboardDefinitions := ArtboardDefinitions + [ArtboardDefinition(names[i], [], "", "")];
        i := i + 1;
      }
    }

    /**
     * The data-ready callback of the temporary artboard made for definition
     * `index` of `count`: its details are stored, and the artboard flag is set
     * (followed by the readiness check) only by the callback of the last index.
     */
    method ArtboardDataReady(index: nat, count: nat, stateMachineNames: seq<string>, defaultViewModel: string, defaultViewModelInstance: string)
      requires index < |ArtboardDefinitions|
      modifies this`ArtboardDefinitions, this`HasArtboardData, this`DataReadyBroadcasts
      ensures ArtboardDefinitions == old(ArtboardDefinitions)[index :=
        ArtboardDefinition(old(ArtboardDefinitions)[index].Name, stateMachineNames, defaultViewModel, defaultViewModelInstance)]
      ensures HasArtboardData == (old(HasArtboardData) || index == count - 1)
      ensures DataReadyBroadcasts == old(DataReadyBroadcasts) + if index == count - 1 && AllDataReceived() then 1 else 0
    {
      var definition := ArtboardDefinitions[index];
      ArtboardDefinitions := ArtboardDefinitions[index :=
        definition.(StateMachineNames := stateMachineNames, DefaultViewModel := defaultViewModel, DefaultViewModelInstance := defaultViewModelInstance)];
      if index == count - 1 {
        HasArtboardData := true;
        CheckShouldBroadcastDataReady();
      }
    }

    /**
     * ViewModelNamesListed: one empty definition per listed name, in order, and
     * for each name a request for its instance names and one for its
     * properties; an empty listing marks the view-model and instance-default
     * data as complete and runs the readiness check.
     */
    method ViewModelNamesListed(builder: CommandBuilder.FRiveCommandBuilder, names: seq<string>)
      requires builder.Valid()
      modifies this`ViewModelDefinitions, this`HasViewModelData, this`HasViewModelInstanceDefaultsData, this`DataReadyBroadcasts,
               builder`CurrentRequestId, builder`Issued, builder`Sent
      ensures builder.Valid()
      ensures |ViewModelDefinitions| == |names|
      ensures forall i :: 0 <= i < |names| ==> ViewModelDefinitions[i] == ViewModelDefinition(names[i], [], [])
      ensures builder.CurrentRequestId == FixedWidth.IncTimes(old(builder.CurrentRequestId), 2 * |names|)
      ensures |builder.Sent| == |old(builder.Sent)| + 2 * |names|
      ensures builder.Sent[..|old(builder.Sent)|] == old(builder.Sent)
      ensures forall i :: 0 <= i < |names| ==>
        IsCall(builder.Sent[|old(builder.Sent)| + 2 * i], "requestViewModelInstanceNames", NativeFileHandle, names[i]) &&
        IsCall(builder.Sent[|old(builder.Sent)| + 2 * i + 1], "requestViewModelProperties", NativeFileHandle, names[i])
      ensures names == [] ==>
        HasViewModelData && HasViewModelInstanceDefaultsData &&
        DataReadyBroadcasts == old(DataReadyBroadcasts) + if AllDataReceived() then 1 else 0
      ensures names != [] ==>
        HasViewModelData == old(HasViewModelData) &&
        HasViewModelInstanceDefaultsData == old(HasViewModelInstanceDefaultsData) && DataReadyBroadcasts == old(DataReadyBroadcasts)
    {
      var definitions := [];
      var i := 0;
      while i < |names|
        modifies builder`CurrentRequestId, builder`Issued, builder`Sent
        invariant 0 <= i <= |names|
        invariant builder.Valid()
        invariant builder.CurrentRequestId == FixedWidth.IncTimes(old(builder.CurrentRequestId), 2 * i)
        invariant |definitions| == i
        invariant forall j :: 0 <= j < i ==> definitions[j] == ViewModelDefinition(names[j], [], [])
        invariant |builder.Sent| == |old(builder.Sent)| + 2 * i
        invariant builder.Sent[..|old(builder.Sent)|] == old(builder.Sent)
        invariant forall j :: 0 <= j < i ==>
          IsCall(builder.Sent[|old(builder.Sent)| + 2 * j], "requestViewModelInstanceNames", NativeFileHandle, names[j]) &&
          IsCall(builder.Sent[|old(builder.Sent)| + 2 * j + 1], "requestViewModelProperties", NativeFileHandle, names[j])
      {
        definitions := definitions + [ViewModelDefinition(names[i], [], [])];
        RequestViewModelDetails(builder, names[i]);
        i := i + 1;
      }
      ViewModelDefinitions := definitions;
      if names == [] {
        HasViewModelData := true;
        HasViewModelInstanceDefaultsData := true;
        CheckShouldBroadcastDataReady();
      }
    }

    /** The two requests sent for each listed view model: its instance names, then its properties. */
    method RequestViewModelDetails(builder: CommandBuilder.FRiveCommandBuilder, name: string)
      requires builder.Valid()
      modifies builder`CurrentRequestId, builder`Issued, builder`Sent
      ensures builder.Valid()
      ensures builder.CurrentRequestId == FixedWidth.Inc(FixedWidth.Inc(old(builder.CurrentRequestId)))
      ensures |builder.Sent| == |old(builder.Sent)| + 2
      ensures builder.Sent[..|old(builder.Sent)|] == old(builder.Sent)
      ensures IsCall(builder.Sent[|old(builder.Sent)|], "requestViewModelInstanceNames", NativeFileHandle, name)
      ensures IsCall(builder.Sent[|old(builder.Sent)| + 1], "requestViewModelProperties", NativeFileHandle, name)
    {
      var _ := builder.Request("requestViewModelInstanceNames", NativeFileHandle, name);
      var _ := builder.Request("requestViewModelProperties", NativeFileHandle, name);
    }

    /**
     * ViewModelInstanceNamesListed: the listed instance names are appended to
     * the first definition of that name and its instance enum is regenerated;
     * an unknown view model changes nothing.
     */
    method ViewModelInstanceNamesListed(viewModelName: string, instanceNames: seq<string>)
      modifies this`ViewModelDefinitions, this`ViewModelInstanceEnums
      ensures FindViewModelDefinition(old(ViewModelDefinitions), viewModelName).None? ==>
        ViewModelDefinitions == old(ViewModelDefinitions) && ViewModelInstanceEnums == old(ViewModelInstanceEnums)
      ensures FindViewModelDefinition(old(ViewModelDefinitions), viewModelName).Some? ==>
        var k := FindViewModelDefinition(old(ViewModelDefinitions), viewModelName).value;
        var d := old(ViewModelDefinitions)[k];
        && ViewModelDefinitions == old(ViewModelDefinitions)[k := d.(InstanceNames := d.InstanceNames + instanceNames)]
        && Lower(d.Name) in ViewModelInstanceEnums
        && |ViewModelInstanceEnums[Lower(d.Name)]| == |d.InstanceNames| + |instanceNames| + 2
        && (forall i :: 0 <= i < |ViewModelInstanceEnums[Lower(d.Name)]| ==> ViewModelInstanceEnums[Lower(d.Name)][i].value == i)
    {
      var found := FindViewModelDefinition(ViewModelDefinitions, viewModelName);
      if found.None? {
        return;
      }
      var k := found.value;
      var definition := ViewModelDefinitions[k];
      var names := definition.InstanceNames;
      var i := 0;
      while i < |instanceNames|
        invariant 0 <= i <= |instanceNames|
        invariant names == definition.InstanceNames + instanceNames[..i]
      {
        names := names + [instanceNames[i]];
        i := i + 1;
      }
      assert instanceNames[..i] == instanceNames;
      definition := definition.(InstanceNames := names);
      ViewModelDefinitions := ViewModelDefinitions[k := definition];
      GenerateViewModelInstanceEnums(definition);
    }

    /** GenerateViewModelInstanceEnums: (re)builds the instance enum of a view model, keyed by its name ignoring case. */
    method GenerateViewModelInstanceEnums(selected: ViewModelDefinition)
      modifies this`ViewModelInstanceEnums
      ensures Lower(selected.Name) in ViewModelInstanceEnums
      ensures ViewModelInstanceEnums == old(ViewModelInstanceEnums)[Lower(selected.Name) := ViewModelInstanceEnums[Lower(selected.Name)]]
      ensures |ViewModelInstanceEnums[Lower(selected.Name)]| == |selected.InstanceNames| + 2
      ensures forall i :: 0 <= i < |ViewModelInstanceEnums[Lower(selected.Name)]| ==> ViewModelInstanceEnums[Lower(selected.Name)][i].value == i
      ensures var enumName := "EViewModelInstanceEnum_" + RiveUtils.Sanitized(selected.Name, RiveUtils.InvalidObjectNameCharacters)
                              + "_" + RiveUtils.Sanitized(Name, RiveUtils.InvalidObjectNameCharacters);
        && ViewModelInstanceEnums[Lower(selected.Name)][0].name == enumName + "::" + BlankInstanceName
        && ViewModelInstanceEnums[Lower(selected.Name)][1].name == enumName + "::" + DefaultInstanceName
        && forall i :: 0 <= i < |selected.InstanceNames| ==>
             ViewModelInstanceEnums[Lower(selected.Name)][i + 2].name == enumName + "::" + selected.InstanceNames[i]
    {
      var enumName := InstanceEnumName(selected.Name, Name);
      var entries := InstanceEnumEntries(enumName, selected.InstanceNames);
      ViewModelInstanceEnums := ViewModelInstanceEnums[Lower(selected.Name) := entries];
    }

    /**
     * ViewModelPropertyDefinitionsListed: the first definition of that name gets
     * one property per listed property, with the plugin's data type and, for
     * enum and view-model properties, the metadata (other slots keep the
     * metadata they had); the default values of its instances are then
     * requested (QueueDefaultsGathering, with the end of gathering left to the
     * last view model); when it is the last definition, the view-model flag is
     * set and the readiness check runs. An unknown name changes nothing.
     */
    method ViewModelPropertyDefinitionsListed(builder: CommandBuilder.FRiveCommandBuilder, viewModelName: string, properties: seq<ListedProperty>)
      requires builder.Valid()
      requires forall i :: 0 <= i < |properties| ==> !properties[i].dataType.integer? && !properties[i].dataType.symbolListIndex?
      modifies this`ViewModelDefinitions, this`HasViewModelData, this`DataReadyBroadcasts
      modifies builder`CurrentRequestId, builder`Issued, builder`Sent, builder`Commands
      ensures builder.Valid()
      ensures builder.CurrentRequestId == old(builder.CurrentRequestId) && builder.Issued == old(builder.Issued)
      ensures FindViewModelDefinition(old(ViewModelDefinitions), viewModelName).None? ==>
        ViewModelDefinitions == old(ViewModelDefinitions) && HasViewModelData == old(HasViewModelData) &&
        DataReadyBroadcasts == old(DataReadyBroadcasts) &&
        builder.Sent == old(builder.Sent) && builder.Commands == old(builder.Commands)
      ensures FindViewModelDefinition(old(ViewModelDefinitions), viewModelName).Some? ==>
        var k := FindViewModelDefinition(old(ViewModelDefinitions), viewModelName).value;
        var d := old(ViewModelDefinitions)[k];
        && builder.Sent == old(builder.Sent) + [CommandBuilder.Call("instantiateDefaultViewModelInstance", NativeFileHandle, d.Name, Option.None)]
                           + CreateInstanceCalls(NativeFileHandle, d.Name, d.InstanceNames)
        && builder.Commands == old(builder.Commands) + DefaultsCallbacks(d.Name, d.InstanceNames, k == |old(ViewModelDefinitions)| - 1)
      ensures FindViewModelDefinition(old(ViewModelDefinitions), viewModelName).Some? ==>
        var k := FindViewModelDefinition(old(ViewModelDefinitions), viewModelName).value;
        var d := old(ViewModelDefinitions)[k];
        && |ViewModelDefinitions| == |old(ViewModelDefinitions)|
        && (forall j :: 0 <= j < |ViewModelDefinitions| && j != k ==> ViewModelDefinitions[j] == old(ViewModelDefinitions)[j])
        && ViewModelDefinitions[k].Name == d.Name && ViewModelDefinitions[k].InstanceNames == d.InstanceNames
        && |ViewModelDefinitions[k].PropertyDefinitions| == |properties|
        && (forall i :: 0 <= i < |properties| ==>
              ViewModelDefinitions[k].PropertyDefinitions[i].Name == properties[i].name &&
              ViewModelDefinitions[k].PropertyDefinitions[i].Type == RiveDataTypeFromDataType(properties[i].dataType) &&
              ViewModelDefinitions[k].PropertyDefinitions[i].MetaData ==
                (if properties[i].dataType in {enumType, viewModel} then properties[i].metaData
                 else if i < |d.PropertyDefinitions| then d.PropertyDefinitions[i].MetaData else ""))
        && HasViewModelData == (old(HasViewModelData) || k == |old(ViewModelDefinitions)| - 1)
        && DataReadyBroadcasts == old(DataReadyBroadcasts) + if k == |old(ViewModelDefinitions)| - 1 && AllDataReceived() then 1 else 0
    {
      var found := FindViewModelDefinition(ViewModelDefinitions, viewModelName);
      if found.None? {
        return;
      }
      var k := found.value;
      var definition := ViewModelDefinitions[k];
      var previous := definition.PropertyDefinitions;
      var props: seq<RivePropertyData> := [];
      var i := 0;
      while i < |properties|
        invariant 0 <= i <= |properties|
        invariant |props| == i
        invariant forall j :: 0 <= j < i ==>
          props[j].Name == properties[j].name &&
          props[j].Type == RiveDataTypeFromDataType(properties[j].dataType) &&
          props[j].MetaData ==
            (if properties[j].dataType in {enumType, viewModel} then properties[j].metaData
             else if j < |previous| then previous[j].MetaData else "")
      {
        var slot := if i < |previous| then previous[i] else RivePropertyData("", "", RiveDataType.None);
        slot := slot.(Name := properties[i].name, Type := RiveDataTypeFromDataType(properties[i].dataType));
        if properties[i].dataType == enumType || properties[i].dataType == viewModel {
          slot := slot.(MetaData := properties[i].metaData);
        }
        props := props + [slot];
        i := i + 1;
      }
      ViewModelDefinitions := ViewModelDefinitions[k := definition.(PropertyDefinitions := props)];
      QueueDefaultsGathering(builder, NativeFileHandle, definition.Name, definition.InstanceNames, k == |ViewModelDefinitions| - 1);
      if k == |ViewModelDefinitions| - 1 {
        HasViewModelData := true;
        CheckShouldBroadcastDataReady();
      }
    }

    /**
     * A default-gathering callback back on the game thread: the one that
     * reports the end of gathering sets the instance-defaults flag and runs the
     * readiness check; the others leave both as they were.
     */
    method DefaultsCallbackReturned(callback: CommandBuilder.Callback)
      modifies this`HasViewModelInstanceDefaultsData, this`DataReadyBroadcasts
      ensures HasViewModelInstanceDefaultsData == (old(HasViewModelInstanceDefaultsData) || SignalsDefaults(callback))
      ensures DataReadyBroadcasts == old(DataReadyBroadcasts) + if SignalsDefaults(callback) && AllDataReceived() then 1 else 0
    {
      if SignalsDefaults(callback) {
        HasViewModelInstanceDefaultsData := true;
        CheckShouldBroadcastDataReady();
      }
    }
  }

  /** The three listings a re-import waits for, as they come back from the command queue. */
  datatype ImportEvent = EnumsArrived | ArtboardsArrived | ViewModelsArrived

  /**
   * The artboard listing and then the data-ready callback of each temporary
   * artboard, in index order: each definition gets its details, and the
   * artboard flag is set (with the readiness check) by the last callback.
   */
  method DeliverArtboards(file: URiveFile, names: seq<string>, details: seq<(seq<string>, string, string)>)
    requires names != [] && |details| == |names|
    modifies file`ArtboardDefinitions, file`HasArtboardData, file`DataReadyBroadcasts
    ensures |file.ArtboardDefinitions| == |names|
    ensures forall i :: 0 <= i < |names| ==>
      file.ArtboardDefinitions[i] == ArtboardDefinition(names[i], details[i].0, details[i].1, details[i].2)
    ensures file.HasArtboardData
    ensures file.DataReadyBroadcasts == old(file.DataReadyBroadcasts) + if file.AllDataReceived() then 1 else 0
  {
    var broadcasts := file.DataReadyBroadcasts;
    var hadArtboards := file.HasArtboardData;
    file.ArtboardsListed(names);
    var k := 0;
    while k < |names|
      invariant 0 <= k <= |names|
      invariant |file.ArtboardDefinitions| == |names|
      invariant forall i :: 0 <= i < k ==>
        file.ArtboardDefinitions[i] == ArtboardDefinition(names[i], details[i].0, details[i].1, details[i].2)
      invariant forall i :: k <= i < |names| ==> file.ArtboardDefinitions[i] == ArtboardDefinition(names[i], [], "", "")
      invariant file.HasArtboardData == (hadArtboards || k == |names|)
      invariant file.DataReadyBroadcasts == broadcasts + if k == |names| && file.AllDataReceived() then 1 else 0
    {
      file.ArtboardDataReady(k, |names|, details[k].0, details[k].1, details[k].2);
      k := k + 1;
    }
  }

  /**
   * One listing of a re-import without view models coming back: the enum
   * listing, the artboard listing with its data-ready callbacks, or the empty
   * view-model listing. The flags of that listing are set, the others keep
   * their values, and the readiness check runs.
   */
  method ImportEventArrived(file: URiveFile, builder: CommandBuilder.FRiveCommandBuilder, event: ImportEvent,
                            enums: seq<(string, seq<string>)>, artboards: seq<string>, details: seq<(seq<string>, string, string)>)
    requires builder.Valid() && artboards != [] && |details| == |artboards|
    modifies file`EnumDefinitions, file`HasEnumsData, file`ArtboardDefinitions, file`HasArtboardData, file`ViewModelDefinitions
    modifies file`HasViewModelData, file`HasViewModelInstanceDefaultsData, file`DataReadyBroadcasts
    modifies builder`CurrentRequestId, builder`Issued, builder`Sent
    ensures builder.Valid()
    ensures builder.Sent == old(builder.Sent) && builder.CurrentRequestId == old(builder.CurrentRequestId)
    ensures file.HasEnumsData == (old(file.HasEnumsData) || event == EnumsArrived)
    ensures file.HasArtboardData == (old(file.HasArtboardData) || event == ArtboardsArrived)
    ensures file.HasViewModelData == (old(file.HasViewModelData) || event == ViewModelsArrived)
    ensures file.HasViewModelInstanceDefaultsData == (old(file.HasViewModelInstanceDefaultsData) || event == ViewModelsArrived)
    ensures file.DataReadyBroadcasts == old(file.DataReadyBroadcasts) + if file.AllDataReceived() then 1 else 0
    ensures event == EnumsArrived ==>
      |file.EnumDefinitions| == |enums| && forall j :: 0 <= j < |enums| ==> file.EnumDefinitions[j] == EnumDefinition(enums[j].0, enums[j].1)
    ensures event != EnumsArrived ==> file.EnumDefinitions == old(file.EnumDefinitions)
    ensures event == ArtboardsArrived ==>
      |file.ArtboardDefinitions| == |artboards| &&
      forall j :: 0 <= j < |artboards| ==>
        file.ArtboardDefinitions[j] == ArtboardDefinition(artboards[j], details[j].0, details[j].1, details[j].2)
    ensures event != ArtboardsArrived ==> file.ArtboardDefinitions == old(file.ArtboardDefinitions)
    ensures event == ViewModelsArrived ==> file.ViewModelDefinitions == []
    ensures event != ViewModelsArrived ==> file.ViewModelDefinitions == old(file.ViewModelDefinitions)
  {
    match event {
      case EnumsArrived =>
        file.EnumsListed(enums);
      case ArtboardsArrived =>
        DeliverArtboards(file, artboards, details);
      case ViewModelsArrived =>
        file.ViewModelNamesListed(builder, []);
    }
  }

  /**
   * A re-import of a file with no view models: the enum listing, the artboard
   * listing (at least one artboard, each with its data-ready callback) and the
   * empty view-model listing come back in any order, and data-ready is then
   * broadcast exactly once, after the last of them, with the definitions
   * holding what arrived.
   */
  method ImportWithoutViewModels(file: URiveFile, builder: CommandBuilder.FRiveCommandBuilder, fileHandle: nat,
                                 enums: seq<(string, seq<string>)>, artboards: seq<string>,
                                 details: seq<(seq<string>, string, string)>, order: seq<ImportEvent>)
    requires builder.Valid() && file.NeedsImport && file.RiveFileData != []
    requires artboards != [] && |details| == |artboards|
    requires |order| == 3 && EnumsArrived in order && ArtboardsArrived in order && ViewModelsArrived in order
    modifies file, builder`CurrentRequestId, builder`Issued, builder`Sent
    ensures file.DataReadyBroadcasts == old(file.DataReadyBroadcasts) + 1
    ensures file.AllDataReceived()
    ensures |file.EnumDefinitions| == |enums| && file.ViewModelDefinitions == []
    ensures forall i :: 0 <= i < |enums| ==> file.EnumDefinitions[i] == EnumDefinition(enums[i].0, enums[i].1)
    ensures |file.ArtboardDefinitions| == |artboards|
    ensures forall i :: 0 <= i < |artboards| ==>
      file.ArtboardDefinitions[i] == ArtboardDefinition(artboards[i], details[i].0, details[i].1, details[i].2)
  {
    var broadcasts := file.DataReadyBroadcasts;
    file.Initialize(builder, fileHandle, true);
    Distinct3(order);
    ImportEventArrived(file, builder, order[0], enums, artboards, details);
    assert file.DataReadyBroadcasts == broadcasts;
    ImportEventArrived(file, builder, order[1], enums, artboards, details);
    assert file.DataReadyBroadcasts == broadcasts;
    ImportEventArrived(file, builder, order[2], enums, artboards, details);
  }

  /** Three events of which each kind occurs are pairwise different. */
  lemma Distinct3(order: seq<ImportEvent>)
    requires |order| == 3 && EnumsArrived in order && ArtboardsArrived in order && ViewModelsArrived in order
    ensures order[0] != order[1] && order[0] != order[2] && order[1] != order[2]
  {
  }
}
