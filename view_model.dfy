/**
 * URiveViewModel's request bookkeeping (Source/Rive/Private/Rive/RiveViewModel.cpp):
 * creating the native instance, requesting every property's default value
 * and remembering which requests must be answered before the defaults-ready
 * broadcast, the static handle registry, and destruction.
 */
module ViewModelBookkeeping {
  import opened Wrappers
  import opened AsciiText
  import opened DataTypes
  import FixedWidth
  import CommandBuilder
  import RiveFileMeta

  type uint64 = FixedWidth.uint64

  /** Which instance Initialize asks the runtime to create. */
  datatype InstanceRequest = BlankInstance | DefaultInstance | NamedInstance(name: string)

  /** "--Blank--" asks for a blank instance, "--Default--" or an empty name for the default one, anything else for that named instance; the names compare ignoring case, blank first. */
  function InstanceRequestFor(instanceName: string): (r: InstanceRequest)
    ensures r.BlankInstance? <==> EqualsIgnoreCase(instanceName, RiveFileMeta.BlankInstanceName)
    ensures r.DefaultInstance? <==> !EqualsIgnoreCase(instanceName, RiveFileMeta.BlankInstanceName) &&
                                    (EqualsIgnoreCase(instanceName, RiveFileMeta.DefaultInstanceName) || instanceName == [])
    ensures r.NamedInstance? ==> r.name == instanceName
  {
    if EqualsIgnoreCase(instanceName, RiveFileMeta.BlankInstanceName) then BlankInstance
    else if EqualsIgnoreCase(instanceName, RiveFileMeta.DefaultInstanceName) || instanceName == [] then DefaultInstance
    else NamedInstance(instanceName)
  }

  /** The command-queue operation that creates the requested instance. */
  function CreateOperation(request: InstanceRequest): string
  {
    match request
    case BlankInstance => "instantiateBlankViewModelInstance"
    case DefaultInstance => "instantiateDefaultViewModelInstance"
    case NamedInstance(_) => "instantiateViewModelInstanceNamed"
  }

  /** The names the creation carries: the view model's, and the instance's for a named one. */
  function CreateName(viewModelName: string, request: InstanceRequest): string
  {
    if request.NamedInstance? then viewModelName + "/" + request.name else viewModelName
  }

  /** The creation call Initialize sends (no request id is taken). */
  function CreateCall(fileHandle: nat, viewModelName: string, request: InstanceRequest): CommandBuilder.QueueMessage
  {
    CommandBuilder.Call(CreateOperation(request), fileHandle, CreateName(viewModelName, request), Option.None)
  }

  /** As written: a property's value request id is awaited when its type is below Trigger and is not List. */
  predicate AwaitsDefault(t: RiveDataType)
  {
    Code(t) < Code(Trigger) && t != List
  }

  /** Corrected: only the value requests that are actually sent are awaited. */
  predicate AwaitsDefaultCorrected(t: RiveDataType)
  {
    AwaitsDefault(t) && CommandBuilder.IsRequestableValue(RiveDataTypeToDataType(t))
  }

  /** The request counter after Initialize's property loop has handled `props` (view-model properties are skipped; the others get a value request when their type allows it, then a subscription). */
  function CounterAfter(props: seq<RivePropertyData>, counter: uint64): uint64
    decreases |props|
  {
    if props == [] then counter
    else CounterStep(props[|props| - 1], CounterAfter(props[..|props| - 1], counter))
  }

  /** The request counter after the loop has handled the single property `p`, starting at `counter`. */
  function CounterStep(p: RivePropertyData, counter: uint64): uint64
  {
    if p.Type == ViewModel then counter
    else if CommandBuilder.IsRequestableValue(RiveDataTypeToDataType(p.Type)) then FixedWidth.Inc(FixedWidth.Inc(counter))
    else FixedWidth.Inc(counter)
  }

  /** What GetPropertyValue returns for property `p` when the counter stands at `counter`. */
  function ValueRequestId(p: RivePropertyData, counter: uint64): uint64
  {
    if CommandBuilder.IsRequestableValue(RiveDataTypeToDataType(p.Type)) then FixedWidth.Inc(counter) else CommandBuilder.NoRequestId
  }

  /**
   * The messages Initialize's property loop sends for one property when the
   * counter stands at `counter`: nothing for a view-model property; otherwise
   * its value request when its type is requestable, then its subscription,
   * each under the next request id.
   */
  function PropertyRequestCalls(instance: nat, p: RivePropertyData, counter: uint64): seq<CommandBuilder.QueueMessage>
  {
    if p.Type == ViewModel then []
    else if CommandBuilder.IsRequestableValue(RiveDataTypeToDataType(p.Type)) then
      [CommandBuilder.Call("requestViewModelInstanceValue", instance, p.Name, Some(FixedWidth.Inc(counter))),
       CommandBuilder.Call("subscribeToViewModelProperty", instance, p.Name, Some(FixedWidth.Inc(FixedWidth.Inc(counter))))]
    else [CommandBuilder.Call("subscribeToViewModelProperty", instance, p.Name, Some(FixedWidth.Inc(counter)))]
  }

  /** The messages Initialize's property loop sends for `props`, in order. */
  function DefaultRequestCalls(instance: nat, props: seq<RivePropertyData>, counter: uint64): seq<CommandBuilder.QueueMessage>
    decreases |props|
  {
    if props == [] then []
    else
      var prefix := props[..|props| - 1];
      DefaultRequestCalls(instance, prefix, counter) + PropertyRequestCalls(instance, props[|props| - 1], CounterAfter(prefix, counter))
  }

  /** Extending a prefix of `props` by one property extends each of the loop's summaries by that property's share. */
  lemma PrefixStep(instance: nat, props: seq<RivePropertyData>, k: nat, counter: uint64)
    requires k < |props|
    ensures DefaultRequestCalls(instance, props[..k + 1], counter)
      == DefaultRequestCalls(instance, props[..k], counter) + PropertyRequestCalls(instance, props[k], CounterAfter(props[..k], counter))
    ensures CounterAfter(props[..k + 1], counter) == CounterStep(props[k], CounterAfter(props[..k], counter))
    ensures AwaitedIds(props[..k + 1], counter, false) == AwaitedIds(props[..k], counter, false) + AwaitedStep(props[k], CounterAfter(props[..k], counter), false)
  {
    assert props[..k + 1][..k] == props[..k] && props[..k + 1][k] == props[k];
  }

  /** The ids Initialize adds to DefaultRequestIds for `props`, under the selection `corrected` or as written. */
  function AwaitedIds(props: seq<RivePropertyData>, counter: uint64, corrected: bool): set<uint64>
    decreases |props|
  {
    if props == [] then {}
    else
      var prefix := props[..|props| - 1];
      AwaitedIds(prefix, counter, corrected) + AwaitedStep(props[|props| - 1], CounterAfter(prefix, counter), corrected)
  }

  /** The id the loop adds for the single property `p` when the counter stands at `counter`, if the selection picks its type. */
  function AwaitedStep(p: RivePropertyData, counter: uint64, corrected: bool): set<uint64>
  {
    var selected := if corrected then AwaitsDefaultCorrected(p.Type) else AwaitsDefault(p.Type);
    if p.Type != ViewModel && selected then {ValueRequestId(p, counter)} else {}
  }

  /** One response (a value or an error) for request `id`: a pending id is removed, and the broadcast fires when that empties the set. */
  function Answer(pending: set<uint64>, id: uint64): (r: (set<uint64>, bool))
    ensures r.0 == pending - {id}
    ensures r.1 <==> id in pending && pending == {id}
  {
    if id in pending then
      var rest := pending - {id};
      (rest, rest == {})
    else (pending, false)
  }

  /** The pending set and the number of broadcasts after a sequence of responses. */
  function AnswerAll(pending: set<uint64>, responses: seq<uint64>): (set<uint64>, nat)
    decreases |responses|
  {
    if responses == [] then (pending, 0)
    else
      var (next, fired) := Answer(pending, responses[0]);
      var (final, count) := AnswerAll(next, responses[1..]);
      (final, count + if fired then 1 else 0)
  }

  /** Responses remove exactly the answered ids. */
  lemma {:induction false} AnswerAllRemovesAnswered(pending: set<uint64>, responses: seq<uint64>)
    ensures AnswerAll(pending, responses).0 == pending - set i | 0 <= i < |responses| :: responses[i]
    decreases |responses|
  {
    if responses != [] {
      AnswerAllRemovesAnswered(pending - {responses[0]}, responses[1..]);
      var all := set i | 0 <= i < |responses| :: responses[i];
      var tail := set i | 0 <= i < |responses[1..]| :: responses[1..][i];
      assert all == {responses[0]} + tail by {
        forall x | x in all ensures x in {responses[0]} + tail {
          var i :| 0 <= i < |responses| && responses[i] == x;
          if i > 0 { assert responses[1..][i - 1] == x; }
        }
      }
    }
  }

  /** An empty pending set never broadcasts again. */
  lemma {:induction false} NoBroadcastOnceEmpty(responses: seq<uint64>)
    ensures AnswerAll({}, responses) == ({}, 0)
    decreases |responses|
  {
    if responses != [] {
      NoBroadcastOnceEmpty(responses[1..]);
    }
  }

  /**
   * The defaults-ready broadcast fires exactly once when every pending id is
   * answered, and never while one of them stays unanswered.
   */
  lemma {:induction false} BroadcastExactlyWhenAllAnswered(pending: set<uint64>, responses: seq<uint64>)
    requires pending != {}
    ensures AnswerAll(pending, responses).1 == if pending <= set i | 0 <= i < |responses| :: responses[i] then 1 else 0
    decreases |responses|
  {
    var answered := set i | 0 <= i < |responses| :: responses[i];
    if responses == [] {
      var x :| x in pending;
    } else {
      var id := responses[0];
      var next := pending - {id};
      var tail := set i | 0 <= i < |responses[1..]| :: responses[1..][i];
      assert answered == {id} + tail by {
        forall x | x in answered ensures x in {id} + tail {
          var i :| 0 <= i < |responses| && responses[i] == x;
          if i > 0 { assert responses[1..][i - 1] == x; }
        }
      }
      if next == {} {
        NoBroadcastOnceEmpty(responses[1..]);
      } else {
        BroadcastExactlyWhenAllAnswered(next, responses[1..]);
        assert pending <= answered <==> next <= tail;
      }
    }
  }

  /** The handle-to-object map shared by all view models (a static TMap). */
  class ViewModelRegistry {
    var Instances: map<nat, URiveViewModel>

    constructor ()
      ensures Instances == map[]
    {
      Instances := map[];
    }
  }

  class URiveViewModel {
    var Definition: ViewModelDefinition
    var IsGenerated: bool
    /** rive::ViewModelInstanceHandle; 0 is RIVE_NULL_HANDLE. */
    var NativeViewModelInstance: nat
    var DefaultRequestIds: set<uint64>
    /** How many times OnViewModelDefaultsReady has been broadcast. */
    var DefaultsReadyBroadcasts: nat

    constructor (isGenerated: bool)
      ensures IsGenerated == isGenerated && NativeViewModelInstance == 0
      ensures DefaultRequestIds == {} && DefaultsReadyBroadcasts == 0
    {
      Definition := ViewModelDefinition("", [], []);
      IsGenerated := isGenerated;
      NativeViewModelInstance := 0;
      DefaultRequestIds := {};
      DefaultsReadyBroadcasts := 0;
    }

    /**
     * Initialize: create the native instance the name asks for; for a
     * generated view model request the value of, and subscribe to, every
     * property that is not itself a view model, remembering the value
     * requests AwaitsDefault selects; then register the handle, which must
     * not be registered yet. `instanceHandle` is the handle the command queue
     * returns for the new instance.
     */
    method Initialize(builder: CommandBuilder.FRiveCommandBuilder, registry: ViewModelRegistry, fileHandle: nat,
                      definition: ViewModelDefinition, instanceName: string, instanceHandle: nat)
      requires builder.Valid()
      requires definition.Name != []
      requires instanceHandle !in registry.Instances
      modifies this`Definition, this`NativeViewModelInstance, this`DefaultRequestIds, registry
      modifies builder`CurrentRequestId, builder`Issued, builder`Sent
      ensures builder.Valid()
      ensures Definition == definition && NativeViewModelInstance == instanceHandle
      ensures registry.Instances == old(registry.Instances)[instanceHandle := this]
      ensures IsGenerated ==>
        DefaultRequestIds == old(DefaultRequestIds) + AwaitedIds(definition.PropertyDefinitions, old(builder.CurrentRequestId), false) &&
        builder.CurrentRequestId == CounterAfter(definition.PropertyDefinitions, old(builder.CurrentRequestId))
      ensures !IsGenerated ==> DefaultRequestIds == old(DefaultRequestIds) && builder.CurrentRequestId == old(builder.CurrentRequestId)
      ensures IsGenerated ==>
        builder.Sent == old(builder.Sent) + [CreateCall(fileHandle, definition.Name, InstanceRequestFor(instanceName))]
                        + DefaultRequestCalls(instanceHandle, definition.PropertyDefinitions, old(builder.CurrentRequestId))
      ensures !IsGenerated ==>
        builder.Sent == old(builder.Sent) + [CreateCall(fileHandle, definition.Name, InstanceRequestFor(instanceName))]
    {
      CreateNativeInstance(builder, fileHandle, definition, instanceName, instanceHandle);
      if IsGenerated {
        RequestDefaults(builder, definition.PropertyDefinitions);
      }
      registry.Instances := registry.Instances[instanceHandle := this];
    }

    /** The first half of Initialize: the creation call the instance name asks for, sent without a request id. */
    method CreateNativeInstance(builder: CommandBuilder.FRiveCommandBuilder, fileHandle: nat,
                                definition: ViewModelDefinition, instanceName: string, instanceHandle: nat)
      requires builder.Valid()
      modifies this`Definition, this`NativeViewModelInstance, builder`CurrentRequestId, builder`Issued, builder`Sent
      ensures builder.Valid()
      ensures Definition == definition && NativeViewModelInstance == instanceHandle
      ensures builder.CurrentRequestId == old(builder.CurrentRequestId)
      ensures builder.Sent == old(builder.Sent) + [CreateCall(fileHandle, definition.Name, InstanceRequestFor(instanceName))]
    {
      Definition := definition;
      var request := InstanceRequestFor(instanceName);
      var _ := builder.Create(CreateOperation(request), fileHandle, CreateName(definition.Name, request), false);
      NativeViewModelInstance := instanceHandle;
    }

    /**
     * The property loop of Initialize: every property that is not a view
     * model gets a value request and a subscription, and the value request's
     * id is remembered when AwaitsDefault selects its type. That selection
     * also takes types no request is sent for, whose id is -1; see
     * NoneTypedPropertyBlocksDefaults and AsWrittenAddsOnlyNoRequestId.
     */
    method RequestDefaults(builder: CommandBuilder.FRiveCommandBuilder, props: seq<RivePropertyData>)
      requires builder.Valid()
      modifies this`DefaultRequestIds, builder`CurrentRequestId, builder`Issued, builder`Sent
      ensures builder.Valid()
      ensures DefaultRequestIds == old(DefaultRequestIds) + AwaitedIds(props, old(builder.CurrentRequestId), false)
      ensures builder.CurrentRequestId == CounterAfter(props, old(builder.CurrentRequestId))
      ensures builder.Sent == old(builder.Sent) + DefaultRequestCalls(NativeViewModelInstance, props, old(builder.CurrentRequestId))
    {
      ghost var start := builder.CurrentRequestId;
      ghost var sent := builder.Sent;
      ghost var ids := DefaultRequestIds;
      var k := 0;
      while k < |props|
        invariant 0 <= k <= |props|
        invariant builder.Valid()
        invariant builder.Sent == sent + DefaultRequestCalls(NativeViewModelInstance, props[..k], start)
        invariant DefaultRequestIds == ids + AwaitedIds(props[..k], start, false)
        invariant builder.CurrentRequestId == CounterAfter(props[..k], start)
      {
        RequestDefaultAt(builder, props, k, start, sent, ids);
        k := k + 1;
      }
      assert props[..k] == props;
    }

    /** RequestDefault on `props[k]`, stated as the step from the first `k` properties to the first `k + 1`. */
    method RequestDefaultAt(builder: CommandBuilder.FRiveCommandBuilder, props: seq<RivePropertyData>, k: nat,
                            ghost start: uint64, ghost sent: seq<CommandBuilder.QueueMessage>, ghost ids: set<uint64>)
      requires k < |props| && builder.Valid()
      requires builder.Sent == sent + DefaultRequestCalls(NativeViewModelInstance, props[..k], start)
      requires DefaultRequestIds == ids + AwaitedIds(props[..k], start, false)
      requires builder.CurrentRequestId == CounterAfter(props[..k], start)
      modifies this`DefaultRequestIds, builder`CurrentRequestId, builder`Issued, builder`Sent
      ensures builder.Valid()
      ensures builder.Sent == sent + DefaultRequestCalls(NativeViewModelInstance, props[..k + 1], start)
      ensures DefaultRequestIds == ids + AwaitedIds(props[..k + 1], start, false)
      ensures builder.CurrentRequestId == CounterAfter(props[..k + 1], start)
    {
      PrefixStep(NativeViewModelInstance, props, k, start);
      ghost var calls := DefaultRequestCalls(NativeViewModelInstance, props[..k], start);
      ghost var step := PropertyRequestCalls(NativeViewModelInstance, props[k], builder.CurrentRequestId);
      RequestDefault(builder, props[k]);
      assert sent + calls + step == sent + (calls + step);
    }

    /**
     * One property of RequestDefaults: a property that is not a view model
     * gets a value request, whose id (-1 when no request is sent) is awaited
     * when AwaitsDefault picks its type, and then a subscription.
     */
    method RequestDefault(builder: CommandBuilder.FRiveCommandBuilder, property: RivePropertyData)
      requires builder.Valid()
      modifies this`DefaultRequestIds, builder`CurrentRequestId, builder`Issued, builder`Sent
      ensures builder.Valid()
      ensures DefaultRequestIds == old(DefaultRequestIds) + AwaitedStep(property, old(builder.CurrentRequestId), false)
      ensures builder.CurrentRequestId == CounterStep(property, old(builder.CurrentRequestId))
      ensures builder.Sent == old(builder.Sent) + PropertyRequestCalls(NativeViewModelInstance, property, old(builder.CurrentRequestId))
    {
      if property.Type != ViewModel {
        var requestId := builder.GetPropertyValue(NativeViewModelInstance, property.Name, RiveDataTypeToDataType(property.Type));
        if AwaitsDefault(property.Type) {
          DefaultRequestIds := DefaultRequestIds + {requestId};
        }
        var _ := builder.Request("subscribeToViewModelProperty", NativeViewModelInstance, property.Name);
      }
    }

    /** BroadcastDefaultsAvailableChecked (also reached through OnViewModelErrorReceived): see Answer. */
    method BroadcastDefaultsAvailableChecked(requestId: uint64)
      modifies this`DefaultRequestIds, this`DefaultsReadyBroadcasts
      ensures DefaultRequestIds == Answer(old(DefaultRequestIds), requestId).0
      ensures DefaultsReadyBroadcasts == old(DefaultsReadyBroadcasts) + if Answer(old(DefaultRequestIds), requestId).1 then 1 else 0
    {
      if requestId in DefaultRequestIds {
        DefaultRequestIds := DefaultRequestIds - {requestId};
        if |DefaultRequestIds| == 0 {
          DefaultsReadyBroadcasts := DefaultsReadyBroadcasts + 1;
        }
      }
    }

    /**
     * BeginDestroy: for a live handle, one subscription request per property,
     * in definition order (as the source does), then the destroy request, and
     * the handle, which must be registered, leaves the registry.
     */
    method BeginDestroy(builder: CommandBuilder.FRiveCommandBuilder, registry: ViewModelRegistry)
      requires builder.Valid()
      requires NativeViewModelInstance != 0 ==> NativeViewModelInstance in registry.Instances
      modifies builder`CurrentRequestId, builder`Issued, builder`Sent, registry
      ensures builder.Valid()
      ensures NativeViewModelInstance == 0 ==>
        && registry.Instances == old(registry.Instances)
        && builder.Sent == old(builder.Sent)
        && builder.CurrentRequestId == old(builder.CurrentRequestId)
      ensures NativeViewModelInstance != 0 ==>
        && registry.Instances == old(registry.Instances) - {NativeViewModelInstance}
        && builder.CurrentRequestId == FixedWidth.IncTimes(old(builder.CurrentRequestId), |Definition.PropertyDefinitions| + 1)
        && |builder.Sent| == |old(builder.Sent)| + |Definition.PropertyDefinitions| + 1
        && builder.Sent[..|old(builder.Sent)|] == old(builder.Sent)
        && (forall k :: 0 <= k < |Definition.PropertyDefinitions| ==>
              RiveFileMeta.IsCall(builder.Sent[|old(builder.Sent)| + k], "subscribeToViewModelProperty",
                                  NativeViewModelInstance, Definition.PropertyDefinitions[k].Name))
        && RiveFileMeta.IsCall(builder.Sent[|builder.Sent| - 1], "deleteViewModelInstance", NativeViewModelInstance, "")
    {
      if NativeViewModelInstance != 0 {
        SubscribeAll(builder, NativeViewModelInstance, Definition.PropertyDefinitions);
        var _ := builder.Request("deleteViewModelInstance", NativeViewModelInstance, "");
        registry.Instances := registry.Instances - {NativeViewModelInstance};
      }
    }
  }

  /** One subscription request per property of `props`, in order, for the instance `instance`. */
  method SubscribeAll(builder: CommandBuilder.FRiveCommandBuilder, instance: nat, props: seq<RivePropertyData>)
    requires builder.Valid()
    modifies builder`CurrentRequestId, builder`Issued, builder`Sent
    ensures builder.Valid()
    ensures builder.CurrentRequestId == FixedWidth.IncTimes(old(builder.CurrentRequestId), |props|)
    ensures |builder.Sent| == |old(builder.Sent)| + |props|
    ensures builder.Sent[..|old(builder.Sent)|] == old(builder.Sent)
    ensures forall k :: 0 <= k < |props| ==>
      RiveFileMeta.IsCall(builder.Sent[|old(builder.Sent)| + k], "subscribeToViewModelProperty", instance, props[k].Name)
  {
    var k := 0;
    while k < |props|
      invariant 0 <= k <= |props|
      invariant builder.Valid()
      invariant builder.CurrentRequestId == FixedWidth.IncTimes(old(builder.CurrentRequestId), k)
      invariant |builder.Sent| == |old(builder.Sent)| + k
      invariant builder.Sent[..|old(builder.Sent)|] == old(builder.Sent)
      invariant forall j :: 0 <= j < k ==>
        RiveFileMeta.IsCall(builder.Sent[|old(builder.Sent)| + j], "subscribeToViewModelProperty", instance, props[j].Name)
    {
      var _ := builder.Request("subscribeToViewModelProperty", instance, props[k].Name);
      k := k + 1;
    }
  }

  // ---------------------------------------------------------------------
  // The pending-defaults selection, as written and corrected

  /**
   * As written, a None-typed property is awaited although GetPropertyValue
   * sends no request for it: the pending set holds -1, which no response
   * carries, so the defaults-ready broadcast never fires.
   */
  lemma NoneTypedPropertyBlocksDefaults(counter: uint64, responses: seq<uint64>)
    requires counter as int + 2 < CommandBuilder.NoRequestId as int
    requires forall i :: 0 <= i < |responses| ==> responses[i] != CommandBuilder.NoRequestId
    ensures CommandBuilder.NoRequestId in AwaitedIds([RivePropertyData("p", "", RiveDataType.None)], counter, false)
    ensures AnswerAll(AwaitedIds([RivePropertyData("p", "", RiveDataType.None)], counter, false), responses).1 == 0
  {
    var props := [RivePropertyData("p", "", RiveDataType.None)];
    assert props[..0] == [];
    var pending := AwaitedIds(props, counter, false);
    assert pending == {CommandBuilder.NoRequestId};
    BroadcastExactlyWhenAllAnswered(pending, responses);
  }

  /** Every id the corrected selection awaits is the id of a value request that was sent: never -1 before the counter nears its end. */
  lemma {:induction false} CorrectedAwaitsOnlySentRequests(props: seq<RivePropertyData>, counter: uint64)
    requires counter as int + 2 * |props| < CommandBuilder.NoRequestId as int
    ensures CommandBuilder.NoRequestId !in AwaitedIds(props, counter, true)
    ensures forall id :: id in AwaitedIds(props, counter, true) ==> counter < id <= CounterAfter(props, counter)
    ensures counter <= CounterAfter(props, counter) && CounterAfter(props, counter) as int <= counter as int + 2 * |props|
    decreases |props|
  {
    if props != [] {
      var prefix := props[..|props| - 1];
      CorrectedAwaitsOnlySentRequests(prefix, counter);
    }
  }

  /** The messages for one property: value requests and subscriptions on `instance` naming that property, none for a view model. */
  lemma PropertyCallsShape(instance: nat, p: RivePropertyData, counter: uint64)
    ensures p.Type == ViewModel <==> PropertyRequestCalls(instance, p, counter) == []
    ensures forall m :: m in PropertyRequestCalls(instance, p, counter) ==>
      && m.Call? && m.subject == instance && m.name == p.Name && m.requestId.Some?
      && (m.operation == "requestViewModelInstanceValue" || m.operation == "subscribeToViewModelProperty")
    ensures p.Type != ViewModel ==>
      var calls := PropertyRequestCalls(instance, p, counter);
      RiveFileMeta.IsCall(calls[|calls| - 1], "subscribeToViewModelProperty", instance, p.Name)
    ensures p.Type != ViewModel && AwaitsDefaultCorrected(p.Type) ==>
      var calls := PropertyRequestCalls(instance, p, counter);
      RiveFileMeta.IsCall(calls[0], "requestViewModelInstanceValue", instance, p.Name) && calls[0].requestId == Some(ValueRequestId(p, counter))
  {
  }

  /** Every message Initialize's property loop sends is a value request or a subscription on the instance, for a property of `props` that is not a view model. */
  lemma {:induction false} RequestCallsNameProperties(instance: nat, props: seq<RivePropertyData>, counter: uint64)
    ensures forall m :: m in DefaultRequestCalls(instance, props, counter) ==>
      && m.Call? && m.subject == instance && m.requestId.Some?
      && (m.operation == "requestViewModelInstanceValue" || m.operation == "subscribeToViewModelProperty")
      && exists i :: 0 <= i < |props| && props[i].Type != ViewModel && props[i].Name == m.name
    decreases |props|
  {
    if props != [] {
      var n := |props| - 1;
      var prefix := props[..n];
      RequestCallsNameProperties(instance, prefix, counter);
      var calls := DefaultRequestCalls(instance, prefix, counter);
      var step := PropertyRequestCalls(instance, props[n], CounterAfter(prefix, counter));
      PropertyCallsShape(instance, props[n], CounterAfter(prefix, counter));
      forall m: CommandBuilder.QueueMessage | m in calls + step
        ensures m.Call? && exists i :: 0 <= i < |props| && props[i].Type != ViewModel && props[i].Name == m.name
      {
        if m in calls {
          var i :| 0 <= i < |prefix| && prefix[i].Type != ViewModel && prefix[i].Name == m.name;
          assert props[i] == prefix[i];
        } else {
          assert props[n].Type != ViewModel && props[n].Name == m.name;
        }
      }
    }
  }

  /** Initialize's property loop subscribes to every property of `props` that is not a view model. */
  lemma {:induction false} RequestCallsSubscribeAll(instance: nat, props: seq<RivePropertyData>, counter: uint64)
    ensures forall i :: 0 <= i < |props| && props[i].Type != ViewModel ==>
      exists m :: m in DefaultRequestCalls(instance, props, counter) && RiveFileMeta.IsCall(m, "subscribeToViewModelProperty", instance, props[i].Name)
    decreases |props|
  {
    if props != [] {
      var n := |props| - 1;
      var prefix := props[..n];
      RequestCallsSubscribeAll(instance, prefix, counter);
      var calls := DefaultRequestCalls(instance, prefix, counter);
      var step := PropertyRequestCalls(instance, props[n], CounterAfter(prefix, counter));
      PropertyCallsShape(instance, props[n], CounterAfter(prefix, counter));
      forall i | 0 <= i < |props| && props[i].Type != ViewModel
        ensures exists m :: m in calls + step && RiveFileMeta.IsCall(m, "subscribeToViewModelProperty", instance, props[i].Name)
      {
        if i < n {
          assert prefix[i] == props[i];
          var m :| m in calls && RiveFileMeta.IsCall(m, "subscribeToViewModelProperty", instance, prefix[i].Name);
          assert m in calls + step;
        } else {
          assert step[|step| - 1] in calls + step;
        }
      }
    }
  }

  /** Every id the corrected selection awaits is the id of a value request Initialize's property loop sent. */
  lemma {:induction false} CorrectedAwaitsSentValueRequests(instance: nat, props: seq<RivePropertyData>, counter: uint64)
    ensures forall id :: id in AwaitedIds(props, counter, true) ==>
      exists m :: m in DefaultRequestCalls(instance, props, counter) && m.Call? &&
        m.operation == "requestViewModelInstanceValue" && m.requestId == Some(id)
    decreases |props|
  {
    if props != [] {
      var n := |props| - 1;
      var prefix := props[..n];
      CorrectedAwaitsSentValueRequests(instance, prefix, counter);
      var calls := DefaultRequestCalls(instance, prefix, counter);
      var step := PropertyRequestCalls(instance, props[n], CounterAfter(prefix, counter));
      PropertyCallsShape(instance, props[n], CounterAfter(prefix, counter));
      forall id | id in AwaitedIds(props, counter, true)
        ensures exists m: CommandBuilder.QueueMessage :: m in calls + step && m.Call? && m.operation == "requestViewModelInstanceValue" && m.requestId == Some(id)
      {
        if id in AwaitedIds(prefix, counter, true) {
          var m :| m in calls && m.Call? && m.operation == "requestViewModelInstanceValue" && m.requestId == Some(id);
          assert m in calls + step;
        } else {
          assert step[0] in calls + step;
        }
      }
    }
  }

  /** With the corrected selection, once every sent value request is answered the broadcast has fired exactly once. */
  lemma CorrectedDefaultsComplete(props: seq<RivePropertyData>, counter: uint64, responses: seq<uint64>)
    requires counter as int + 2 * |props| < CommandBuilder.NoRequestId as int
    requires AwaitedIds(props, counter, true) != {}
    requires forall id :: id in AwaitedIds(props, counter, true) ==> id in responses
    ensures AnswerAll(AwaitedIds(props, counter, true), responses).1 == 1
  {
    var pending := AwaitedIds(props, counter, true);
    BroadcastExactlyWhenAllAnswered(pending, responses);
    assert pending <= set i | 0 <= i < |responses| :: responses[i] by {
      forall id | id in pending ensures id in set i | 0 <= i < |responses| :: responses[i] {
        var i :| 0 <= i < |responses| && responses[i] == id;
      }
    }
  }

  /** Some property other than a view model is awaited as written although no value request is sent for it. */
  predicate AwaitsUnsent(props: seq<RivePropertyData>)
  {
    exists i :: 0 <= i < |props| && Unsent(props[i])
  }

  /** The property is awaited as written, but GetPropertyValue sends nothing for it and returns -1. */
  predicate Unsent(p: RivePropertyData)
  {
    p.Type != ViewModel && AwaitsDefault(p.Type) && !CommandBuilder.IsRequestableValue(RiveDataTypeToDataType(p.Type))
  }

  /**
   * The as-written pending set is the corrected one, plus -1 exactly when
   * some awaited property has a type no value request is sent for.
   */
  lemma {:induction false} AsWrittenAddsOnlyNoRequestId(props: seq<RivePropertyData>, counter: uint64)
    ensures AwaitedIds(props, counter, false) ==
      AwaitedIds(props, counter, true) + (if AwaitsUnsent(props) then {CommandBuilder.NoRequestId} else {})
    decreases |props|
  {
    if props != [] {
      var prefix := props[..|props| - 1];
      var p := props[|props| - 1];
      AsWrittenAddsOnlyNoRequestId(prefix, counter);
      assert AwaitsUnsent(props) <==> AwaitsUnsent(prefix) || Unsent(p) by {
        if AwaitsUnsent(props) {
          var i :| 0 <= i < |props| && Unsent(props[i]);
          if i < |props| - 1 { assert prefix[i] == props[i]; }
        }
        if AwaitsUnsent(prefix) {
          var i :| 0 <= i < |prefix| && Unsent(prefix[i]);
          assert props[i] == prefix[i];
        }
      }
    }
  }

  /**
   * As written, with every sent value request answered (and no response
   * carrying -1), the defaults-ready broadcast fires once exactly when no
   * awaited property is of a type that sends no request.
   */
  lemma AsWrittenDefaultsComplete(props: seq<RivePropertyData>, counter: uint64, responses: seq<uint64>)
    requires counter as int + 2 * |props| < CommandBuilder.NoRequestId as int
    requires AwaitedIds(props, counter, false) != {}
    requires forall id :: id in AwaitedIds(props, counter, true) ==> id in responses
    requires forall i :: 0 <= i < |responses| ==> responses[i] != CommandBuilder.NoRequestId
    ensures AnswerAll(AwaitedIds(props, counter, false), responses).1 == if AwaitsUnsent(props) then 0 else 1
  {
    var pending := AwaitedIds(props, counter, false);
    var answered := set i | 0 <= i < |responses| :: responses[i];
    AsWrittenAddsOnlyNoRequestId(props, counter);
    BroadcastExactlyWhenAllAnswered(pending, responses);
    assert CommandBuilder.NoRequestId !in answered;
    forall id | id in AwaitedIds(props, counter, true) ensures id in answered {
      var i :| 0 <= i < |responses| && responses[i] == id;
    }
  }
}
