/**
 * FRiveCommandBuilder (Source/RiveRenderer/Public/RiveCommandBuilder.h and
 * Source/RiveRenderer/Private/RiveCommandBuilder.cpp): the game-thread front
 * of Rive's command queue. It numbers requests with a uint64 counter, collects
 * per-frame callbacks and per-render-target draw lists, and hands them to the
 * queue on Execute.
 *
 * The command queue itself belongs to the Rive runtime and is not part of this
 * model: what the builder sends to it is recorded in `Sent`, and its draw-key
 * allocator is modelled as handing out 1, 2, 3, ...
 */
module CommandBuilder {
  import opened Wrappers
  import opened FixedWidth
  import DataTypes

  /** `(uint64_t)-1`, the value GetPropertyValue and SetViewModelImage return when no request id applies. */
  const NoRequestId: uint64 := MaxUint64

  /** rive::DrawKey; 0 is RIVE_NULL_HANDLE. */
  type DrawKey = nat
  const NullDrawKey: DrawKey := 0

  /** Identities of engine objects the builder keeps in maps. */
  datatype RenderTarget = RenderTarget(id: nat)
  datatype Texture = Texture(id: nat)

  /**
   * Server-side callbacks: the caller's own, the one SetViewModelImage queues
   * to create a render image from a texture, and the three URiveFile queues
   * while importing a view model's defaults (read the default instance's
   * name; read one named instance's default values, reporting the end of
   * gathering when `canBroadcast`; only report the end of gathering).
   */
  datatype Callback =
    | UserCallback(id: nat)
    | CreateRenderImage(texture: Texture, viewModel: nat, name: string)
    | ReadDefaultInstanceName(viewModelName: string)
    | GatherInstanceDefaults(viewModelName: string, instanceName: string, canBroadcast: bool)
    | DefaultsGathered

  /** One entry of a render target's draw list (EDrawType::Artboard or EDrawType::Direct). */
  datatype DrawEntry = ArtboardDraw(artboard: nat) | DirectDraw(callback: nat)

  /** FRiveCommandSet. */
  datatype CommandSet = CommandSet(drawKey: DrawKey, drawCommands: seq<DrawEntry>)

  /** What the builder hands to the command queue. */
  datatype QueueMessage =
    | Call(operation: string, subject: nat, name: string, requestId: Option<uint64>)
    | RunOnceBatch(commands: seq<Callback>)
    | DrawBatch(key: DrawKey, target: RenderTarget, draws: seq<DrawEntry>)

  /** The data types whose value GetPropertyValue can request. */
  predicate IsRequestableValue(t: DataTypes.DataType)
  {
    t in {DataTypes.boolean, DataTypes.stringType, DataTypes.enumType, DataTypes.number, DataTypes.color}
  }

  /** The request ids of the first `n` requests: 1, 2, 3, ..., modulo 2^64. */
  predicate IsIdSequence(ids: seq<uint64>)
  {
    forall k :: 0 <= k < |ids| ==> ids[k] as int == (k + 1) % TwoTo64
  }

  /** Until the counter has wrapped, issued request ids are strictly increasing, hence distinct. */
  lemma IdsIncreaseUntilWrap(ids: seq<uint64>, i: int, j: int)
    requires IsIdSequence(ids) && |ids| < TwoTo64
    requires 0 <= i < j < |ids|
    ensures ids[i] < ids[j]
  {
    assert ids[i] as int == i + 1;
    assert ids[j] as int == j + 1;
  }

  /** The 2^64-th request wraps to id 0. */
  lemma IdWrapsAfterLargest(ids: seq<uint64>)
    requires IsIdSequence(ids) && |ids| == TwoTo64
    ensures ids[TwoTo64 - 1] == 0
  {
  }

  /**
   * The draw tables agree: the order lists each target with commands exactly
   * once, and each target has its own draw key, one of those created so far.
   */
  ghost predicate DrawTablesValid(commands: map<RenderTarget, CommandSet>, order: seq<RenderTarget>, keysCreated: nat)
  {
    && (forall t :: t in commands <==> t in order)
    && (forall i, j :: 0 <= i < j < |order| ==> order[i] != order[j])
    && (forall t :: t in commands ==> 0 < commands[t].drawKey <= keysCreated)
    && (forall t, u :: t in commands && u in commands && t != u ==> commands[t].drawKey != commands[u].drawKey)
  }

  /** Replacing a target's draw list under the same key keeps the tables valid. */
  lemma ReplaceDrawListKeepsTables(commands: map<RenderTarget, CommandSet>, order: seq<RenderTarget>, keysCreated: nat,
                                   target: RenderTarget, list: seq<DrawEntry>)
    requires DrawTablesValid(commands, order, keysCreated)
    requires target in commands
    ensures DrawTablesValid(commands[target := commands[target].(drawCommands := list)], order, keysCreated)
  {
  }

  /** The draw batches Execute sends for the given targets, in that order. */
  function DrawBatches(commands: map<RenderTarget, CommandSet>, order: seq<RenderTarget>): (r: seq<QueueMessage>)
    requires forall t :: t in order ==> t in commands
    ensures |r| == |order|
    ensures forall i :: 0 <= i < |order| ==>
      r[i] == DrawBatch(commands[order[i]].drawKey, order[i], commands[order[i]].drawCommands)
  {
    if order == [] then [] else
      var last := order[|order| - 1];
      DrawBatches(commands, order[..|order| - 1]) + [DrawBatch(commands[last].drawKey, last, commands[last].drawCommands)]
  }

  /** Extending a prefix of the draw order by one target adds that target's batch. */
  lemma DrawBatchesStep(commands: map<RenderTarget, CommandSet>, order: seq<RenderTarget>, k: nat)
    requires k < |order|
    requires forall t :: t in order ==> t in commands
    ensures DrawBatches(commands, order[..k + 1]) ==
      DrawBatches(commands, order[..k]) + [DrawBatch(commands[order[k]].drawKey, order[k], commands[order[k]].drawCommands)]
  {
    assert order[..k + 1][..k] == order[..k];
  }

  class FRiveCommandBuilder {
    var Commands: seq<Callback>
    var DrawCommands: map<RenderTarget, CommandSet>
    /** The order in which render targets were added to DrawCommands (TMap iterates in insertion order when nothing is removed). */
    var DrawOrder: seq<RenderTarget>
    var ExternalImages: map<Texture, nat>
    var CurrentRequestId: uint64
    /** The messages handed to the command queue so far. */
    var Sent: seq<QueueMessage>
    /** How many draw keys the command queue has created. */
    var DrawKeysCreated: nat
    /** Every request id handed out, in order. */
    ghost var Issued: seq<uint64>

    ghost predicate Valid()
      reads this`Issued, this`CurrentRequestId, this`DrawCommands, this`DrawOrder, this`DrawKeysCreated
    {
      && IsIdSequence(Issued)
      && CurrentRequestId as int == |Issued| % TwoTo64
      && DrawTablesValid(DrawCommands, DrawOrder, DrawKeysCreated)
    }

    constructor ()
      ensures Valid()
      ensures Commands == [] && DrawCommands == map[] && DrawOrder == [] && ExternalImages == map[]
      ensures CurrentRequestId == 0 && Sent == [] && Issued == []
    {
      Commands := [];
      DrawCommands := map[];
      DrawOrder := [];
      ExternalImages := map[];
      CurrentRequestId := 0;
      Sent := [];
      DrawKeysCreated := 0;
      Issued := [];
    }

    /** Reset: empties the queued callbacks and all draw lists; the counter and image cache stay. */
    method Reset()
      requires Valid()
      modifies this`Commands, this`DrawCommands, this`DrawOrder
      ensures Valid()
      ensures Commands == [] && DrawCommands == map[] && DrawOrder == []
    {
      Commands := [];
      DrawCommands := map[];
      DrawOrder := [];
    }

    /** `++CurrentRequestId`, shared by every request-numbering method. */
    method NextRequestId() returns (id: uint64)
      requires Valid()
      modifies this`CurrentRequestId, this`Issued
      ensures Valid()
      ensures id == Inc(old(CurrentRequestId)) && CurrentRequestId == id
      ensures Issued == old(Issued) + [id]
    {
      CurrentRequestId := Inc(CurrentRequestId);
      id := CurrentRequestId;
      Issued := Issued + [id];
      assert (|old(Issued)| + 1) % TwoTo64 == (|old(Issued)| % TwoTo64 + 1) % TwoTo64;
    }

    /**
     * The request methods that always number their request (DestroyFile,
     * GetPropertyListSize, SubscribeToProperty, the SetViewModel* family, the
     * list edits, the Destroy* and StateMachine* calls and the Request* calls):
     * increment the counter, send the call with the new id and return it.
     */
    method Request(operation: string, subject: nat, name: string) returns (id: uint64)
      requires Valid()
      modifies this`CurrentRequestId, this`Issued, this`Sent
      ensures Valid()
      ensures id == Inc(old(CurrentRequestId)) && CurrentRequestId == id
      ensures Issued == old(Issued) + [id]
      ensures Sent == old(Sent) + [Call(operation, subject, name, Some(id))]
    {
      id := NextRequestId();
      Sent := Sent + [Call(operation, subject, name, Some(id))];
    }

    /**
     * The create and load methods (LoadFile, CreateDefaultArtboard,
     * CreateArtboard, the CreateViewModel family, CreateDefaultStateMachine,
     * CreateStateMachine): a request id is taken, and written to
     * `outRequestId`, only when the caller asks for one.
     */
    method Create(operation: string, subject: nat, name: string, wantsRequestId: bool) returns (outRequestId: Option<uint64>)
      requires Valid()
      modifies this`CurrentRequestId, this`Issued, this`Sent
      ensures Valid()
      ensures outRequestId.Some? <==> wantsRequestId
      ensures wantsRequestId ==> outRequestId.value == Inc(old(CurrentRequestId)) && CurrentRequestId == outRequestId.value
                                 && Issued == old(Issued) + [outRequestId.value]
      ensures !wantsRequestId ==> CurrentRequestId == old(CurrentRequestId) && Issued == old(Issued)
      ensures Sent == old(Sent) + [Call(operation, subject, name, outRequestId)]
    {
      if wantsRequestId {
        var id := NextRequestId();
        outRequestId := Some(id);
      } else {
        outRequestId := None;
      }
      Sent := Sent + [Call(operation, subject, name, outRequestId)];
    }

    /**
     * GetPropertyValue: for boolean, string, enum, number and colour properties
     * a numbered value request is sent and its id returned; for every other
     * type nothing is sent, the counter is unchanged and -1 is returned.
     */
    method GetPropertyValue(viewModel: nat, name: string, t: DataTypes.DataType) returns (id: uint64)
      requires Valid()
      modifies this`CurrentRequestId, this`Issued, this`Sent
      ensures Valid()
      ensures IsRequestableValue(t) ==>
        id == Inc(old(CurrentRequestId)) && CurrentRequestId == id && Issued == old(Issued) + [id] &&
        Sent == old(Sent) + [Call("requestViewModelInstanceValue", viewModel, name, Some(id))]
      ensures !IsRequestableValue(t) ==>
        id == NoRequestId && CurrentRequestId == old(CurrentRequestId) && Issued == old(Issued) && Sent == old(Sent)
    {
      match t
      case boolean =>
        id := Request("requestViewModelInstanceValue", viewModel, name);
      case stringType =>
        id := Request("requestViewModelInstanceValue", viewModel, name);
      case enumType =>
        id := Request("requestViewModelInstanceValue", viewModel, name);
      case number =>
        id := Request("requestViewModelInstanceValue", viewModel, name);
      case color =>
        id := Request("requestViewModelInstanceValue", viewModel, name);
      case _ =>
        return NoRequestId;
    }

    /** RunOnce: the callback goes to the end of the frame's callback list. */
    method RunOnce(callback: Callback)
      requires Valid()
      modifies this`Commands
      ensures Valid()
      ensures Commands == old(Commands) + [callback]
    {
      Commands := Commands + [callback];
    }

    /**
     * SetViewModelImage with a texture: a texture already turned into a render
     * image is set with a numbered request; otherwise a callback that creates
     * the render image is queued and -1 returned (the set happens later, in
     * CompleteRenderImage).
     */
    method SetViewModelImage(viewModel: nat, name: string, texture: Texture) returns (id: uint64)
      requires Valid()
      modifies this`CurrentRequestId, this`Issued, this`Sent, this`Commands
      ensures Valid()
      ensures texture !in ExternalImages ==>
        id == NoRequestId && Commands == old(Commands) + [CreateRenderImage(texture, viewModel, name)] &&
        CurrentRequestId == old(CurrentRequestId) && Issued == old(Issued) && Sent == old(Sent)
      ensures texture in ExternalImages ==>
        id == Inc(old(CurrentRequestId)) && CurrentRequestId == id && Issued == old(Issued) + [id] &&
        Commands == old(Commands) &&
        Sent == old(Sent) + [Call("setViewModelInstanceImage", viewModel, name, Some(id))]
    {
      if texture !in ExternalImages {
        RunOnce(CreateRenderImage(texture, viewModel, name));
        return NoRequestId;
      }
      id := Request("setViewModelInstanceImage", viewModel, name);
    }

    /**
     * The game-thread continuation of the queued render-image callback: the
     * new image handle is cached for the texture and the image is set with a
     * numbered request.
     */
    method CompleteRenderImage(texture: Texture, imageHandle: nat, viewModel: nat, name: string)
      requires Valid()
      modifies this`ExternalImages, this`CurrentRequestId, this`Issued, this`Sent
      ensures Valid()
      ensures ExternalImages == old(ExternalImages)[texture := imageHandle]
      ensures CurrentRequestId == Inc(old(CurrentRequestId)) && Issued == old(Issued) + [CurrentRequestId]
      ensures Sent == old(Sent) + [Call("setViewModelInstanceImage", viewModel, name, Some(CurrentRequestId))]
    {
      ExternalImages := ExternalImages[texture := imageHandle];
      var id := Request("setViewModelInstanceImage", viewModel, name);
    }

    /**
     * FindOrAddDrawCommands: the target's command set, added empty if absent;
     * a null draw key is replaced by a newly created one, an existing key is kept.
     */
    method FindOrAddDrawCommands(target: RenderTarget)
      requires Valid()
      modifies this`DrawCommands, this`DrawOrder, this`DrawKeysCreated
      ensures Valid()
      ensures target in old(DrawCommands) ==> DrawCommands == old(DrawCommands) && DrawOrder == old(DrawOrder)
      ensures target !in old(DrawCommands) ==>
        DrawCommands == old(DrawCommands)[target := CommandSet(DrawKeysCreated, [])] &&
        DrawOrder == old(DrawOrder) + [target] && DrawKeysCreated == old(DrawKeysCreated) + 1
      ensures DrawKeysCreated >= old(DrawKeysCreated)
    {
      var commandSet := if target in DrawCommands then DrawCommands[target] else CommandSet(NullDrawKey, []);
      if target !in DrawCommands {
        DrawOrder := DrawOrder + [target];
      }
      if commandSet.drawKey == NullDrawKey {
        DrawKeysCreated := DrawKeysCreated + 1;
        commandSet := commandSet.(drawKey := DrawKeysCreated);
      }
      DrawCommands := DrawCommands[target := commandSet];
    }

    /** DrawArtboard and Draw: the entry is appended to the target's draw list; other targets' lists are untouched. */
    method EnqueueDraw(target: RenderTarget, entry: DrawEntry)
      requires Valid()
      modifies this`DrawCommands, this`DrawOrder, this`DrawKeysCreated
      ensures Valid()
      ensures DrawCommands.Keys == old(DrawCommands).Keys + {target}
      ensures forall u :: u in old(DrawCommands) && u != target ==> DrawCommands[u] == old(DrawCommands)[u]
      ensures DrawCommands[target].drawCommands ==
        (if target in old(DrawCommands) then old(DrawCommands)[target].drawCommands else []) + [entry]
      ensures target in old(DrawCommands) ==> DrawCommands[target].drawKey == old(DrawCommands)[target].drawKey
    {
      FindOrAddDrawCommands(target);
      AppendDraw(target, entry);
    }

    /** The second half of EnqueueDraw: the entry goes at the end of the target's existing draw list, under the same key. */
    method AppendDraw(target: RenderTarget, entry: DrawEntry)
      requires Valid()
      requires target in DrawCommands
      modifies this`DrawCommands
      ensures Valid()
      ensures DrawCommands == old(DrawCommands)[target := old(DrawCommands)[target].(drawCommands := old(DrawCommands)[target].drawCommands + [entry])]
    {
      var commandSet := DrawCommands[target];
      ReplaceDrawListKeepsTables(DrawCommands, DrawOrder, DrawKeysCreated, target, commandSet.drawCommands + [entry]);
      DrawCommands := DrawCommands[target := commandSet.(drawCommands := commandSet.drawCommands + [entry])];
    }

    /**
     * Execute: one batch running the queued callbacks in the order they were
     * queued, then one draw per render target under its draw key.
     */
    method Execute()
      requires Valid()
      modifies this`Sent
      ensures Valid()
      ensures Sent == old(Sent) + [RunOnceBatch(Commands)] + DrawBatches(DrawCommands, DrawOrder)
    {
      var queued := Sent + [RunOnceBatch(Commands)];
      var batches := [];
      var k := 0;
      while k < |DrawOrder|
        invariant 0 <= k <= |DrawOrder|
        invariant forall t :: t in DrawOrder ==> t in DrawCommands
        invariant batches == DrawBatches(DrawCommands, DrawOrder[..k])
      {
        var target := DrawOrder[k];
        var commandSet := DrawCommands[target];
        DrawBatchesStep(DrawCommands, DrawOrder, k);
        batches := batches + [DrawBatch(commandSet.drawKey, target, commandSet.drawCommands)];
        k := k + 1;
      }
      assert DrawOrder[..k] == DrawOrder;
      Sent := queued + batches;
    }

  }
}
