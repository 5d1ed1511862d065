/**
 * The view-model instance wrapper (Source/Rive/Private/Rive/ViewModel/RiveViewModelInstance.cpp):
 * a cache of property wrappers keyed by property name and type suffix, and
 * the list of property wrappers that asked for per-frame callbacks.
 */
module ViewModelInstance {
  import opened Wrappers
  import opened AsciiText
  import FixedWidth

  /** Which typed accessor GetProperty<T> is instantiated with. */
  datatype PropertyKind = BooleanProperty | ColorProperty | EnumProperty | NumberProperty
                        | StringProperty | TriggerProperty | NestedViewModel

  /** The suffixes of the two property wrappers whose GetSuffix is part of this model. */
  const EnumSuffix: string := "_ENUM"
  const ViewModelSuffix: string := "_VIEWMODEL"

  /** A property wrapper object; `serial` tells apart the objects NewObject creates. */
  datatype PropertyObject = PropertyObject(kind: PropertyKind, name: string, serial: nat)

  /** What the runtime instance answers: its property count and which typed lookups find a property. */
  datatype RuntimeInstance = RuntimeInstance(propertyCount: nat, lookup: set<(PropertyKind, string)>)

  /** The list `l` without the entries in `drop`, order kept (TArray::Remove removes every occurrence). */
  function Filter(l: seq<nat>, drop: set<nat>): (r: seq<nat>)
    ensures |r| <= |l|
    ensures forall x :: x in r <==> x in l && x !in drop
    decreases |l|
  {
    if l == [] then []
    else if l[0] in drop then Filter(l[1..], drop)
    else [l[0]] + Filter(l[1..], drop)
  }

  /** The list `l` keeping only the entries in `keep`, order kept. */
  function Select(l: seq<nat>, keep: set<nat>): (r: seq<nat>)
    ensures |r| <= |l|
    ensures forall x :: x in r <==> x in l && x in keep
    decreases |l|
  {
    if l == [] then []
    else if l[0] in keep then [l[0]] + Select(l[1..], keep)
    else Select(l[1..], keep)
  }

  /** Selecting from a concatenation selects from each part. */
  lemma {:induction false} SelectAppend(a: seq<nat>, b: seq<nat>, keep: set<nat>)
    ensures Select(a + b, keep) == Select(a, keep) + Select(b, keep)
    decreases |a|
  {
    if a == [] {
      assert a + b == b;
    } else {
      assert (a + b)[1..] == a[1..] + b;
      SelectAppend(a[1..], b, keep);
    }
  }

  /** Select over a growing prefix, one entry at a time. */
  lemma SelectPrefixStep(l: seq<nat>, k: nat, keep: set<nat>)
    requires k < |l|
    ensures Select(l[..k + 1], keep) == Select(l[..k], keep) + (if l[k] in keep then [l[k]] else [])
  {
    assert l[..k + 1] == l[..k] + [l[k]];
    SelectAppend(l[..k], [l[k]], keep);
    assert [l[k]][1..] == [];
  }

  predicate NoDuplicates(l: seq<nat>)
  {
    forall i, j :: 0 <= i < j < |l| ==> l[i] != l[j]
  }

  /** Dropping in two steps is dropping the union. */
  lemma {:induction false} FilterTwice(l: seq<nat>, a: set<nat>, b: set<nat>)
    ensures Filter(Filter(l, a), b) == Filter(l, a + b)
    decreases |l|
  {
    if l != [] {
      FilterTwice(l[1..], a, b);
      if l[0] !in a {
        assert Filter(l, a) == [l[0]] + Filter(l[1..], a);
        assert Filter(l, a)[1..] == Filter(l[1..], a);
      }
    }
  }

  /** Dropping nothing keeps the list. */
  lemma {:induction false} FilterNothing(l: seq<nat>)
    ensures Filter(l, {}) == l
    decreases |l|
  {
    if l != [] {
      FilterNothing(l[1..]);
    }
  }

  /** Only the members of `l` matter to Filter. */
  lemma {:induction false} FilterOnlyNeedsMembers(l: seq<nat>, a: set<nat>, b: set<nat>)
    requires forall x :: x in l ==> (x in a <==> x in b)
    ensures Filter(l, a) == Filter(l, b)
    decreases |l|
  {
    if l != [] {
      FilterOnlyNeedsMembers(l[1..], a, b);
    }
  }

  /** Filter keeps a list free of duplicates. */
  lemma {:induction false} FilterKeepsNoDuplicates(l: seq<nat>, drop: set<nat>)
    requires NoDuplicates(l)
    ensures NoDuplicates(Filter(l, drop))
    decreases |l|
  {
    if l != [] {
      FilterKeepsNoDuplicates(l[1..], drop);
      assert l[0] !in l[1..];
    }
  }

  /**
   * ClearCallbacks as written: an index walks the list while
   * RemoveCallbackProperty shrinks it, so the entry that moves into the
   * removed one's place is skipped.
   */
  function ClearFrom(l: seq<nat>, live: set<nat>, i: nat): seq<nat>
    decreases |l| - i
  {
    if i >= |l| then l
    else if l[i] != 0 && l[i] in live then ClearFrom(Filter(l, {l[i]}), live, i + 1)
    else ClearFrom(l, live, i + 1)
  }

  /** A live entry is one whose weak pointer is valid and non-null. */
  function LiveSet(alive: set<nat>): set<nat>
  {
    alive - {0}
  }

  /**
   * The as-written walk only removes: every entry it leaves was in the list,
   * and every entry that is null or not live stays.
   */
  lemma {:induction false} ClearFromOnlyRemovesLive(l: seq<nat>, live: set<nat>, i: nat)
    ensures forall x :: x in ClearFrom(l, live, i) ==> x in l
    ensures forall x :: x in l && (x == 0 || x !in live) ==> x in ClearFrom(l, live, i)
    decreases |l| - i
  {
    if i < |l| {
      if l[i] != 0 && l[i] in live {
        ClearFromOnlyRemovesLive(Filter(l, {l[i]}), live, i + 1);
      } else {
        ClearFromOnlyRemovesLive(l, live, i + 1);
      }
    }
  }

  /** With entries 1, 2 and 3 all live, the walk removes 1 and 3 but leaves 2 registered. */
  lemma ClearAsWrittenLeavesEntries()
    ensures ClearFrom([1, 2, 3], {1, 2, 3}, 0) == [2]
  {
    assert Filter([1, 2, 3], {1}) == [2, 3];
    assert Filter([2, 3], {3}) == [2];
  }

  class URiveViewModelInstance {
    var ViewModelInstancePtr: Option<RuntimeInstance>
    /** The property cache; a TMap with FString keys, so keys are compared in lower case. */
    var Properties: map<string, PropertyObject>
    /** Weak pointers to the property wrappers that asked for callbacks, by object id; 0 is null. */
    var CallbackProperties: seq<nat>
    var ObjectsCreated: nat

    ghost predicate Valid()
      reads this`CallbackProperties, this`Properties, this`ObjectsCreated
    {
      NoDuplicates(CallbackProperties) && 0 !in CallbackProperties &&
      (forall k :: k in Properties ==> Properties[k].serial < ObjectsCreated)
    }

    constructor ()
      ensures Valid()
      ensures ViewModelInstancePtr.None? && Properties == map[] && CallbackProperties == [] && ObjectsCreated == 0
    {
      ViewModelInstancePtr := Option.None;
      Properties := map[];
      CallbackProperties := [];
      ObjectsCreated := 0;
    }

    method Initialize(runtime: Option<RuntimeInstance>)
      modifies this`ViewModelInstancePtr
      ensures ViewModelInstancePtr == runtime
    {
      ViewModelInstancePtr := runtime;
    }

    /** The runtime's property count cast to int32, or 0 without a runtime. */
    function GetPropertyCount(): (r: int)
      reads this
      ensures ViewModelInstancePtr.None? ==> r == 0
      ensures ViewModelInstancePtr.Some? && ViewModelInstancePtr.value.propertyCount < FixedWidth.TwoTo31 ==>
        r == ViewModelInstancePtr.value.propertyCount
    {
      if ViewModelInstancePtr.None? then 0 else FixedWidth.Int32Of(ViewModelInstancePtr.value.propertyCount)
    }

    /** AddCallbackProperty: null is rejected, and an entry already present is not added again. */
    method AddCallbackProperty(property: nat)
      requires Valid()
      modifies this`CallbackProperties
      ensures Valid()
      ensures property == 0 || property in old(CallbackProperties) ==> CallbackProperties == old(CallbackProperties)
      ensures property != 0 && property !in old(CallbackProperties) ==> CallbackProperties == old(CallbackProperties) + [property]
    {
      if property == 0 {
        return;
      }
      if property !in CallbackProperties {
        CallbackProperties := CallbackProperties + [property];
      }
    }

    /** RemoveCallbackProperty: null is rejected; otherwise every occurrence is removed. */
    method RemoveCallbackProperty(property: nat)
      requires Valid()
      modifies this`CallbackProperties
      ensures Valid()
      ensures property == 0 ==> CallbackProperties == old(CallbackProperties)
      ensures property != 0 ==> CallbackProperties == Filter(old(CallbackProperties), {property})
    {
      if property == 0 {
        return;
      }
      FilterKeepsNoDuplicates(CallbackProperties, {property});
      CallbackProperties := Filter(CallbackProperties, {property});
    }

    /** HandleCallbacks: the live entries, in list order, are the ones whose callbacks run. */
    method HandleCallbacks(alive: set<nat>) returns (handled: seq<nat>)
      ensures handled == Select(CallbackProperties, LiveSet(alive))
    {
      var entries := CallbackProperties;
      ghost var live := LiveSet(alive);
      handled := [];
      var k := 0;
      while k < |entries|
        invariant 0 <= k <= |entries|
        invariant handled == Select(entries[..k], live)
      {
        var property := entries[k];
        SelectPrefixStep(entries, k, live);
        if property != 0 && property in alive {
          handled := handled + [property];
        }
        k := k + 1;
      }
      assert entries[..k] == entries;
    }

    /** ClearCallbacks as written: see ClearFrom. */
    method ClearCallbacks(alive: set<nat>)
      requires Valid()
      modifies this`CallbackProperties
      ensures Valid()
      ensures CallbackProperties == ClearFrom(old(CallbackProperties), alive, 0)
    {
      var i := 0;
      while i < |CallbackProperties|
        invariant Valid()
        invariant ClearFrom(CallbackProperties, alive, i) == ClearFrom(old(CallbackProperties), alive, 0)
        decreases |CallbackProperties| - i
      {
        var property := CallbackProperties[i];
        if property != 0 && property in alive {
          RemoveCallbackProperty(property);
        }
        i := i + 1;
      }
    }

    /** ClearCallbacks walking a copy of the list: every live entry is removed, the rest stay in order. */
    method ClearCallbacksCorrected(alive: set<nat>)
      requires Valid()
      modifies this`CallbackProperties
      ensures Valid()
      ensures CallbackProperties == Filter(old(CallbackProperties), LiveSet(alive))
      ensures forall x :: x in CallbackProperties ==> x !in alive
    {
      var snapshot := CallbackProperties;
      ghost var dropped: set<nat> := {};
      FilterNothing(snapshot);
      var k := 0;
      while k < |snapshot|
        invariant 0 <= k <= |snapshot|
        invariant Valid()
        invariant dropped == set j | 0 <= j < k && snapshot[j] in LiveSet(alive) :: snapshot[j]
        invariant CallbackProperties == Filter(snapshot, dropped)
      {
        var property := snapshot[k];
        if property != 0 && property in alive {
          RemoveCallbackProperty(property);
          FilterTwice(snapshot, dropped, {property});
          dropped := dropped + {property};
        }
        k := k + 1;
      }
      FilterOnlyNeedsMembers(snapshot, dropped, LiveSet(alive));
    }

    /**
     * BeginDestroy: clears the callbacks with the as-written walk (so some
     * live entries can stay; see ClearAsWrittenLeavesEntries), and empties
     * the property cache.
     */
    method BeginDestroy(alive: set<nat>)
      requires Valid()
      modifies this`CallbackProperties, this`Properties
      ensures Valid()
      ensures CallbackProperties == ClearFrom(old(CallbackProperties), alive, 0)
      ensures Properties == map[]
    {
      ClearCallbacks(alive);
      Properties := map[];
    }

    /**
     * GetProperty<T>: the key is the property name followed by the type's
     * suffix. A cached key returns the cached object (null when it is of
     * another type) without creating anything; otherwise, with a runtime
     * that finds the property, a new wrapper is created and cached under
     * the key; without a runtime, or when the lookup fails, the result is
     * null and the cache is unchanged.
     */
    method GetProperty(kind: PropertyKind, suffix: string, propertyName: string) returns (r: Option<PropertyObject>)
      requires Valid()
      modifies this`Properties, this`ObjectsCreated
      ensures Valid()
      ensures var key := Lower(propertyName + suffix);
        if key in old(Properties) then
          Properties == old(Properties) && ObjectsCreated == old(ObjectsCreated) &&
          r == (if old(Properties)[key].kind == kind then Some(old(Properties)[key]) else Option.None)
        else if ViewModelInstancePtr.None? || (kind, propertyName) !in ViewModelInstancePtr.value.lookup then
          Properties == old(Properties) && ObjectsCreated == old(ObjectsCreated) && r.None?
        else
          r == Some(PropertyObject(kind, propertyName, old(ObjectsCreated))) &&
          Properties == old(Properties)[key := r.value] && ObjectsCreated == old(ObjectsCreated) + 1
    {
      var key := Lower(propertyName + suffix);
      if key in Properties {
        var cached := Properties[key];
        if cached.kind == kind {
          return Some(cached);
        }
        return Option.None;
      }
      if ViewModelInstancePtr.None? {
        return Option.None;
      }
      if (kind, propertyName) !in ViewModelInstancePtr.value.lookup {
        return Option.None;
      }
      var created := PropertyObject(kind, propertyName, ObjectsCreated);
      ObjectsCreated := ObjectsCreated + 1;
      Properties := Properties[key := created];
      return Some(created);
    }
  }

  /** Add then Remove of an entry that was absent restores the list. */
  lemma {:induction false} RemoveUndoesAdd(l: seq<nat>, x: nat)
    requires x !in l
    ensures Filter(l + [x], {x}) == l
    decreases |l|
  {
    if l != [] {
      assert (l + [x])[1..] == l[1..] + [x];
      RemoveUndoesAdd(l[1..], x);
    } else {
      assert [x][1..] == [];
    }
  }

  /** A removed entry is gone and every other entry keeps its relative order. */
  lemma RemoveOnlyRemoves(l: seq<nat>, x: nat)
    ensures x !in Filter(l, {x})
    ensures Filter(l, {x}) == Select(l, set y | y in l && y != x)
  {
    FilterIsSelect(l, {x}, set y | y in l && y != x);
  }

  lemma {:induction false} FilterIsSelect(l: seq<nat>, drop: set<nat>, keep: set<nat>)
    requires forall y :: y in l ==> (y in keep <==> y !in drop)
    ensures Filter(l, drop) == Select(l, keep)
    decreases |l|
  {
    if l != [] {
      FilterIsSelect(l[1..], drop, keep);
    }
  }

  /** The cache key ignores case, so names that differ only in case share one wrapper. */
  lemma CacheKeyIgnoresCase(a: string, b: string, suffix: string)
    requires EqualsIgnoreCase(a, b)
    ensures Lower(a + suffix) == Lower(b + suffix)
  {
    var la, lb := Lower(a + suffix), Lower(b + suffix);
    assert |a| == |b| by { assert |Lower(a)| == |Lower(b)|; }
    forall i | 0 <= i < |la| ensures la[i] == lb[i] {
      if i < |a| {
        assert la[i] == LowerChar(a[i]) == Lower(a)[i];
        assert lb[i] == LowerChar(b[i]) == Lower(b)[i];
      } else {
        assert (a + suffix)[i] == (b + suffix)[i];
      }
    }
  }
}
