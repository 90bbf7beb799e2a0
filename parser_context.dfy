/**
 * ParserContext.java: the per-parse scratch space the builders share.  It
 * holds a pool of objects offered for recycling, one per descriptor, and
 * a state slot per depth and descriptor.  The current depth and element
 * descriptor, which the source asks the pull parser for, are parameters
 * here.
 */
module ParserContexts {
  import opened Wrappers
  import opened ElementDescriptors

  type StateMap = map<ElementDescriptor?, Value>

  /** The state list after getDepthStateMap pads it with nulls up to `depth` entries. */
  function Padded(state: seq<Option<StateMap>>, depth: nat): (r: seq<Option<StateMap>>)
    ensures |r| == if depth > |state| then depth else |state|
    ensures r[..|state|] == state
    ensures forall i :: |state| <= i < |r| ==> r[i] == None
  {
    if depth > |state| then state + seq(depth - |state|, _ => None) else state
  }

  /** The state stored for a depth and descriptor, null when there is none. */
  function StateAt(state: seq<Option<StateMap>>, depth: nat, d: ElementDescriptor?): Value
  {
    if 1 <= depth <= |state| && state[depth - 1].Some? && d in state[depth - 1].value
    then state[depth - 1].value[d]
    else VNull
  }

  /** The state list after setState(object) at a depth for a descriptor. */
  function WithState(state: seq<Option<StateMap>>, depth: nat, d: ElementDescriptor?, obj: Value): (r: seq<Option<StateMap>>)
    requires depth >= 1
    ensures |r| == |Padded(state, depth)|
  {
    var padded := Padded(state, depth);
    var m := if padded[depth - 1].Some? then padded[depth - 1].value else map[];
    padded[depth - 1 := Some(m[d := obj])]
  }

  /**
   * Padding loses no state, and storing a state changes what is stored for
   * that depth and descriptor only.
   */
  lemma StateAtWithState(state: seq<Option<StateMap>>, depth: nat, d: ElementDescriptor?, obj: Value, depth': nat, d': ElementDescriptor?)
    requires depth >= 1
    ensures StateAt(Padded(state, depth), depth', d') == StateAt(state, depth', d')
    ensures StateAt(WithState(state, depth, d, obj), depth', d') ==
      if depth' == depth && d' == d then obj else StateAt(state, depth', d')
  {
    var padded := Padded(state, depth);
    if 1 <= depth' <= |state| {
      assert padded[depth' - 1] == state[depth' - 1];
    }
  }

  class ParserContext {
    /** mRecycledObjects */
    var recycled: map<ElementDescriptor, Value>
    /** mState: one map per depth, null (None) where no state was ever stored. */
    var state: seq<Option<StateMap>>

    constructor ()
      ensures recycled == map[] && state == []
    {
      recycled := map[];
      state := [];
    }

    /** ParserContext.recycle: offers a non-null object for reuse by the next element with the descriptor. */
    method Recycle(d: ElementDescriptor, obj: Value)
      modifies this
      ensures obj == VNull ==> recycled == old(recycled)
      ensures obj != VNull ==> recycled == old(recycled)[d := obj]
      ensures state == old(state)
    {
      if obj != VNull {
        recycled := recycled[d := obj];
      }
    }

    /**
     * ParserContext.getRecycled: takes the object offered for the
     * descriptor out of the pool, so that it is handed out only once.
     */
    method GetRecycled(d: ElementDescriptor) returns (r: Value)
      modifies this
      ensures r == if d in old(recycled) then old(recycled)[d] else VNull
      ensures recycled == old(recycled) - {d}
      ensures state == old(state)
    {
      r := if d in recycled then recycled[d] else VNull;
      recycled := recycled - {d};
    }

    /**
     * ParserContext.getDepthStateMap: pads the state list up to the depth
     * and returns the map for it, creating an empty one when asked to.
     */
    method GetDepthStateMap(depth: nat, create: bool) returns (r: Option<StateMap>)
      requires depth >= 1
      modifies this
      ensures !create ==> state == Padded(old(state), depth)
      ensures create ==> state == Padded(old(state), depth)[depth - 1 := r]
      ensures r == if create && Padded(old(state), depth)[depth - 1].None? then Some(map[]) else Padded(old(state), depth)[depth - 1]
      ensures recycled == old(recycled)
    {
      while depth > |state|
        invariant |old(state)| <= |state| <= (if depth > |old(state)| then depth else |old(state)|)
        invariant state[..|old(state)|] == old(state)
        invariant forall i :: |old(state)| <= i < |state| ==> state[i] == None
        invariant recycled == old(recycled)
      {
        state := state + [None];
      }
      assert state == Padded(old(state), depth);
      var m := state[depth - 1];
      if !create || m.Some? {
        if create {
          assert state == state[depth - 1 := m];
        }
        return m;
      }
      r := Some(map[]);
      state := state[depth - 1 := r];
    }

    /** ParserContext.setState: stores an object for the current depth and element. */
    method SetState(depth: nat, current: ElementDescriptor?, obj: Value)
      requires depth >= 1
      modifies this
      ensures state == WithState(old(state), depth, current, obj)
      ensures StateAt(state, depth, current) == obj
      ensures recycled == old(recycled)
    {
      var m := GetDepthStateMap(depth, true);
      state := state[depth - 1 := Some(m.value[current := obj])];
    }

    /**
     * ParserContext.getState: the object stored for the current depth and
     * element, null if none (padding the state list on the way).
     */
    method GetState(depth: nat, current: ElementDescriptor?) returns (r: Value)
      requires depth >= 1
      modifies this
      ensures r == StateAt(old(state), depth, current)
      ensures state == Padded(old(state), depth)
      ensures recycled == old(recycled)
    {
      var m := GetDepthStateMap(depth, false);
      StateAtWithState(old(state), depth, current, VNull, depth, current);
      if m.None? {
        return VNull;
      }
      r := if current in m.value then m.value[current] else VNull;
    }
  }

  /** A state stored with setState is what getState returns at the same depth for the same element. */
  method StateRoundTrip(pc: ParserContext, depth: nat, current: ElementDescriptor?, obj: Value) returns (r: Value)
    requires depth >= 1
    modifies pc
    ensures r == obj
  {
    pc.SetState(depth, current, obj);
    r := pc.GetState(depth, current);
  }
}
