/**
 * Key bindings (Input.cs) and the per-tick key dispatch of the two newer
 * editors (`HandleKeys`). Each binding carries the handler as a command value
 * of the editor's own command type `C`. The dispatch of one tick is specified
 * as a fold over the held keys in the order the held-key set enumerates them:
 * a key fires when it has a binding, passes the edit-mode gate, is out of its
 * cooldown and is repeatable or not yet handled while held; firing stamps the
 * binding with the current tick, marks a non-repeatable key as handled and
 * runs the handler. Only a handler that toggles the editor changes a gate
 * later in the same tick.
 */
module Inputs {

  /** The keys the editors bind (System.Windows.Forms.Keys), and any other key by its code. */
  datatype Key =
    | F1 | F2 | F3 | F4 | Delete
    | OpenBracket | CloseBracket | Comma | Period
    | Up | Down | Enter | Left | Right
    | W | S | A | D | E | Q
    | Shift | Control
    | OtherKey(code: int)

  /**
   * One binding: a display name, the key, whether holding the key repeats the
   * handler every tick, a cooldown in ticks, whether it works outside the
   * editor, the handler, and the tick it last fired (0 until then).
   */
  datatype Input<C> = Input(
    name: string,
    key: Key,
    isRepeatable: bool,
    cooldownDurationInTicks: int,
    canBeUsedOutsideOfMapEditor: bool,
    handler: C,
    lastUsageTick: int)

  /** The Input constructor: every field from its argument, and no use yet. */
  function NewInput<C>(name: string, key: Key, isRepeatable: bool, cooldownDurationInTicks: int,
                       canBeUsedOutsideOfMapEditor: bool, handler: C): (input: Input<C>)
    ensures input.key == key && input.handler == handler && input.lastUsageTick == 0
  {
    Input(name, key, isRepeatable, cooldownDurationInTicks, canBeUsedOutsideOfMapEditor, handler, 0)
  }

  /** A binding table built with `ToDictionary(input => input.Key)`: each binding sits under its own key. */
  predicate KeyedByOwnKey<C>(inputs: map<Key, Input<C>>) {
    forall k :: k in inputs ==> inputs[k].key == k
  }

  /** `canBeUsedOutsideOfMapEditor || isInMapEditorMode && !canBeUsedOutsideOfMapEditor` */
  predicate EditModeGate(canBeUsedOutsideOfMapEditor: bool, isInMapEditorMode: bool) {
    canBeUsedOutsideOfMapEditor || (isInMapEditorMode && !canBeUsedOutsideOfMapEditor)
  }

  /** The gate reduces to "usable outside, or in the editor". */
  lemma EditModeGateReduces(canBeUsedOutsideOfMapEditor: bool, isInMapEditorMode: bool)
    ensures EditModeGate(canBeUsedOutsideOfMapEditor, isInMapEditorMode) <==> canBeUsedOutsideOfMapEditor || isInMapEditorMode
  {
  }

  /** `shouldHandleInput` of HandleKeys for the held key `key` bound to `input`. */
  predicate ShouldHandle<C>(input: Input<C>, key: Key, isInMapEditorMode: bool, tick: int, handled: set<Key>): (b: bool)
    ensures b ==> input.canBeUsedOutsideOfMapEditor || isInMapEditorMode
    ensures b ==> input.lastUsageTick + input.cooldownDurationInTicks < tick
  {
    EditModeGate(input.canBeUsedOutsideOfMapEditor, isInMapEditorMode) &&
    tick - input.lastUsageTick > input.cooldownDurationInTicks &&
    (input.isRepeatable || key !in handled)
  }

  /** A binding that fired at tick `t` stays blocked up to and including tick `t + cooldown`. */
  lemma CooldownBlocks<C>(input: Input<C>, key: Key, isInMapEditorMode: bool, tick: int, handled: set<Key>)
    requires tick <= input.lastUsageTick + input.cooldownDurationInTicks
    ensures !ShouldHandle(input, key, isInMapEditorMode, tick, handled)
  {
  }

  /** A non-repeatable key that is already handled does not fire, whatever the tick. */
  lemma HandledKeyBlocked<C>(input: Input<C>, key: Key, isInMapEditorMode: bool, tick: int, handled: set<Key>)
    requires !input.isRepeatable && key in handled
    ensures !ShouldHandle(input, key, isInMapEditorMode, tick, handled)
  {
  }

  /**
   * What HandleKeys reads and writes: the binding table (for the stamps), the
   * handled set, the edit-mode flag (which only a toggling handler changes)
   * and the handlers run so far, in order.
   */
  datatype DispatchState<C> = DispatchState(
    inputs: map<Key, Input<C>>,
    handled: set<Key>,
    isInMapEditorMode: bool,
    fired: seq<C>)

  /** Whether the held key `key` fires in state `s`. */
  predicate Fires<C>(s: DispatchState<C>, key: Key, tick: int) {
    key in s.inputs && ShouldHandle(s.inputs[key], key, s.isInMapEditorMode, tick, s.handled)
  }

  /** One iteration of the HandleKeys loop. `toggles` tells which handlers flip the edit mode. */
  function Step<C>(s: DispatchState<C>, key: Key, tick: int, toggles: C -> bool): (r: DispatchState<C>)
    ensures |r.fired| <= |s.fired| + 1
  {
    if !Fires(s, key, tick) then s
    else
      var input := s.inputs[key];
      DispatchState(
        s.inputs[key := input.(lastUsageTick := tick)],
        if input.isRepeatable then s.handled else s.handled + {key},
        if toggles(input.handler) then !s.isInMapEditorMode else s.isInMapEditorMode,
        s.fired + [input.handler])
  }

  /** The HandleKeys loop over the held keys in enumeration order. */
  function Dispatch<C>(s: DispatchState<C>, keys: seq<Key>, tick: int, toggles: C -> bool): (r: DispatchState<C>)
    ensures |s.fired| <= |r.fired| <= |s.fired| + |keys|
  {
    if keys == [] then s
    else Step(Dispatch(s, keys[..|keys| - 1], tick, toggles), keys[|keys| - 1], tick, toggles)
  }

  /**
   * One iteration fires exactly when the gate holds; firing stamps the
   * binding with the tick, keeps every other field and every other binding,
   * adds a non-repeatable key to the handled set and runs its handler once.
   */
  lemma StepEffect<C>(s: DispatchState<C>, key: Key, tick: int, toggles: C -> bool)
    ensures var r := Step(s, key, tick, toggles);
      r.inputs.Keys == s.inputs.Keys &&
      (forall k :: k in s.inputs && k != key ==> r.inputs[k] == s.inputs[k]) &&
      s.handled <= r.handled &&
      (Fires(s, key, tick) ==>
        r.inputs[key] == s.inputs[key].(lastUsageTick := tick) &&
        r.fired == s.fired + [s.inputs[key].handler] &&
        (!s.inputs[key].isRepeatable ==> key in r.handled)) &&
      (!Fires(s, key, tick) ==> r == s)
  {
  }

  /**
   * Over a whole tick: the binding table keeps its keys, only held keys are
   * stamped (and then with the current tick), the handled set only grows and
   * only by held keys, and the handlers run are appended to what was run
   * before, at most one per held key.
   */
  lemma {:induction false} DispatchEffect<C>(s: DispatchState<C>, keys: seq<Key>, tick: int, toggles: C -> bool)
    ensures var r := Dispatch(s, keys, tick, toggles);
      r.inputs.Keys == s.inputs.Keys &&
      (forall k :: k in s.inputs && k !in keys ==> r.inputs[k] == s.inputs[k]) &&
      (forall k :: k in s.inputs ==>
        r.inputs[k] == s.inputs[k] || r.inputs[k] == s.inputs[k].(lastUsageTick := tick)) &&
      s.handled <= r.handled &&
      (forall k :: k in r.handled ==> k in s.handled || k in keys) &&
      |s.fired| <= |r.fired| <= |s.fired| + |keys| &&
      r.fired[..|s.fired|] == s.fired
  {
    if keys != [] {
      var prefix := keys[..|keys| - 1];
      var key := keys[|keys| - 1];
      DispatchEffect(s, prefix, tick, toggles);
      var before := Dispatch(s, prefix, tick, toggles);
      StepEffect(before, key, tick, toggles);
      forall k | k in s.inputs && k !in keys
        ensures Dispatch(s, keys, tick, toggles).inputs[k] == s.inputs[k]
      {
        assert k !in prefix;
      }
      forall k | k in Dispatch(s, keys, tick, toggles).handled
        ensures k in s.handled || k in keys
      {
        if k in before.handled {
          assert k in s.handled || k in prefix;
        }
      }
      var r := Dispatch(s, keys, tick, toggles);
      if Fires(before, key, tick) {
        assert r.fired[..|s.fired|] == before.fired[..|s.fired|];
      }
    }
  }

  /**
   * A non-repeatable binding fires at most once while its key stays held:
   * once handled, no dispatch of any later tick fires it, and it stays handled.
   */
  lemma {:induction false} HandledStaysBlocked<C>(s: DispatchState<C>, keys: seq<Key>, tick: int, toggles: C -> bool, key: Key)
    requires key in s.inputs && !s.inputs[key].isRepeatable && key in s.handled
    ensures var r := Dispatch(s, keys, tick, toggles);
      key in r.handled && key in r.inputs && r.inputs[key] == s.inputs[key] && !r.inputs[key].isRepeatable
  {
    if keys != [] {
      HandledStaysBlocked(s, keys[..|keys| - 1], tick, toggles, key);
    }
  }

  /**
   * The handlers a dispatch over the first `n` held keys runs are the first
   * ones the dispatch over all of them runs: later keys only append.
   */
  lemma {:induction false} DispatchPrefixFired<C>(s: DispatchState<C>, keys: seq<Key>, n: nat, tick: int, toggles: C -> bool)
    requires n <= |keys|
    ensures var a, b := Dispatch(s, keys[..n], tick, toggles).fired, Dispatch(s, keys, tick, toggles).fired;
      |a| <= |b| && b[..|a|] == a
  {
    if n == |keys| {
      assert keys[..n] == keys;
    } else {
      var prefix := keys[..|keys| - 1];
      assert prefix[..n] == keys[..n];
      DispatchPrefixFired(s, prefix, n, tick, toggles);
      var a, m, b := Dispatch(s, keys[..n], tick, toggles).fired, Dispatch(s, prefix, tick, toggles).fired, Dispatch(s, keys, tick, toggles).fired;
      assert b[..|m|] == m;
      assert b[..|a|] == m[..|a|];
    }
  }

  /** Every binding stays under its own key through a dispatch. */
  lemma {:induction false} DispatchKeepsKeyed<C>(s: DispatchState<C>, keys: seq<Key>, tick: int, toggles: C -> bool)
    requires KeyedByOwnKey(s.inputs)
    ensures KeyedByOwnKey(Dispatch(s, keys, tick, toggles).inputs)
  {
    if keys != [] {
      DispatchKeepsKeyed(s, keys[..|keys| - 1], tick, toggles);
    }
  }

  /** When no handler toggles the editor, the edit-mode flag is the same through the whole tick. */
  lemma {:induction false} DispatchKeepsModeWithoutToggle<C>(s: DispatchState<C>, keys: seq<Key>, tick: int, toggles: C -> bool)
    requires forall k :: k in s.inputs ==> !toggles(s.inputs[k].handler)
    ensures Dispatch(s, keys, tick, toggles).isInMapEditorMode == s.isInMapEditorMode
  {
    if keys != [] {
      var prefix := keys[..|keys| - 1];
      DispatchKeepsModeWithoutToggle(s, prefix, tick, toggles);
      DispatchEffect(s, prefix, tick, toggles);
    }
  }
}
