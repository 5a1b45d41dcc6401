/**
 * The character's locomotion state machine (`FiniteStateMachine`, `CharacterFSM` and the eight
 * state classes), its keyboard snapshot (`BasicCharacterControllerInput`), the state-dependent
 * camera offset of `ThirdPersonCamera`, the guard of `Character.update` and its z-damping clamp.
 *
 * The animation mixer is not modelled: every call the states make on clip actions and on the
 * mixer is recorded, in order, as a `ClipEvent` in the machine's log.
 */
module Character {
  import opened Common

  // ---------------------------------------------------------------------------------------------
  // State names and the state registry

  /** The eight registered states. */
  datatype StateName =
    | Idle | WalkForward | WalkBackward | RunForward | RunBackward | TurnRight | TurnLeft | PushButton

  /** The registry `this.states` filled by `CharacterFSM.init`: a name to the state it creates. */
  function Lookup(name: string): Option<StateName>
  {
    if name == "idle" then Some(Idle)
    else if name == "walkForward" then Some(WalkForward)
    else if name == "walkBackward" then Some(WalkBackward)
    else if name == "runForward" then Some(RunForward)
    else if name == "runBackward" then Some(RunBackward)
    else if name == "turnRight" then Some(TurnRight)
    else if name == "turnLeft" then Some(TurnLeft)
    else if name == "pushButton" then Some(PushButton)
    else None
  }

  /** The `Name` getter of each state class; every name is registered under itself. */
  function Name(s: StateName): string
  {
    match s
    case Idle => "idle"
    case WalkForward => "walkForward"
    case WalkBackward => "walkBackward"
    case RunForward => "runForward"
    case RunBackward => "runBackward"
    case TurnRight => "turnRight"
    case TurnLeft => "turnLeft"
    case PushButton => "pushButton"
  }

  /** The registry and the `Name` getters agree: a state is found under its own name and only there. */
  lemma LookupInvertsName(s: StateName, name: string)
    ensures Lookup(Name(s)) == Some(s)
    ensures Lookup(name) == Some(s) <==> name == Name(s)
  {
  }

  // ---------------------------------------------------------------------------------------------
  // The key snapshot

  /** `input.keys`: the six flags the states read. */
  datatype Keys = Keys(forward: bool, backward: bool, left: bool, right: bool, space: bool, shift: bool)

  const NoKeys := Keys(false, false, false, false, false, false)

  datatype Flag = Forward | Backward | Left | Right | Space | Shift

  function Get(k: Keys, f: Flag): bool
  {
    match f
    case Forward => k.forward
    case Backward => k.backward
    case Left => k.left
    case Right => k.right
    case Space => k.space
    case Shift => k.shift
  }

  /** The snapshot with flag `f` set to `v`; every other flag keeps its value. */
  function Set(k: Keys, f: Flag, v: bool): (r: Keys)
    ensures Get(r, f) == v
    ensures forall g :: g != f ==> Get(r, g) == Get(k, g)
  {
    match f
    case Forward => k.(forward := v)
    case Backward => k.(backward := v)
    case Left => k.(left := v)
    case Right => k.(right := v)
    case Space => k.(space := v)
    case Shift => k.(shift := v)
  }

  /** The flag a key code is bound to: W, A, S, D, space and shift. */
  function KeyFlag(keyCode: int): (f: Option<Flag>)
    ensures f.Some? <==> keyCode in {87, 65, 83, 68, 32, 16}
  {
    if keyCode == 87 then Some(Forward)
    else if keyCode == 65 then Some(Left)
    else if keyCode == 83 then Some(Backward)
    else if keyCode == 68 then Some(Right)
    else if keyCode == 32 then Some(Space)
    else if keyCode == 16 then Some(Shift)
    else None
  }

  /** The snapshot after a key event: `down` is true for keydown and false for keyup. */
  function KeyEvent(k: Keys, keyCode: int, down: bool): (r: Keys)
  {
    match KeyFlag(keyCode)
    case Some(f) => Set(k, f, down)
    case None => k
  }

  /** A key event changes exactly the flag bound to its code, to `down`, and no other flag. */
  lemma KeyEventChangesOnlyItsFlag(k: Keys, keyCode: int, down: bool, g: Flag)
    ensures Get(KeyEvent(k, keyCode, down), g) ==
            (if KeyFlag(keyCode) == Some(g) then down else Get(k, g))
  {
  }

  /** Pressing and then releasing a key leaves the snapshot as releasing it alone would. */
  lemma {:induction false} KeyUpUndoesKeyDown(k: Keys, keyCode: int)
    ensures KeyEvent(KeyEvent(k, keyCode, true), keyCode, false) == KeyEvent(k, keyCode, false)
  {
    match KeyFlag(keyCode)
    case None =>
    case Some(f) => SetTwice(k, f, true, false);
  }

  /** Setting a flag twice is setting it to the second value. */
  lemma {:induction false} SetTwice(k: Keys, f: Flag, a: bool, b: bool)
    ensures Set(Set(k, f, a), f, b) == Set(k, f, b)
  {
    match f
    case Forward =>
    case Backward =>
    case Left =>
    case Right =>
    case Space =>
    case Shift =>
  }

  /** `BasicCharacterControllerInput`: the keyboard listener that fills the snapshot in place. */
  class ControllerInput {
    var keys: Keys

    constructor ()
      ensures keys == NoKeys
    {
      keys := NoKeys;
    }

    method OnKeyDown(keyCode: int)
      modifies this
      ensures keys == KeyEvent(old(keys), keyCode, true)
    {
      if keyCode == 87 {
        keys := keys.(forward := true);
      } else if keyCode == 65 {
        keys := keys.(left := true);
      } else if keyCode == 83 {
        keys := keys.(backward := true);
      } else if keyCode == 68 {
        keys := keys.(right := true);
      } else if keyCode == 32 {
        keys := keys.(space := true);
      } else if keyCode == 16 {
        keys := keys.(shift := true);
      }
    }

    method OnKeyUp(keyCode: int)
      modifies this
      ensures keys == KeyEvent(old(keys), keyCode, false)
    {
      if keyCode == 87 {
        keys := keys.(forward := false);
      } else if keyCode == 65 {
        keys := keys.(left := false);
      } else if keyCode == 83 {
        keys := keys.(backward := false);
      } else if keyCode == 68 {
        keys := keys.(right := false);
      } else if keyCode == 32 {
        keys := keys.(space := false);
      } else if keyCode == 16 {
        keys := keys.(shift := false);
      }
    }
  }

  // ---------------------------------------------------------------------------------------------
  // What the states do to the animation mixer, as a log

  /** One call the state machine makes on the clip actions, the mixer or the scene. */
  datatype ClipEvent =
    | Exited(state: StateName)                         // `Exit()` of the state being left
    | Entered(state: StateName, prev: Option<StateName>) // `Enter(prevState)` of the new state
    | Play(clip: StateName)                            // `action.play()`
    | Restart(clip: StateName)                         // enabled, time 0, time scale 1, weight 1
    | SyncPlayhead(clip: StateName, from: StateName)   // enabled, time scaled by the clip duration ratio
    | ResetPlayOnce(clip: StateName)                   // `reset()`, `LoopOnce`, clamp when finished
    | CrossFade(from: StateName, to: StateName, seconds: real)
    | AddFinishedListener                              // `mixer.addEventListener('finished', …)`
    | RemoveUndefinedListener                          // `removeEventListener('finished', this.CleanupCallback)`
    | InteractionTriggered                             // `sketch.triggerInteractionEvent()`

  const LocomotionBlend: real := 0.5
  const InteractionBlend: real := 0.2

  /** Walk and run in the same direction: the new clip's playhead is carried over from the old one. */
  predicate SameGait(s: StateName, prev: StateName)
  {
    || (s == WalkForward && prev == RunForward)
    || (s == RunForward && prev == WalkForward)
    || (s == WalkBackward && prev == RunBackward)
    || (s == RunBackward && prev == WalkBackward)
  }

  /** The clip work `Enter(prev)` of state `s` does after its `Entered` marker. */
  function EnterEffects(s: StateName, prev: Option<StateName>): seq<ClipEvent>
  {
    if s == PushButton then
      [AddFinishedListener, InteractionTriggered]
      + (if prev.Some? then [ResetPlayOnce(s), CrossFade(prev.value, s, InteractionBlend)] else [])
      + [Play(s)]
    else if prev.None? then
      [Play(s)]
    else
      [if SameGait(s, prev.value) then SyncPlayhead(s, prev.value) else Restart(s),
       CrossFade(prev.value, s, LocomotionBlend),
       Play(s)]
  }

  /** The work `Exit()` of state `s` does: only `PushButton` cleans up, and what it removes was never added. */
  function ExitEffects(s: StateName): seq<ClipEvent>
  {
    if s == PushButton then [RemoveUndefinedListener] else []
  }

  function Leave(s: StateName): seq<ClipEvent>
  {
    [Exited(s)] + ExitEffects(s)
  }

  function Arrive(s: StateName, prev: Option<StateName>): seq<ClipEvent>
  {
    [Entered(s, prev)] + EnterEffects(s, prev)
  }

  /** The work a transition from a current state `from` (if any) to `to` logs. */
  function Transition(from: Option<StateName>, to: StateName): seq<ClipEvent>
  {
    (if from.Some? then Leave(from.value) else []) + Arrive(to, from)
  }

  // ---------------------------------------------------------------------------------------------
  // The machine as a value and its operations as functions

  /** The observable state of a `CharacterFSM`: its current state, the log, and the number of
      'finished' listeners registered on the mixer. */
  datatype Machine = Machine(current: Option<StateName>, log: seq<ClipEvent>, listeners: nat)

  const Initial := Machine(None, [], 0)

  /** `SetState(name)`: nothing when `name` is current; otherwise exit the current state, make the
      new one current, and enter it with the old one as `prevState`. */
  function Switch(m: Machine, name: StateName): (r: Machine)
    ensures r.current == Some(name)
    ensures m.current == Some(name) ==> r == m
    ensures m.current != Some(name) ==>
              r.log == m.log + Transition(m.current, name) &&
              r.listeners == m.listeners + (if name == PushButton then 1 else 0)
  {
    if m.current == Some(name) then m
    else Machine(Some(name), m.log + Transition(m.current, name),
                 m.listeners + (if name == PushButton then 1 else 0))
  }

  /** `SetState(name)` with a string: an unregistered name throws once the current state has been
      exited, leaving that state current (the boolean is false). */
  function SwitchNamed(m: Machine, name: string): (r: (Machine, bool))
    ensures r.1 <==> Lookup(name).Some?
    ensures r.1 ==> r.0 == Switch(m, Lookup(name).value)
    ensures !r.1 ==> r.0.current == m.current && r.0.listeners == m.listeners
    ensures !r.1 ==> r.0.log == m.log + (if m.current.Some? then Leave(m.current.value) else [])
  {
    match Lookup(name)
    case Some(s) => (Switch(m, s), true)
    case None => (m.(log := m.log + (if m.current.Some? then Leave(m.current.value) else [])), false)
  }

  /** `FiniteStateMachine.Update`: the current state's `Update`, whose `SetState` calls run in
      sequence on the shared machine. */
  function Tick(m: Machine, k: Keys): Machine
  {
    match m.current
    case None => m
    case Some(Idle) =>
      var m1 := if !k.forward && !k.backward && k.right then Switch(m, TurnRight) else m;
      if !k.forward && !k.backward && k.left then Switch(m1, TurnLeft)
      else if k.forward then Switch(m1, WalkForward)
      else if k.backward then Switch(m1, WalkBackward)
      else if k.space then Switch(m1, PushButton)
      else m1
    case Some(WalkForward) =>
      if k.forward || k.backward then (if k.shift then Switch(m, RunForward) else m)
      else Switch(m, Idle)
    case Some(WalkBackward) =>
      if k.forward || k.backward then (if k.shift then Switch(m, RunBackward) else m)
      else Switch(m, Idle)
    case Some(RunForward) =>
      if k.forward then (if !k.shift then Switch(m, WalkForward) else m)
      else Switch(m, Idle)
    case Some(RunBackward) =>
      if k.backward then (if !k.shift then Switch(m, WalkBackward) else m)
      else Switch(m, Idle)
    case Some(TurnRight) =>
      if !k.forward && !k.backward && k.right then m else Switch(m, Idle)
    case Some(TurnLeft) =>
      if !k.forward && !k.backward && k.left then m else Switch(m, Idle)
    case Some(PushButton) => m
  }

  /** `PushButtonState.Finished` run by one registered listener: `Cleanup()`, then `SetState('idle')`. */
  function Finish(m: Machine): Machine
  {
    Switch(m.(log := m.log + [RemoveUndefinedListener]), Idle)
  }

  /** The mixer's 'finished' event delivered to `n` listeners, one after another. */
  function FireFinished(m: Machine, n: nat): Machine
    decreases n
  {
    if n == 0 then m else FireFinished(Finish(m), n - 1)
  }

  // ---------------------------------------------------------------------------------------------
  // Reference transition table and the properties of a tick

  /** The state one tick ends in, read as a priority table. In `Idle`, space outranks a lone right
      key, because the right-turn check is an `if` of its own and the chain after it still runs. */
  function Next(s: StateName, k: Keys): StateName
  {
    var still := !k.forward && !k.backward;
    match s
    case Idle =>
      if still && k.left then TurnLeft
      else if k.forward then WalkForward
      else if k.backward then WalkBackward
      else if k.space then PushButton
      else if k.right then TurnRight
      else Idle
    case WalkForward => if still then Idle else if k.shift then RunForward else WalkForward
    case WalkBackward => if still then Idle else if k.shift then RunBackward else WalkBackward
    case RunForward => if !k.forward then Idle else if k.shift then RunForward else WalkForward
    case RunBackward => if !k.backward then Idle else if k.shift then RunBackward else WalkBackward
    case TurnRight => if still && k.right then TurnRight else Idle
    case TurnLeft => if still && k.left then TurnLeft else Idle
    case PushButton => PushButton
  }

  /** A tick ends in the state the table gives; with no current state it changes nothing. */
  lemma {:induction false} TickFollowsTable(m: Machine, k: Keys)
    ensures m.current.None? ==> Tick(m, k) == m
    ensures m.current.Some? ==> Tick(m, k).current == Some(Next(m.current.value, k))
  {
    if m.current == Some(Idle) {
      var m1 := if !k.forward && !k.backward && k.right then Switch(m, TurnRight) else m;
      assert m1.current.Some?;
    }
  }

  /** Outside `Idle`, a tick makes at most one transition, straight to the table's state, and logs
      exactly that transition. */
  lemma {:induction false} TickOutsideIdleIsOneTransition(m: Machine, k: Keys)
    requires m.current.Some? && m.current != Some(Idle)
    ensures var s := m.current.value;
            var r := Tick(m, k);
            if Next(s, k) == s then r == m
            else r.log == m.log + Leave(s) + Arrive(Next(s, k), Some(s))
  {
  }

  /** In `Idle` with right held and neither forward nor backward, the right-turn check and the
      chain after it both fire: with left or space also held, one tick passes through `TurnRight`. */
  lemma {:induction false} IdlePassesThroughTurnRight(m: Machine, k: Keys)
    requires m.current == Some(Idle)
    requires !k.forward && !k.backward && k.right && (k.left || k.space)
    ensures var t := if k.left then TurnLeft else PushButton;
            Tick(m, k).current == Some(t) &&
            Tick(m, k).log == m.log + Leave(Idle) + Arrive(TurnRight, Some(Idle))
                                    + Leave(TurnRight) + Arrive(t, Some(TurnRight))
  {
    var m1 := Switch(m, TurnRight);
    assert m1.log == m.log + Leave(Idle) + Arrive(TurnRight, Some(Idle));
  }

  /** `PushButton` ignores all input: only the mixer's 'finished' event leaves it. */
  lemma PushButtonIgnoresInput(m: Machine, k: Keys)
    requires m.current == Some(PushButton)
    ensures Tick(m, k) == m
  {
  }

  /** Each listener registered by an earlier `PushButton` entry stays registered: the first one moves
      the machine to `Idle`, every later one only logs its ineffective cleanup. */
  lemma {:induction false} FireFinishedActsOnce(m: Machine, n: nat)
    requires n >= 1
    ensures FireFinished(m, n) ==
            Finish(m).(log := Finish(m).log + seq(n - 1, _ => RemoveUndefinedListener))
    decreases n
  {
    if n > 1 {
      var f := Finish(m);
      FireFinishedActsOnce(f, n - 1);
      assert Finish(f) == f.(log := f.log + [RemoveUndefinedListener]);
      var tail := seq(n - 2, _ => RemoveUndefinedListener);
      assert [RemoveUndefinedListener] + tail == seq(n - 1, _ => RemoveUndefinedListener);
      assert f.log + [RemoveUndefinedListener] + tail == f.log + seq(n - 1, _ => RemoveUndefinedListener);
    }
  }

  /** Listeners are only ever added: no operation lowers the count. */
  lemma ListenersNeverDecrease(m: Machine, k: Keys, n: nat)
    ensures Tick(m, k).listeners >= m.listeners
    ensures FireFinished(m, n).listeners >= m.listeners
  {
    FireFinishedListeners(m, n);
  }

  lemma {:induction false} FireFinishedListeners(m: Machine, n: nat)
    ensures FireFinished(m, n).listeners >= m.listeners
    decreases n
  {
    if n > 0 {
      FireFinishedListeners(Finish(m), n - 1);
    }
  }

  // ---------------------------------------------------------------------------------------------
  // The log as a trace: each exit leaves the state that was current, each entry names it as prev

  /** The log, read from the front starting in `cur`, exits only the current state and enters each
      new state with the one before it as `prev`. */
  predicate ValidTrace(cur: Option<StateName>, log: seq<ClipEvent>)
    decreases |log|
  {
    if log == [] then true
    else match log[0]
      case Exited(s) => cur == Some(s) && ValidTrace(cur, log[1..])
      case Entered(s, prev) => prev == cur && ValidTrace(Some(s), log[1..])
      case _ => ValidTrace(cur, log[1..])
  }

  /** The state a log entered last, starting in `cur`. */
  function LastEntered(cur: Option<StateName>, log: seq<ClipEvent>): Option<StateName>
    decreases |log|
  {
    if log == [] then cur
    else match log[0]
      case Entered(s, _) => LastEntered(Some(s), log[1..])
      case _ => LastEntered(cur, log[1..])
  }

  /** The machine's log is a valid trace from no state, and its current state is the last one entered. */
  ghost predicate Consistent(m: Machine)
  {
    ValidTrace(None, m.log) && LastEntered(None, m.log) == m.current
  }

  lemma {:induction false} TraceAppend(cur: Option<StateName>, a: seq<ClipEvent>, b: seq<ClipEvent>)
    ensures ValidTrace(cur, a + b) == (ValidTrace(cur, a) && ValidTrace(LastEntered(cur, a), b))
    ensures LastEntered(cur, a + b) == LastEntered(LastEntered(cur, a), b)
    decreases |a|
  {
    if a == [] {
      assert a + b == b;
    } else {
      assert (a + b)[0] == a[0];
      assert (a + b)[1..] == a[1..] + b;
      match a[0]
      case Entered(s, _) => TraceAppend(Some(s), a[1..], b);
      case _ => TraceAppend(cur, a[1..], b);
    }
  }

  /** A transition logged from the current state is a valid trace and ends in the new state. */
  lemma {:induction false} TransitionIsTrace(from: Option<StateName>, to: StateName)
    ensures ValidTrace(from, Transition(from, to))
    ensures LastEntered(from, Transition(from, to)) == Some(to)
  {
    var arrive := Arrive(to, from);
    assert ValidTrace(Some(to), EnterEffects(to, from)) && LastEntered(Some(to), EnterEffects(to, from)) == Some(to) by {
      EffectsAreQuiet(Some(to), EnterEffects(to, from));
    }
    assert arrive[1..] == EnterEffects(to, from);
    if from.Some? {
      var leave := Leave(from.value);
      assert ValidTrace(from, leave[1..]) && LastEntered(from, leave[1..]) == from by {
        EffectsAreQuiet(from, leave[1..]);
      }
      TraceAppend(from, leave, arrive);
    } else {
      assert Transition(from, to) == arrive;
    }
  }

  /** Events other than exits and entries never break a trace nor change the state it ends in. */
  lemma {:induction false} EffectsAreQuiet(cur: Option<StateName>, log: seq<ClipEvent>)
    requires forall i :: 0 <= i < |log| ==> !log[i].Exited? && !log[i].Entered?
    ensures ValidTrace(cur, log) && LastEntered(cur, log) == cur
    decreases |log|
  {
    if log != [] {
      EffectsAreQuiet(cur, log[1..]);
    }
  }

  lemma {:induction false} SwitchKeepsConsistent(m: Machine, name: StateName)
    requires Consistent(m)
    ensures Consistent(Switch(m, name))
  {
    if m.current != Some(name) {
      TraceAppend(None, m.log, Transition(m.current, name));
      TransitionIsTrace(m.current, name);
    }
  }

  /** Every tick keeps the log a valid trace that ends in the current state. */
  lemma {:induction false} TickKeepsConsistent(m: Machine, k: Keys)
    requires Consistent(m)
    ensures Consistent(Tick(m, k))
  {
    match m.current
    case None =>
    case Some(Idle) =>
      var m1 := if !k.forward && !k.backward && k.right then Switch(m, TurnRight) else m;
      SwitchKeepsConsistent(m, TurnRight);
      SwitchKeepsConsistent(m1, TurnLeft);
      SwitchKeepsConsistent(m1, WalkForward);
      SwitchKeepsConsistent(m1, WalkBackward);
      SwitchKeepsConsistent(m1, PushButton);
    case Some(s) =>
      SwitchKeepsConsistent(m, Next(s, k));
  }

  lemma {:induction false} FinishKeepsConsistent(m: Machine)
    requires Consistent(m)
    ensures Consistent(Finish(m))
  {
    var m0 := m.(log := m.log + [RemoveUndefinedListener]);
    TraceAppend(None, m.log, [RemoveUndefinedListener]);
    EffectsAreQuiet(m.current, [RemoveUndefinedListener]);
    SwitchKeepsConsistent(m0, Idle);
  }

  lemma {:induction false} FireFinishedKeepsConsistent(m: Machine, n: nat)
    requires Consistent(m)
    ensures Consistent(FireFinished(m, n))
    decreases n
  {
    if n > 0 {
      FinishKeepsConsistent(m);
      FireFinishedKeepsConsistent(Finish(m), n - 1);
    }
  }

  // ---------------------------------------------------------------------------------------------
  // The state machine object

  /** `CharacterFSM`: the current state object and, standing for the mixer, the log and the
      listener count. */
  class StateMachine {
    var current: Option<StateName>
    var log: seq<ClipEvent>
    var listeners: nat

    function Snapshot(): Machine
      reads this
    {
      Machine(current, log, listeners)
    }

    ghost predicate Valid()
      reads this
    {
      Consistent(Snapshot())
    }

    constructor ()
      ensures Snapshot() == Initial && Valid()
    {
      current, log, listeners := None, [], 0;
    }

    /** The current state's `Exit()`. */
    method Exit()
      requires current.Some?
      modifies this`log
      ensures log == old(log) + Leave(current.value)
    {
      log := log + [Exited(current.value)];
      if current.value == PushButton {
        // Cleanup(): the listener it names is `this.CleanupCallback`, which was never added.
        log := log + [RemoveUndefinedListener];
      }
    }

    /** The current state's `Enter(prevState)`. */
    method Enter(prev: Option<StateName>)
      requires current.Some?
      modifies this`log, this`listeners
      ensures log == old(log) + Arrive(current.value, prev)
      ensures listeners == old(listeners) + (if current.value == PushButton then 1 else 0)
    {
      var s := current.value;
      log := log + [Entered(s, prev)];
      if s == PushButton {
        listeners := listeners + 1;
        log := log + [AddFinishedListener, InteractionTriggered];
        if prev.Some? {
          log := log + [ResetPlayOnce(s), CrossFade(prev.value, s, InteractionBlend)];
        }
        log := log + [Play(s)];
      } else if prev.Some? {
        if SameGait(s, prev.value) {
          log := log + [SyncPlayhead(s, prev.value)];
        } else {
          log := log + [Restart(s)];
        }
        log := log + [CrossFade(prev.value, s, LocomotionBlend), Play(s)];
      } else {
        log := log + [Play(s)];
      }
    }

    method SetState(name: StateName)
      requires Valid()
      modifies this
      ensures Snapshot() == Switch(old(Snapshot()), name) && Valid()
    {
      SwitchKeepsConsistent(Snapshot(), name);
      if current == Some(name) {
        return;
      }
      Move(name);
    }

    /** The part of `SetState` after the name check: exit the current state, then enter `name`. */
    method Move(name: StateName)
      requires current != Some(name)
      modifies this
      ensures current == Some(name)
      ensures log == old(log) + Transition(old(current), name)
      ensures listeners == old(listeners) + (if name == PushButton then 1 else 0)
    {
      var prev := current;
      if prev.Some? {
        Exit();
      }
      ghost var exited := log;
      current := Some(name);
      Enter(prev);
      assert log == exited + Arrive(name, prev);
    }

    /** `SetState` called with a string, as the states and the loading manager do. */
    method SetStateNamed(name: string) returns (ok: bool)
      modifies this
      ensures (Snapshot(), ok) == SwitchNamed(old(Snapshot()), name)
    {
      var prev := current;
      if prev.Some? {
        LookupInvertsName(prev.value, name);
        if Name(prev.value) == name {
          return true;
        }
        Exit();
      }
      var state := Lookup(name);
      assert log == old(log) + (if prev.Some? then Leave(prev.value) else []);
      if state.None? {
        // `new this.states[name](this)` throws: the exited state stays current.
        return false;
      }
      ghost var exited := log;
      current := state;
      Enter(prev);
      assert log == exited + Arrive(state.value, prev);
      assert log == old(log) + Transition(prev, state.value);
      ok := true;
    }

    method UpdateIdle(keys: Keys)
      requires Valid() && current == Some(Idle)
      modifies this
      ensures Snapshot() == Tick(old(Snapshot()), keys) && Valid()
    {
      if !keys.forward && !keys.backward && keys.right {
        SetState(TurnRight);
      }
      if !keys.forward && !keys.backward && keys.left {
        SetState(TurnLeft);
      } else if keys.forward {
        SetState(WalkForward);
      } else if keys.backward {
        SetState(WalkBackward);
      } else if keys.space {
        SetState(PushButton);
      }
    }

    /** `WalkForwardState.Update` and `WalkBackwardState.Update`. */
    method UpdateWalk(keys: Keys)
      requires Valid() && current in {Some(WalkForward), Some(WalkBackward)}
      modifies this
      ensures Snapshot() == Tick(old(Snapshot()), keys) && Valid()
    {
      if keys.forward || keys.backward {
        if keys.shift {
          SetState(if current == Some(WalkForward) then RunForward else RunBackward);
        }
        return;
      }
      SetState(Idle);
    }

    /** `RunForwardState.Update` and `RunBackwardState.Update`. */
    method UpdateRun(keys: Keys)
      requires Valid() && current in {Some(RunForward), Some(RunBackward)}
      modifies this
      ensures Snapshot() == Tick(old(Snapshot()), keys) && Valid()
    {
      var forward := current == Some(RunForward);
      if (if forward then keys.forward else keys.backward) {
        if !keys.shift {
          SetState(if forward then WalkForward else WalkBackward);
        }
        return;
      }
      SetState(Idle);
    }

    /** `TurnRightState.Update` and `TurnLeftState.Update`. */
    method UpdateTurn(keys: Keys)
      requires Valid() && current in {Some(TurnRight), Some(TurnLeft)}
      modifies this
      ensures Snapshot() == Tick(old(Snapshot()), keys) && Valid()
    {
      var held := if current == Some(TurnRight) then keys.right else keys.left;
      if !keys.forward && !keys.backward && held {
        return;
      }
      SetState(Idle);
    }

    /** `FiniteStateMachine.Update`: nothing without a current state. */
    method Update(keys: Keys)
      requires Valid()
      modifies this
      ensures Snapshot() == Tick(old(Snapshot()), keys) && Valid()
    {
      match current
      case None =>
      case Some(Idle) => UpdateIdle(keys);
      case Some(WalkForward) => UpdateWalk(keys);
      case Some(WalkBackward) => UpdateWalk(keys);
      case Some(RunForward) => UpdateRun(keys);
      case Some(RunBackward) => UpdateRun(keys);
      case Some(TurnRight) => UpdateTurn(keys);
      case Some(TurnLeft) => UpdateTurn(keys);
      case Some(PushButton) =>
    }

    /** `PushButtonState.Finished`, as run by one listener. */
    method Finished()
      requires Valid()
      modifies this
      ensures Snapshot() == Finish(old(Snapshot())) && Valid()
    {
      FinishKeepsConsistent(Snapshot());
      TraceAppend(None, log, [RemoveUndefinedListener]);
      EffectsAreQuiet(current, [RemoveUndefinedListener]);
      log := log + [RemoveUndefinedListener];
      SetState(Idle);
    }

    /** The mixer dispatching 'finished' to every listener registered so far. */
    method MixerFinished()
      requires Valid()
      modifies this
      ensures Snapshot() == FireFinished(old(Snapshot()), old(listeners)) && Valid()
    {
      var n := listeners;
      var i := 0;
      while i < n
        invariant 0 <= i <= n
        invariant Valid()
        invariant Snapshot() == FireFinished(old(Snapshot()), i)
      {
        FireFinishedStep(old(Snapshot()), i);
        Finished();
        i := i + 1;
      }
    }
  }

  lemma {:induction false} FireFinishedStep(m: Machine, i: nat)
    ensures FireFinished(m, i + 1) == Finish(FireFinished(m, i))
    decreases i
  {
    if i > 0 {
      FireFinishedStep(Finish(m), i - 1);
    }
  }

  // ---------------------------------------------------------------------------------------------
  // Camera offset and the character's per-frame guard

  /** The camera offset before it is rotated and translated: walking pulls the camera back to -40,
      running backwards to -120; x and y are always the configured ones. */
  function IdealOffset(s: StateName, cameraOffset: Vec3): (r: Vec3)
    ensures r.x == cameraOffset.x && r.y == cameraOffset.y
    ensures s in {WalkForward, WalkBackward} ==> r.z == -40.0
    ensures s == RunBackward ==> r.z == -120.0
    ensures s !in {WalkForward, WalkBackward, RunBackward} ==> r.z == cameraOffset.z
  {
    if s == WalkForward || s == WalkBackward then cameraOffset.(z := -40.0)
    else if s == RunBackward then cameraOffset.(z := -120.0)
    else cameraOffset
  }

  /** The z deceleration of `Character.update` (rate -5 per second), clamped so that it can at most
      stop the character: the speed never grows and never changes sign. */
  function DampZ(vz: real, delta: real): (r: real)
    requires delta >= 0.0
    ensures (if r < 0.0 then -r else r) <= (if vz < 0.0 then -vz else vz)
    ensures r * vz >= 0.0
  {
    var d := vz * -5.0 * delta;
    var mag := if d < 0.0 then -d else d;
    var cap := if vz < 0.0 then -vz else vz;
    var sign := if d > 0.0 then 1.0 else if d < 0.0 then -1.0 else 0.0;
    var step := sign * (if mag < cap then mag else cap);
    assert vz > 0.0 ==> d <= 0.0;
    assert vz < 0.0 ==> d >= 0.0;
    vz + step
  }

  /** `Character`: the parts of it the per-frame guard and the state machine need. */
  class CharacterController {
    var hasModel: bool
    const fsm: StateMachine
    const input: ControllerInput

    constructor ()
      ensures !hasModel && fresh(fsm) && fresh(input)
      ensures fsm.Snapshot() == Initial && fsm.Valid() && input.keys == NoKeys
    {
      hasModel := false;
      fsm := new StateMachine();
      input := new ControllerInput();
    }

    /** The FBX model has loaded: `this.target` is set. */
    method OnModelLoaded()
      modifies this
      ensures hasModel
    {
      hasModel := true;
    }

    /** Every animation has loaded: the loading manager enters `idle`. */
    method OnAnimationsLoaded()
      requires fsm.Valid()
      modifies fsm
      ensures fsm.Snapshot() == Switch(old(fsm.Snapshot()), Idle) && fsm.Valid()
    {
      fsm.SetState(Idle);
    }

    /** `Character.update`: nothing until the model and a current state both exist; then one state
        machine tick, and the mixer's 'finished' event if the interaction clip ended this frame. */
    method Update(clipFinished: bool)
      requires fsm.Valid()
      modifies fsm
      ensures fsm.Valid()
      ensures !hasModel || old(fsm.current).None? ==> fsm.Snapshot() == old(fsm.Snapshot())
      ensures hasModel && old(fsm.current).Some? ==>
                var t := Tick(old(fsm.Snapshot()), input.keys);
                fsm.Snapshot() == if clipFinished then FireFinished(t, t.listeners) else t
    {
      if !hasModel || fsm.current.None? {
        return;
      }
      fsm.Update(input.keys);
      if clipFinished {
        fsm.MixerFinished();
      }
    }
  }
}
