/**
 * A value-level model of the input router of InputSystemRuntime/InputSystem.ts.
 *
 * The whole observable state of one `InputSystem` instance is an `Engine`
 * value: the pressed-code set, the bound axis and action mapping instances,
 * the four held-code sets and the sequence of gameplay callbacks invoked so
 * far. Every `process*` procedure, every `on*` wrapper, `bindAxis`,
 * `bindAction` and the per-frame update of the held-event handlers is a
 * function from the state before to the state after. The classes in
 * runtime.dfy are proved to implement exactly these functions.
 */
module EngineModel {
  import opened Wrappers
  import opened InputSystemConfig

  /** The identity of a bound callback together with its receiver (`func`, `target`). */
  datatype Callback = Callback(func: nat, target: nat)

  /** One synchronous invocation of a gameplay callback. */
  datatype Call =
    | AxisCall(name: Name, callback: Callback, value: real)
    | ActionCall(name: Name, callback: Callback)

  /** The state of an `AxisMapping` instance: name, callback and last delivered value. */
  datatype AxisState = AxisState(mappingName: Name, func: Callback, value: real)

  /** An `ActionMapping` instance; it has no state that changes. */
  datatype ActionMapping = ActionMapping(mappingName: Name, func: Callback) {
    /** `execute()`: call the callback with no argument. */
    function Execute(calls: seq<Call>): seq<Call>
    {
      calls + [ActionCall(mappingName, func)]
    }

    /** `cancel()`: the reserved hook calls nothing. */
    function Cancel(calls: seq<Call>): seq<Call>
    {
      calls
    }
  }

  /** A raw code as the mouse held-event handler sees it: `None` stands for JavaScript's `undefined`. */
  type MouseKey = Option<Code>

  datatype Engine = Engine(
    pressedCodes: set<Code>,
    axisMappingMap: map<Name, AxisState>,
    actionMappingMap: map<Name, ActionMapping>,
    touchHeld: seq<Code>,
    keyHeld: seq<Code>,
    mouseHeld: seq<MouseKey>,
    gamepadHeld: seq<Code>,
    calls: seq<Call>)

  /** A freshly constructed input system: nothing pressed, held or bound, no call made. */
  function Initial(): Engine
  {
    Engine({}, map[], map[], [], [], [], [], [])
  }

  // ---------------------------------------------------------------------
  // Held-code sets (`HeldEventHandler.heldCodes`), kept in insertion order
  // ---------------------------------------------------------------------

  predicate NoDup<K(==)>(s: seq<K>)
  {
    forall i, j :: 0 <= i < j < |s| ==> s[i] != s[j]
  }

  /** `Set.add`: a code already held changes nothing; a new one goes last. */
  function EventStart<K(==,!new)>(s: seq<K>, k: K): (r: seq<K>)
    ensures forall x :: x in r <==> x in s || x == k
    ensures k in s ==> r == s
    ensures NoDup(s) ==> NoDup(r)
    ensures |s| <= |r| <= |s| + 1 && r[..|s|] == s
  {
    if k in s then s else s + [k]
  }

  /** `Set.delete`: a code not held changes nothing; the others keep their order. */
  function EventEnd<K(==,!new)>(s: seq<K>, k: K): (r: seq<K>)
    ensures forall x :: x in r <==> x in s && x != k
    ensures k !in s ==> r == s
    decreases |s|
  {
    if s == [] then []
    else if s[0] == k then EventEnd(s[1..], k)
    else [s[0]] + EventEnd(s[1..], k)
  }

  /** The tail of a duplicate-free sequence is duplicate-free and does not hold the head. */
  lemma NoDupTail<K>(s: seq<K>)
    requires NoDup(s) && s != []
    ensures NoDup(s[1..]) && s[0] !in s[1..]
  {
    forall j | 0 <= j < |s[1..]| ensures s[1..][j] != s[0] {
      assert s[1..][j] == s[j + 1];
    }
    forall a, b | 0 <= a < b < |s[1..]| ensures s[1..][a] != s[1..][b] {
      assert s[1..][a] == s[a + 1] && s[1..][b] == s[b + 1];
    }
  }

  /** Deleting from a duplicate-free sequence leaves it duplicate-free. */
  lemma {:induction false} EventEndNoDup<K(!new)>(s: seq<K>, k: K)
    requires NoDup(s)
    ensures NoDup(EventEnd(s, k))
    decreases |s|
  {
    if s != [] {
      NoDupTail(s);
      EventEndNoDup(s[1..], k);
      if s[0] != k {
        var t := EventEnd(s[1..], k);
        assert EventEnd(s, k) == [s[0]] + t;
        forall i, j | 0 <= i < j < |[s[0]] + t| ensures ([s[0]] + t)[i] != ([s[0]] + t)[j] {
          assert ([s[0]] + t)[j] == t[j - 1];
          if i > 0 {
            assert ([s[0]] + t)[i] == t[i - 1];
          }
        }
      }
    }
  }

  /** In a duplicate-free sequence, deleting the code at index `i` removes exactly that element. */
  lemma {:induction false} EventEndAt<K(!new)>(s: seq<K>, k: K, i: int)
    requires NoDup(s) && 0 <= i < |s| && s[i] == k
    ensures EventEnd(s, k) == s[..i] + s[i + 1..]
    decreases |s|
  {
    NoDupTail(s);
    var t := s[1..];
    if i == 0 {
      assert EventEnd(s, k) == EventEnd(t, k) == t;
      assert s[..0] + s[1..] == t;
    } else {
      assert s[0] != k && t[i - 1] == k;
      assert EventEnd(s, k) == [s[0]] + EventEnd(t, k);
      EventEndAt(t, k, i - 1);
      assert t[..i - 1] + t[i..] == s[1..i] + s[i + 1..];
      assert [s[0]] + (s[1..i] + s[i + 1..]) == s[..i] + s[i + 1..];
    }
  }

  // ---------------------------------------------------------------------
  // Configuration lookups
  // ---------------------------------------------------------------------

  /** The reverse index has an entry for the code (an empty array would still count). */
  predicate Mapped(cfg: Config, code: Code)
  {
    code in cfg.inputCodeToMappingNameSet
  }

  /** The mapping names the reverse index lists for a code. */
  function Names(cfg: Config, code: Code): seq<Name>
  {
    if code in cfg.inputCodeToMappingNameSet then cfg.inputCodeToMappingNameSet[code] else []
  }

  /** The value an event of magnitude `v` on `code` delivers to axis `name`: `v * scale`. */
  function Scaled(cfg: Config, name: Name, code: Code, v: real): real
    requires name in cfg.axisMappingSet && code in cfg.axisMappingSet[name]
  {
    v * cfg.axisMappingSet[name][code].scale
  }

  /** `mouseButtonToInputCodeSet[button]`, `undefined` for a button with no entry. */
  function ButtonCode(cfg: Config, button: int): MouseKey
  {
    if button in cfg.mouseButtonToInputCodeSet then Some(cfg.mouseButtonToInputCodeSet[button]) else None
  }

  /** Every bound axis is a configured axis mapping: `bindAxis` only binds such names. */
  ghost predicate AxesConfigured(cfg: Config, e: Engine)
  {
    e.axisMappingMap.Keys <= cfg.axisMappingSet.Keys
  }

  /** The scale lookup of every bound axis among `names` is defined for `code`. */
  ghost predicate ScalesKnown(cfg: Config, e: Engine, code: Code, names: seq<Name>)
  {
    forall n :: n in names && n in e.axisMappingMap ==>
      n in cfg.axisMappingSet && code in cfg.axisMappingSet[n]
  }

  /** The last value delivered to axis `name` in a run of calls, 0 when there is none. */
  function LastAxisValue(calls: seq<Call>, name: Name): real
  {
    if calls == [] then 0.0
    else
      var c := calls[|calls| - 1];
      if c.AxisCall? && c.name == name then c.value else LastAxisValue(calls[..|calls| - 1], name)
  }

  // ---------------------------------------------------------------------
  // Mapping instances
  // ---------------------------------------------------------------------

  /** `AxisMapping.execute(v)`: store `v`, then call the callback with it. */
  function AxisExecute(e: Engine, name: Name, v: real): Engine
    requires name in e.axisMappingMap
  {
    var m := e.axisMappingMap[name];
    e.(axisMappingMap := e.axisMappingMap[name := m.(value := v)],
       calls := e.calls + [AxisCall(m.mappingName, m.func, v)])
  }

  /** `AxisMapping.cancel()`: store 0, then call the callback with 0. */
  function AxisCancel(e: Engine, name: Name): Engine
    requires name in e.axisMappingMap
  {
    var m := e.axisMappingMap[name];
    e.(axisMappingMap := e.axisMappingMap[name := m.(value := 0.0)],
       calls := e.calls + [AxisCall(m.mappingName, m.func, 0.0)])
  }

  /** `ActionMapping.execute()` on the instance bound to `name`. */
  function ActionExecute(e: Engine, name: Name): Engine
    requires name in e.actionMappingMap
  {
    e.(calls := e.actionMappingMap[name].Execute(e.calls))
  }

  /** `ActionMapping.cancel()` on the instance bound to `name`: nothing changes. */
  function ActionCancel(e: Engine, name: Name): (r: Engine)
    requires name in e.actionMappingMap
    ensures r == e
  {
    e.(calls := e.actionMappingMap[name].Cancel(e.calls))
  }

  // ---------------------------------------------------------------------
  // The `for (let name of names)` loops of the handlers
  // ---------------------------------------------------------------------

  /** Loop of processKeyDown, processMouseDown, processTouchStart and processMouseUp. */
  function PressLoop(e: Engine, names: seq<Name>): (r: Engine)
    ensures r.(calls := e.calls) == e
    ensures |r.calls| >= |e.calls| && r.calls[..|e.calls|] == e.calls
    decreases |names|
  {
    if names == [] then e
    else
      var n := names[0];
      PressLoop(if n in e.actionMappingMap then ActionExecute(e, n) else e, names[1..])
  }

  /** Loop of processKeyHeld, processMouseHeld, processTouchHeld and processGamepadHeld. */
  function HeldLoop(cfg: Config, e: Engine, code: Code, names: seq<Name>): (r: Engine)
    requires ScalesKnown(cfg, e, code, names)
    ensures r.axisMappingMap.Keys == e.axisMappingMap.Keys
    ensures r.(axisMappingMap := e.axisMappingMap, calls := e.calls) == e
    ensures |r.calls| >= |e.calls| && r.calls[..|e.calls|] == e.calls
    decreases |names|
  {
    if names == [] then e
    else
      var n := names[0];
      HeldLoop(cfg, if n in e.axisMappingMap then AxisExecute(e, n, Scaled(cfg, n, code, 1.0)) else e,
               code, names[1..])
  }

  /** Loop of processMouseMove, processMouseWheel and processJoystick. */
  function ValueLoop(cfg: Config, e: Engine, code: Code, v: real, names: seq<Name>): (r: Engine)
    requires ScalesKnown(cfg, e, code, names)
    ensures r.axisMappingMap.Keys == e.axisMappingMap.Keys
    ensures r.(axisMappingMap := e.axisMappingMap, calls := e.calls) == e
    ensures |r.calls| >= |e.calls| && r.calls[..|e.calls|] == e.calls
    decreases |names|
  {
    if names == [] then e
    else
      ValueLoop(cfg, ValueStep(cfg, e, code, v, names[0]), code, v, names[1..])
  }

  /** One iteration of `ValueLoop`: the action bound to `n`, then the axis bound to `n`. */
  function ValueStep(cfg: Config, e: Engine, code: Code, v: real, n: Name): (r: Engine)
    requires n in e.axisMappingMap ==> n in cfg.axisMappingSet && code in cfg.axisMappingSet[n]
    ensures r.axisMappingMap.Keys == e.axisMappingMap.Keys
  {
    if n in e.actionMappingMap then
      if n in e.axisMappingMap then AxisExecute(ActionExecute(e, n), n, Scaled(cfg, n, code, v))
      else ActionExecute(e, n)
    else if n in e.axisMappingMap then AxisExecute(e, n, Scaled(cfg, n, code, v))
    else e
  }

  /** Loop of processKeyUp. */
  function KeyUpLoop(e: Engine, names: seq<Name>): (r: Engine)
    ensures r.axisMappingMap.Keys == e.axisMappingMap.Keys
    ensures r.(axisMappingMap := e.axisMappingMap, calls := e.calls) == e
    ensures |r.calls| >= |e.calls| && r.calls[..|e.calls|] == e.calls
    decreases |names|
  {
    if names == [] then e
    else
      var n := names[0];
      KeyUpLoop(if n in e.axisMappingMap then AxisCancel(e, n) else e, names[1..])
  }

  /** Loop of processTouchEnd and processTouchCancel. */
  function TouchReleaseLoop(e: Engine, names: seq<Name>): (r: Engine)
    ensures r.axisMappingMap.Keys == e.axisMappingMap.Keys
    ensures r.(axisMappingMap := e.axisMappingMap, calls := e.calls) == e
    ensures |r.calls| >= |e.calls| && r.calls[..|e.calls|] == e.calls
    decreases |names|
  {
    if names == [] then e
    else
      var n := names[0];
      var e1 := if n in e.actionMappingMap then ActionCancel(e, n) else e;
      var e2 := if n in e1.axisMappingMap then AxisCancel(e1, n) else e1;
      TouchReleaseLoop(e2, names[1..])
  }

  // ---------------------------------------------------------------------
  // The `process*` procedures
  // ---------------------------------------------------------------------

  /** processKeyDown, processMouseDown and processTouchStart (three identical procedures). */
  function ProcessPress(cfg: Config, e: Engine, code: Code): Engine
  {
    if Mapped(cfg, code) then PressLoop(e.(pressedCodes := e.pressedCodes + {code}), Names(cfg, code))
    else e
  }

  /** processKeyHeld, processMouseHeld, processTouchHeld and processGamepadHeld (four identical procedures). */
  function ProcessHeld(cfg: Config, e: Engine, code: Code): (r: Engine)
    requires ScaleLookupsDefined(cfg) && AxesConfigured(cfg, e)
    ensures r.axisMappingMap.Keys == e.axisMappingMap.Keys
  {
    if Mapped(cfg, code) then
      HeldLoop(cfg, e.(pressedCodes := e.pressedCodes + {code}), code, Names(cfg, code))
    else e
  }

  /** processMouseMove, processMouseWheel and processJoystick (three identical procedures). */
  function ProcessValue(cfg: Config, e: Engine, code: Code, v: real): (r: Engine)
    requires ScaleLookupsDefined(cfg) && AxesConfigured(cfg, e)
    ensures r.axisMappingMap.Keys == e.axisMappingMap.Keys
  {
    if Mapped(cfg, code) then
      ValueLoop(cfg, e.(pressedCodes := e.pressedCodes + {code}), code, v, Names(cfg, code))
    else e
  }

  /** processKeyUp. */
  function ProcessKeyUp(cfg: Config, e: Engine, code: Code): Engine
  {
    if Mapped(cfg, code) then KeyUpLoop(e.(pressedCodes := e.pressedCodes - {code}), Names(cfg, code))
    else e
  }

  /** processMouseUp: its loop is that of processMouseDown, so a release executes the actions again. */
  function ProcessMouseUp(cfg: Config, e: Engine, code: Code): Engine
  {
    if Mapped(cfg, code) then PressLoop(e.(pressedCodes := e.pressedCodes - {code}), Names(cfg, code))
    else e
  }

  /** processTouchEnd and processTouchCancel (two identical procedures). */
  function ProcessTouchRelease(cfg: Config, e: Engine, code: Code): Engine
  {
    if Mapped(cfg, code) then TouchReleaseLoop(e.(pressedCodes := e.pressedCodes - {code}), Names(cfg, code))
    else e
  }

  // ---------------------------------------------------------------------
  // The public surface: binding, polling and the event wrappers
  // ---------------------------------------------------------------------

  /** getCodePressed. */
  function GetCodePressed(e: Engine, code: Code): bool
  {
    code in e.pressedCodes
  }

  /** bindAxis: only a configured name, and only the first bind of it, creates an instance. */
  function BindAxis(cfg: Config, e: Engine, name: Name, func: Callback): Engine
  {
    if name in cfg.axisMappingSet && name !in e.axisMappingMap then
      e.(axisMappingMap := e.axisMappingMap[name := AxisState(name, func, 0.0)])
    else e
  }

  /** bindAction: only a configured name, and only the first bind of it, creates an instance. */
  function BindAction(cfg: Config, e: Engine, name: Name, func: Callback): Engine
  {
    if name in cfg.actionMappingSet && name !in e.actionMappingMap then
      e.(actionMappingMap := e.actionMappingMap[name := ActionMapping(name, func)])
    else e
  }

  function OnKeyDown(cfg: Config, e: Engine, code: Code): Engine
  {
    ProcessPress(cfg, e.(keyHeld := EventStart(e.keyHeld, code)), code)
  }

  function OnKeyUp(cfg: Config, e: Engine, code: Code): Engine
  {
    ProcessKeyUp(cfg, e.(keyHeld := EventEnd(e.keyHeld, code)), code)
  }

  /** onMouseDown: a button without a code puts `undefined` in the held set and dispatches nothing. */
  function OnMouseDown(cfg: Config, e: Engine, button: int): Engine
  {
    var key := ButtonCode(cfg, button);
    var e1 := e.(mouseHeld := EventStart(e.mouseHeld, key));
    match key
    case None => e1
    case Some(code) => ProcessPress(cfg, e1, code)
  }

  function OnMouseUp(cfg: Config, e: Engine, button: int): Engine
  {
    var key := ButtonCode(cfg, button);
    var e1 := e.(mouseHeld := EventEnd(e.mouseHeld, key));
    match key
    case None => e1
    case Some(code) => ProcessMouseUp(cfg, e1, code)
  }

  function OnMouseMove(cfg: Config, e: Engine, deltaX: real, deltaY: real): Engine
    requires ScaleLookupsDefined(cfg) && AxesConfigured(cfg, e)
  {
    ProcessValue(cfg, ProcessValue(cfg, e, MouseX, deltaX), MouseY, deltaY)
  }

  function OnMouseWheel(cfg: Config, e: Engine, scrollX: real, scrollY: real): Engine
    requires ScaleLookupsDefined(cfg) && AxesConfigured(cfg, e)
  {
    ProcessValue(cfg, ProcessValue(cfg, e, MouseWheelX, scrollX), MouseWheelY, scrollY)
  }

  function OnTouchStart(cfg: Config, e: Engine, code: Code): Engine
  {
    ProcessPress(cfg, e.(touchHeld := EventStart(e.touchHeld, code)), code)
  }

  /** onTouchEnd and onTouchCancel (two identical wrappers). */
  function OnTouchRelease(cfg: Config, e: Engine, code: Code): Engine
  {
    ProcessTouchRelease(cfg, e.(touchHeld := EventEnd(e.touchHeld, code)), code)
  }

  function OnJoystick(cfg: Config, e: Engine, code: Code, v: real): Engine
    requires ScaleLookupsDefined(cfg) && AxesConfigured(cfg, e)
  {
    ProcessValue(cfg, e, code, v)
  }

  // ---------------------------------------------------------------------
  // The per-frame update of the held-event handlers
  // ---------------------------------------------------------------------

  /** `HeldEventHandler.update` of a handler whose processor is ProcessHeld. */
  function HeldUpdate(cfg: Config, e: Engine, codes: seq<Code>): (r: Engine)
    requires ScaleLookupsDefined(cfg) && AxesConfigured(cfg, e)
    ensures r.axisMappingMap.Keys == e.axisMappingMap.Keys
    decreases |codes|
  {
    if codes == [] then e else HeldUpdate(cfg, ProcessHeld(cfg, e, codes[0]), codes[1..])
  }

  /** `HeldEventHandler.update` of the mouse handler; `undefined` finds no entry and does nothing. */
  function MouseHeldUpdate(cfg: Config, e: Engine, keys: seq<MouseKey>): (r: Engine)
    requires ScaleLookupsDefined(cfg) && AxesConfigured(cfg, e)
    ensures r.axisMappingMap.Keys == e.axisMappingMap.Keys
    decreases |keys|
  {
    if keys == [] then e
    else
      var e1 := match keys[0] case None => e case Some(code) => ProcessHeld(cfg, e, code);
      MouseHeldUpdate(cfg, e1, keys[1..])
  }

  /**
   * One frame: the four handlers were subscribed in the order touch, key,
   * mouse, gamepad, and each visits its codes in insertion order.
   */
  function Tick(cfg: Config, e: Engine): (r: Engine)
    requires ScaleLookupsDefined(cfg) && AxesConfigured(cfg, e)
    ensures r.axisMappingMap.Keys == e.axisMappingMap.Keys
  {
    var e1 := HeldUpdate(cfg, e, e.touchHeld);
    var e2 := HeldUpdate(cfg, e1, e.keyHeld);
    var e3 := MouseHeldUpdate(cfg, e2, e.mouseHeld);
    HeldUpdate(cfg, e3, e.gamepadHeld)
  }
}
