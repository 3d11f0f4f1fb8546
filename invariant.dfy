/**
 * The state invariant of the input router: what every sequence of calls to
 * its entry points, starting from a fresh instance, keeps true.
 */
module EngineInvariant {
  import opened Wrappers
  import opened InputSystemConfig
  import opened EngineModel

  /** A callback invocation names a bound mapping and uses that mapping's callback. */
  predicate CallBound(e: Engine, c: Call)
  {
    match c
    case AxisCall(n, f, _) => n in e.axisMappingMap && e.axisMappingMap[n].func == f
    case ActionCall(n, f) => n in e.actionMappingMap && e.actionMappingMap[n].func == f
  }

  ghost predicate CallsBound(e: Engine)
  {
    forall i :: 0 <= i < |e.calls| ==> CallBound(e, e.calls[i])
  }

  /**
   * Bound names are configured names, each instance carries the name it is
   * bound under, the `value` of an axis instance is the last value its
   * callback received (0 before any), every invocation so far came from a
   * bound instance, and each held-code set holds a code at most once.
   */
  ghost predicate Inv(cfg: Config, e: Engine)
  {
    AxesConfigured(cfg, e) &&
    e.actionMappingMap.Keys <= cfg.actionMappingSet.Keys &&
    (forall n :: n in e.axisMappingMap ==>
      e.axisMappingMap[n].mappingName == n && e.axisMappingMap[n].value == LastAxisValue(e.calls, n)) &&
    (forall n :: n in e.actionMappingMap ==> e.actionMappingMap[n].mappingName == n) &&
    CallsBound(e) &&
    NoDup(e.touchHeld) && NoDup(e.keyHeld) && NoDup(e.mouseHeld) && NoDup(e.gamepadHeld)
  }

  // ---------------------------------------------------------------------
  // The last value delivered to an axis
  // ---------------------------------------------------------------------

  lemma {:induction false} LastAxisValueAppend(calls: seq<Call>, c: Call, n: Name)
    ensures LastAxisValue(calls + [c], n) == if c.AxisCall? && c.name == n then c.value else LastAxisValue(calls, n)
  {
    assert (calls + [c])[..|calls + [c]| - 1] == calls;
  }

  /** An axis whose callback was never invoked reports 0. */
  lemma {:induction false} LastAxisValueUnnamed(calls: seq<Call>, n: Name)
    requires forall i :: 0 <= i < |calls| ==> !(calls[i].AxisCall? && calls[i].name == n)
    ensures LastAxisValue(calls, n) == 0.0
    decreases |calls|
  {
    if calls != [] {
      var prefix := calls[..|calls| - 1];
      assert forall i :: 0 <= i < |prefix| ==> prefix[i] == calls[i];
      LastAxisValueUnnamed(prefix, n);
    }
  }

  // ---------------------------------------------------------------------
  // One mapping instance at a time
  // ---------------------------------------------------------------------

  lemma ActionExecuteInv(cfg: Config, e: Engine, n: Name)
    requires Inv(cfg, e) && n in e.actionMappingMap
    ensures Inv(cfg, ActionExecute(e, n))
  {
    var r := ActionExecute(e, n);
    var c := ActionCall(e.actionMappingMap[n].mappingName, e.actionMappingMap[n].func);
    assert r.calls == e.calls + [c];
    forall k | k in r.axisMappingMap ensures r.axisMappingMap[k].value == LastAxisValue(r.calls, k) {
      LastAxisValueAppend(e.calls, c, k);
    }
    forall i | 0 <= i < |r.calls| ensures CallBound(r, r.calls[i]) {
      if i < |e.calls| {
        assert r.calls[i] == e.calls[i];
      }
    }
  }

  lemma AxisExecuteInv(cfg: Config, e: Engine, n: Name, v: real)
    requires Inv(cfg, e) && n in e.axisMappingMap
    ensures Inv(cfg, AxisExecute(e, n, v))
  {
    var r := AxisExecute(e, n, v);
    var m := e.axisMappingMap[n];
    var c := AxisCall(m.mappingName, m.func, v);
    assert r.calls == e.calls + [c];
    forall k | k in r.axisMappingMap ensures r.axisMappingMap[k].value == LastAxisValue(r.calls, k) {
      LastAxisValueAppend(e.calls, c, k);
    }
    forall i | 0 <= i < |r.calls| ensures CallBound(r, r.calls[i]) {
      if i < |e.calls| {
        assert r.calls[i] == e.calls[i];
        match e.calls[i]
        case AxisCall(k, f, _) =>
          assert k in e.axisMappingMap;
        case ActionCall(_, _) =>
      }
    }
  }

  lemma AxisCancelInv(cfg: Config, e: Engine, n: Name)
    requires Inv(cfg, e) && n in e.axisMappingMap
    ensures Inv(cfg, AxisCancel(e, n))
  {
    assert AxisCancel(e, n) == AxisExecute(e, n, 0.0);
    AxisExecuteInv(cfg, e, n, 0.0);
  }

  // ---------------------------------------------------------------------
  // The loops over the names of one code
  // ---------------------------------------------------------------------

  lemma {:induction false} PressLoopInv(cfg: Config, e: Engine, names: seq<Name>)
    requires Inv(cfg, e)
    ensures Inv(cfg, PressLoop(e, names))
    decreases |names|
  {
    if names != [] {
      var n := names[0];
      var e1 := if n in e.actionMappingMap then ActionExecute(e, n) else e;
      if n in e.actionMappingMap {
        ActionExecuteInv(cfg, e, n);
      }
      PressLoopInv(cfg, e1, names[1..]);
    }
  }

  lemma {:induction false} HeldLoopInv(cfg: Config, e: Engine, code: Code, names: seq<Name>)
    requires Inv(cfg, e) && ScalesKnown(cfg, e, code, names)
    ensures Inv(cfg, HeldLoop(cfg, e, code, names))
    decreases |names|
  {
    if names != [] {
      var n := names[0];
      if n in e.axisMappingMap {
        AxisExecuteInv(cfg, e, n, Scaled(cfg, n, code, 1.0));
        HeldLoopInv(cfg, AxisExecute(e, n, Scaled(cfg, n, code, 1.0)), code, names[1..]);
      } else {
        HeldLoopInv(cfg, e, code, names[1..]);
      }
    }
  }

  lemma ValueStepInv(cfg: Config, e: Engine, code: Code, v: real, n: Name)
    requires Inv(cfg, e)
    requires n in e.axisMappingMap ==> n in cfg.axisMappingSet && code in cfg.axisMappingSet[n]
    ensures Inv(cfg, ValueStep(cfg, e, code, v, n))
  {
    var e1 := if n in e.actionMappingMap then ActionExecute(e, n) else e;
    if n in e.actionMappingMap {
      ActionExecuteInv(cfg, e, n);
    }
    if n in e1.axisMappingMap {
      AxisExecuteInv(cfg, e1, n, Scaled(cfg, n, code, v));
    }
  }

  lemma {:induction false} ValueLoopInv(cfg: Config, e: Engine, code: Code, v: real, names: seq<Name>)
    requires Inv(cfg, e) && ScalesKnown(cfg, e, code, names)
    ensures Inv(cfg, ValueLoop(cfg, e, code, v, names))
    decreases |names|
  {
    if names != [] {
      ValueStepInv(cfg, e, code, v, names[0]);
      ValueLoopInv(cfg, ValueStep(cfg, e, code, v, names[0]), code, v, names[1..]);
    }
  }

  lemma {:induction false} KeyUpLoopInv(cfg: Config, e: Engine, names: seq<Name>)
    requires Inv(cfg, e)
    ensures Inv(cfg, KeyUpLoop(e, names))
    decreases |names|
  {
    if names != [] {
      var n := names[0];
      if n in e.axisMappingMap {
        AxisCancelInv(cfg, e, n);
        KeyUpLoopInv(cfg, AxisCancel(e, n), names[1..]);
      } else {
        KeyUpLoopInv(cfg, e, names[1..]);
      }
    }
  }

  lemma {:induction false} TouchReleaseLoopInv(cfg: Config, e: Engine, names: seq<Name>)
    requires Inv(cfg, e)
    ensures Inv(cfg, TouchReleaseLoop(e, names))
    decreases |names|
  {
    if names != [] {
      var n := names[0];
      var e1 := if n in e.actionMappingMap then ActionCancel(e, n) else e;
      assert e1 == e;
      if n in e1.axisMappingMap {
        AxisCancelInv(cfg, e1, n);
        TouchReleaseLoopInv(cfg, AxisCancel(e1, n), names[1..]);
      } else {
        TouchReleaseLoopInv(cfg, e1, names[1..]);
      }
    }
  }

  // ---------------------------------------------------------------------
  // The process* procedures, the bindings and the entry points
  // ---------------------------------------------------------------------

  /** The invariant does not depend on the set of pressed codes. */
  lemma InvPressedFree(cfg: Config, e: Engine, p: set<Code>)
    requires Inv(cfg, e)
    ensures Inv(cfg, e.(pressedCodes := p))
  {
    var r := e.(pressedCodes := p);
    forall i | 0 <= i < |r.calls| ensures CallBound(r, r.calls[i]) {
      assert CallBound(e, e.calls[i]);
    }
  }

  lemma ProcessPressInv(cfg: Config, e: Engine, code: Code)
    requires Inv(cfg, e)
    ensures Inv(cfg, ProcessPress(cfg, e, code))
  {
    if Mapped(cfg, code) {
      InvPressedFree(cfg, e, e.pressedCodes + {code});
      PressLoopInv(cfg, e.(pressedCodes := e.pressedCodes + {code}), Names(cfg, code));
    }
  }

  lemma ProcessHeldInv(cfg: Config, e: Engine, code: Code)
    requires Inv(cfg, e) && ScaleLookupsDefined(cfg)
    ensures Inv(cfg, ProcessHeld(cfg, e, code))
  {
    if Mapped(cfg, code) {
      InvPressedFree(cfg, e, e.pressedCodes + {code});
      HeldLoopInv(cfg, e.(pressedCodes := e.pressedCodes + {code}), code, Names(cfg, code));
    }
  }

  lemma ProcessValueInv(cfg: Config, e: Engine, code: Code, v: real)
    requires Inv(cfg, e) && ScaleLookupsDefined(cfg)
    ensures Inv(cfg, ProcessValue(cfg, e, code, v))
  {
    if Mapped(cfg, code) {
      InvPressedFree(cfg, e, e.pressedCodes + {code});
      ValueLoopInv(cfg, e.(pressedCodes := e.pressedCodes + {code}), code, v, Names(cfg, code));
    }
  }

  lemma ProcessKeyUpInv(cfg: Config, e: Engine, code: Code)
    requires Inv(cfg, e)
    ensures Inv(cfg, ProcessKeyUp(cfg, e, code))
  {
    if Mapped(cfg, code) {
      InvPressedFree(cfg, e, e.pressedCodes - {code});
      KeyUpLoopInv(cfg, e.(pressedCodes := e.pressedCodes - {code}), Names(cfg, code));
    }
  }

  lemma ProcessMouseUpInv(cfg: Config, e: Engine, code: Code)
    requires Inv(cfg, e)
    ensures Inv(cfg, ProcessMouseUp(cfg, e, code))
  {
    if Mapped(cfg, code) {
      InvPressedFree(cfg, e, e.pressedCodes - {code});
      PressLoopInv(cfg, e.(pressedCodes := e.pressedCodes - {code}), Names(cfg, code));
    }
  }

  lemma ProcessTouchReleaseInv(cfg: Config, e: Engine, code: Code)
    requires Inv(cfg, e)
    ensures Inv(cfg, ProcessTouchRelease(cfg, e, code))
  {
    if Mapped(cfg, code) {
      InvPressedFree(cfg, e, e.pressedCodes - {code});
      TouchReleaseLoopInv(cfg, e.(pressedCodes := e.pressedCodes - {code}), Names(cfg, code));
    }
  }

  /** Replacing one held-code sequence by a duplicate-free one keeps the invariant. */
  lemma InvHeldFree(cfg: Config, e: Engine, r: Engine)
    requires Inv(cfg, e)
    requires r.(touchHeld := e.touchHeld, keyHeld := e.keyHeld, mouseHeld := e.mouseHeld, gamepadHeld := e.gamepadHeld) == e
    requires NoDup(r.touchHeld) && NoDup(r.keyHeld) && NoDup(r.mouseHeld) && NoDup(r.gamepadHeld)
    ensures Inv(cfg, r)
  {
    forall i | 0 <= i < |r.calls| ensures CallBound(r, r.calls[i]) {
      assert CallBound(e, e.calls[i]);
    }
  }

  /** A fresh instance satisfies the invariant. */
  lemma InitialInv(cfg: Config)
    ensures Inv(cfg, Initial())
  {
  }

  lemma BindAxisInv(cfg: Config, e: Engine, name: Name, func: Callback)
    requires Inv(cfg, e)
    ensures Inv(cfg, BindAxis(cfg, e, name, func))
  {
    if name in cfg.axisMappingSet && name !in e.axisMappingMap {
      var r := BindAxis(cfg, e, name, func);
      forall i | 0 <= i < |e.calls| ensures !(e.calls[i].AxisCall? && e.calls[i].name == name) {
        assert CallBound(e, e.calls[i]);
      }
      LastAxisValueUnnamed(e.calls, name);
      forall i | 0 <= i < |r.calls| ensures CallBound(r, r.calls[i]) {
        assert CallBound(e, e.calls[i]);
      }
    }
  }

  lemma BindActionInv(cfg: Config, e: Engine, name: Name, func: Callback)
    requires Inv(cfg, e)
    ensures Inv(cfg, BindAction(cfg, e, name, func))
  {
    if name in cfg.actionMappingSet && name !in e.actionMappingMap {
      var r := BindAction(cfg, e, name, func);
      forall i | 0 <= i < |r.calls| ensures CallBound(r, r.calls[i]) {
        assert CallBound(e, e.calls[i]);
      }
    }
  }

  lemma {:induction false} HeldUpdateInv(cfg: Config, e: Engine, codes: seq<Code>)
    requires Inv(cfg, e) && ScaleLookupsDefined(cfg)
    ensures Inv(cfg, HeldUpdate(cfg, e, codes))
    decreases |codes|
  {
    if codes != [] {
      ProcessHeldInv(cfg, e, codes[0]);
      HeldUpdateInv(cfg, ProcessHeld(cfg, e, codes[0]), codes[1..]);
    }
  }

  lemma {:induction false} MouseHeldUpdateInv(cfg: Config, e: Engine, keys: seq<MouseKey>)
    requires Inv(cfg, e) && ScaleLookupsDefined(cfg)
    ensures Inv(cfg, MouseHeldUpdate(cfg, e, keys))
    decreases |keys|
  {
    if keys != [] {
      match keys[0]
      case None =>
        MouseHeldUpdateInv(cfg, e, keys[1..]);
      case Some(code) =>
        ProcessHeldInv(cfg, e, code);
        MouseHeldUpdateInv(cfg, ProcessHeld(cfg, e, code), keys[1..]);
    }
  }

  lemma TickInv(cfg: Config, e: Engine)
    requires Inv(cfg, e) && ScaleLookupsDefined(cfg)
    ensures Inv(cfg, Tick(cfg, e))
  {
    var e1 := HeldUpdate(cfg, e, e.touchHeld);
    HeldUpdateInv(cfg, e, e.touchHeld);
    var e2 := HeldUpdate(cfg, e1, e.keyHeld);
    HeldUpdateInv(cfg, e1, e.keyHeld);
    var e3 := MouseHeldUpdate(cfg, e2, e.mouseHeld);
    MouseHeldUpdateInv(cfg, e2, e.mouseHeld);
    HeldUpdateInv(cfg, e3, e.gamepadHeld);
  }

  // ---------------------------------------------------------------------
  // Any sequence of calls to the entry points
  // ---------------------------------------------------------------------

  /** A call the engine or the game makes into the input system. */
  datatype Event =
    | KeyDown(code: Code)
    | KeyUp(code: Code)
    | MouseDown(button: int)
    | MouseUp(button: int)
    | MouseMove(deltaX: real, deltaY: real)
    | MouseWheel(scrollX: real, scrollY: real)
    | TouchStart(code: Code)
    | TouchEnd(code: Code)
    | TouchCancel(code: Code)
    | Joystick(code: Code, value: real)
    | BindAxisTo(name: Name, func: Callback)
    | BindActionTo(name: Name, func: Callback)
    | Frame

  function Step(cfg: Config, e: Engine, ev: Event): (r: Engine)
    requires ScaleLookupsDefined(cfg) && AxesConfigured(cfg, e)
    ensures AxesConfigured(cfg, r)
  {
    match ev
    case KeyDown(code) => OnKeyDown(cfg, e, code)
    case KeyUp(code) => OnKeyUp(cfg, e, code)
    case MouseDown(button) => OnMouseDown(cfg, e, button)
    case MouseUp(button) => OnMouseUp(cfg, e, button)
    case MouseMove(dx, dy) => OnMouseMove(cfg, e, dx, dy)
    case MouseWheel(sx, sy) => OnMouseWheel(cfg, e, sx, sy)
    case TouchStart(code) => OnTouchStart(cfg, e, code)
    case TouchEnd(code) => OnTouchRelease(cfg, e, code)
    case TouchCancel(code) => OnTouchRelease(cfg, e, code)
    case Joystick(code, v) => OnJoystick(cfg, e, code, v)
    case BindAxisTo(name, func) => BindAxis(cfg, e, name, func)
    case BindActionTo(name, func) => BindAction(cfg, e, name, func)
    case Frame => Tick(cfg, e)
  }

  function Run(cfg: Config, e: Engine, evs: seq<Event>): (r: Engine)
    requires ScaleLookupsDefined(cfg) && AxesConfigured(cfg, e)
    decreases |evs|
  {
    if evs == [] then e else Run(cfg, Step(cfg, e, evs[0]), evs[1..])
  }

  /** Every entry point keeps the invariant. */
  lemma StepInv(cfg: Config, e: Engine, ev: Event)
    requires Inv(cfg, e) && ScaleLookupsDefined(cfg)
    ensures Inv(cfg, Step(cfg, e, ev))
  {
    match ev
    case KeyDown(code) =>
      var e1 := e.(keyHeld := EventStart(e.keyHeld, code));
      InvHeldFree(cfg, e, e1);
      ProcessPressInv(cfg, e1, code);
    case KeyUp(code) =>
      var e1 := e.(keyHeld := EventEnd(e.keyHeld, code));
      EventEndNoDup(e.keyHeld, code);
      InvHeldFree(cfg, e, e1);
      ProcessKeyUpInv(cfg, e1, code);
    case MouseDown(button) =>
      var e1 := e.(mouseHeld := EventStart(e.mouseHeld, ButtonCode(cfg, button)));
      InvHeldFree(cfg, e, e1);
      if ButtonCode(cfg, button).Some? {
        ProcessPressInv(cfg, e1, ButtonCode(cfg, button).value);
      }
    case MouseUp(button) =>
      var e1 := e.(mouseHeld := EventEnd(e.mouseHeld, ButtonCode(cfg, button)));
      EventEndNoDup(e.mouseHeld, ButtonCode(cfg, button));
      InvHeldFree(cfg, e, e1);
      if ButtonCode(cfg, button).Some? {
        ProcessMouseUpInv(cfg, e1, ButtonCode(cfg, button).value);
      }
    case MouseMove(dx, dy) =>
      ProcessValueInv(cfg, e, MouseX, dx);
      ProcessValueInv(cfg, ProcessValue(cfg, e, MouseX, dx), MouseY, dy);
    case MouseWheel(sx, sy) =>
      ProcessValueInv(cfg, e, MouseWheelX, sx);
      ProcessValueInv(cfg, ProcessValue(cfg, e, MouseWheelX, sx), MouseWheelY, sy);
    case TouchStart(code) =>
      var e1 := e.(touchHeld := EventStart(e.touchHeld, code));
      InvHeldFree(cfg, e, e1);
      ProcessPressInv(cfg, e1, code);
    case TouchEnd(code) =>
      var e1 := e.(touchHeld := EventEnd(e.touchHeld, code));
      EventEndNoDup(e.touchHeld, code);
      InvHeldFree(cfg, e, e1);
      ProcessTouchReleaseInv(cfg, e1, code);
    case TouchCancel(code) =>
      var e1 := e.(touchHeld := EventEnd(e.touchHeld, code));
      EventEndNoDup(e.touchHeld, code);
      InvHeldFree(cfg, e, e1);
      ProcessTouchReleaseInv(cfg, e1, code);
    case Joystick(code, v) =>
      ProcessValueInv(cfg, e, code, v);
    case BindAxisTo(name, func) =>
      BindAxisInv(cfg, e, name, func);
    case BindActionTo(name, func) =>
      BindActionInv(cfg, e, name, func);
    case Frame =>
      TickInv(cfg, e);
  }

  lemma {:induction false} RunInv(cfg: Config, e: Engine, evs: seq<Event>)
    requires Inv(cfg, e) && ScaleLookupsDefined(cfg)
    ensures Inv(cfg, Run(cfg, e, evs))
    decreases |evs|
  {
    if evs != [] {
      StepInv(cfg, e, evs[0]);
      RunInv(cfg, Step(cfg, e, evs[0]), evs[1..]);
    }
  }

  /**
   * From a fresh instance, whatever the calls: the `value` of every bound axis
   * is the last value its callback received, and every callback invocation
   * came from a bound mapping with that callback.
   */
  lemma ReachableInv(cfg: Config, evs: seq<Event>)
    requires ScaleLookupsDefined(cfg)
    ensures var r := Run(cfg, Initial(), evs);
      Inv(cfg, r) &&
      (forall n :: n in r.axisMappingMap ==> r.axisMappingMap[n].value == LastAxisValue(r.calls, n)) &&
      (forall i :: 0 <= i < |r.calls| ==> CallBound(r, r.calls[i]))
  {
    InitialInv(cfg);
    RunInv(cfg, Initial(), evs);
  }
}
