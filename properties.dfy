/** What the input router does with the events it receives. */
module EngineProperties {
  import opened Wrappers
  import opened InputSystemConfig
  import opened EngineModel

  // ---------------------------------------------------------------------
  // Axis values after the loops over the names of one code
  // ---------------------------------------------------------------------

  /** A held code stores `1 * scale` in every bound axis it feeds and leaves the other axes alone. */
  lemma {:induction false} HeldLoopValues(cfg: Config, e: Engine, code: Code, names: seq<Name>)
    requires ScalesKnown(cfg, e, code, names)
    ensures var r := HeldLoop(cfg, e, code, names);
      forall n :: n in e.axisMappingMap ==>
        r.axisMappingMap[n] ==
          if n in names then e.axisMappingMap[n].(value := Scaled(cfg, n, code, 1.0)) else e.axisMappingMap[n]
    decreases |names|
  {
    if names != [] {
      var m := names[0];
      var e1 := if m in e.axisMappingMap then AxisExecute(e, m, Scaled(cfg, m, code, 1.0)) else e;
      HeldLoopValues(cfg, e1, code, names[1..]);
      forall n | n in e.axisMappingMap ensures n in names <==> n == m || n in names[1..] {
        assert names == [m] + names[1..];
      }
    }
  }

  /** A value event of magnitude `v` stores `v * scale` in every bound axis it feeds. */
  lemma {:induction false} ValueLoopValues(cfg: Config, e: Engine, code: Code, v: real, names: seq<Name>)
    requires ScalesKnown(cfg, e, code, names)
    ensures var r := ValueLoop(cfg, e, code, v, names);
      forall n :: n in e.axisMappingMap ==>
        r.axisMappingMap[n] ==
          if n in names then e.axisMappingMap[n].(value := Scaled(cfg, n, code, v)) else e.axisMappingMap[n]
    decreases |names|
  {
    if names != [] {
      var m := names[0];
      HeldLoopValuesStep(cfg, e, code, v, m);
      ValueLoopValues(cfg, ValueStep(cfg, e, code, v, m), code, v, names[1..]);
      forall n | n in e.axisMappingMap ensures n in names <==> n == m || n in names[1..] {
        assert names == [m] + names[1..];
      }
    }
  }

  lemma HeldLoopValuesStep(cfg: Config, e: Engine, code: Code, v: real, m: Name)
    requires m in e.axisMappingMap ==> m in cfg.axisMappingSet && code in cfg.axisMappingSet[m]
    ensures var r := ValueStep(cfg, e, code, v, m);
      forall n :: n in e.axisMappingMap ==>
        r.axisMappingMap[n] == if n == m then e.axisMappingMap[n].(value := Scaled(cfg, n, code, v)) else e.axisMappingMap[n]
  {
  }

  /** A release stores 0 in every bound axis the code feeds. */
  lemma {:induction false} KeyUpLoopValues(e: Engine, names: seq<Name>)
    ensures var r := KeyUpLoop(e, names);
      forall n :: n in e.axisMappingMap ==>
        r.axisMappingMap[n] == if n in names then e.axisMappingMap[n].(value := 0.0) else e.axisMappingMap[n]
    decreases |names|
  {
    if names != [] {
      var m := names[0];
      var e1 := if m in e.axisMappingMap then AxisCancel(e, m) else e;
      KeyUpLoopValues(e1, names[1..]);
      forall n | n in e.axisMappingMap ensures n in names <==> n == m || n in names[1..] {
        assert names == [m] + names[1..];
      }
    }
  }

  /** The loop of processTouchEnd is that of processKeyUp: `ActionMapping.cancel` does nothing. */
  lemma {:induction false} TouchReleaseLoopIsKeyUpLoop(e: Engine, names: seq<Name>)
    ensures TouchReleaseLoop(e, names) == KeyUpLoop(e, names)
    decreases |names|
  {
    if names != [] {
      var n := names[0];
      var e1 := if n in e.actionMappingMap then ActionCancel(e, n) else e;
      assert e1 == e;
      TouchReleaseLoopIsKeyUpLoop(if n in e.axisMappingMap then AxisCancel(e, n) else e, names[1..]);
    }
  }

  /** Ending or cancelling a touch on a code does to the axes and callbacks exactly what a key release does. */
  lemma TouchReleaseIsKeyUp(cfg: Config, e: Engine, code: Code)
    ensures ProcessTouchRelease(cfg, e, code) == ProcessKeyUp(cfg, e, code)
  {
    if Mapped(cfg, code) {
      TouchReleaseLoopIsKeyUpLoop(e.(pressedCodes := e.pressedCodes - {code}), Names(cfg, code));
    }
  }

  // ---------------------------------------------------------------------
  // The callbacks invoked by the loops
  // ---------------------------------------------------------------------

  /** For each name in order, the invocation of its bound action; unbound names contribute nothing. */
  function ActionCallsFor(actions: map<Name, ActionMapping>, names: seq<Name>): (r: seq<Call>)
    ensures forall i :: 0 <= i < |r| ==> r[i].ActionCall?
  {
    if names == [] then []
    else
      var n := names[0];
      (if n in actions then [ActionCall(actions[n].mappingName, actions[n].func)] else []) + ActionCallsFor(actions, names[1..])
  }

  /** Names none of which has a bound action give no invocation. */
  lemma {:induction false} ActionCallsForUnbound(actions: map<Name, ActionMapping>, names: seq<Name>)
    requires forall n :: n in names ==> n !in actions
    ensures ActionCallsFor(actions, names) == []
    decreases |names|
  {
    if names != [] {
      ActionCallsForUnbound(actions, names[1..]);
    }
  }

  /** For each name in order, a zero delivered to its bound axis; unbound names contribute nothing. */
  function ZeroCallsFor(axes: map<Name, AxisState>, names: seq<Name>): (r: seq<Call>)
  {
    if names == [] then []
    else
      var n := names[0];
      (if n in axes then [AxisCall(axes[n].mappingName, axes[n].func, 0.0)] else []) + ZeroCallsFor(axes, names[1..])
  }

  /** Every delivery made by a release is a zero to an axis. */
  lemma {:induction false} ZeroCallsAreZeros(axes: map<Name, AxisState>, names: seq<Name>)
    ensures forall c :: c in ZeroCallsFor(axes, names) ==> c.AxisCall? && c.value == 0.0
    decreases |names|
  {
    if names != [] {
      ZeroCallsAreZeros(axes, names[1..]);
    }
  }

  /** A press changes nothing but the callbacks, and invokes the bound actions among `names` in order. */
  lemma {:induction false} PressLoopCalls(e: Engine, names: seq<Name>)
    ensures PressLoop(e, names) == e.(calls := e.calls + ActionCallsFor(e.actionMappingMap, names))
    decreases |names|
  {
    if names != [] {
      var n := names[0];
      var e1 := if n in e.actionMappingMap then ActionExecute(e, n) else e;
      PressLoopCalls(e1, names[1..]);
      assert e1.actionMappingMap == e.actionMappingMap;
      var head := if n in e.actionMappingMap then [ActionCall(e.actionMappingMap[n].mappingName, e.actionMappingMap[n].func)] else [];
      assert e1.calls == e.calls + head;
      assert e.calls + head + ActionCallsFor(e.actionMappingMap, names[1..]) == e.calls + ActionCallsFor(e.actionMappingMap, names);
    }
  }

  /** A release delivers 0 to the bound axes among `names` in order. */
  lemma {:induction false} KeyUpLoopCalls(e: Engine, names: seq<Name>)
    ensures KeyUpLoop(e, names).calls == e.calls + ZeroCallsFor(e.axisMappingMap, names)
    decreases |names|
  {
    if names != [] {
      var n := names[0];
      var rest := ZeroCallsFor(e.axisMappingMap, names[1..]);
      if n in e.axisMappingMap {
        var e1 := AxisCancel(e, n);
        KeyUpLoopCalls(e1, names[1..]);
        ZeroCallsForValueFree(e.axisMappingMap, e1.axisMappingMap, names[1..]);
        var c := AxisCall(e.axisMappingMap[n].mappingName, e.axisMappingMap[n].func, 0.0);
        assert e1.calls == e.calls + [c];
        assert ZeroCallsFor(e.axisMappingMap, names) == [c] + rest;
        assert e.calls + [c] + rest == e.calls + ([c] + rest);
      } else {
        KeyUpLoopCalls(e, names[1..]);
        assert ZeroCallsFor(e.axisMappingMap, names) == [] + rest;
      }
    }
  }

  /** The zero deliveries do not depend on the values the axes hold. */
  lemma {:induction false} ZeroCallsForValueFree(a: map<Name, AxisState>, b: map<Name, AxisState>, names: seq<Name>)
    requires a.Keys == b.Keys
    requires forall n :: n in a ==> a[n].mappingName == b[n].mappingName && a[n].func == b[n].func
    ensures ZeroCallsFor(a, names) == ZeroCallsFor(b, names)
    decreases |names|
  {
    if names != [] {
      ZeroCallsForValueFree(a, b, names[1..]);
    }
  }

  /** A key or touch press invokes only the bound actions of the code, and leaves every axis alone. */
  lemma PressInvokesActions(cfg: Config, e: Engine, code: Code)
    ensures var r := ProcessPress(cfg, e, code);
      r == e.(pressedCodes := r.pressedCodes, calls := e.calls + ActionCallsFor(e.actionMappingMap, Names(cfg, code)))
  {
    PressLoopCalls(e.(pressedCodes := e.pressedCodes + {code}), Names(cfg, code));
  }

  /** A key release delivers 0 to each bound axis of the code and invokes no action. */
  lemma KeyUpZeroesAxes(cfg: Config, e: Engine, code: Code)
    requires Mapped(cfg, code)
    ensures var r := ProcessKeyUp(cfg, e, code);
      r.calls == e.calls + ZeroCallsFor(e.axisMappingMap, Names(cfg, code)) &&
      (forall c :: c in r.calls[|e.calls|..] ==> c.AxisCall? && c.value == 0.0) &&
      forall n :: n in e.axisMappingMap ==>
        r.axisMappingMap[n].value == if n in Names(cfg, code) then 0.0 else e.axisMappingMap[n].value
  {
    var e1 := e.(pressedCodes := e.pressedCodes - {code});
    KeyUpLoopCalls(e1, Names(cfg, code));
    KeyUpLoopValues(e1, Names(cfg, code));
    ZeroCallsAreZeros(e.axisMappingMap, Names(cfg, code));
    assert KeyUpLoop(e1, Names(cfg, code)).calls[|e.calls|..] == ZeroCallsFor(e.axisMappingMap, Names(cfg, code));
  }

  /**
   * processMouseUp runs the loop of processMouseDown: a release invokes the
   * bound actions of the button a second time and leaves its axes as they were.
   */
  lemma MouseUpRepeatsPress(cfg: Config, e: Engine, code: Code)
    ensures ProcessMouseUp(cfg, e, code).calls == ProcessPress(cfg, e, code).calls
    ensures ProcessMouseUp(cfg, e, code).axisMappingMap == e.axisMappingMap
    ensures Mapped(cfg, code) ==> !GetCodePressed(ProcessMouseUp(cfg, e, code), code)
  {
    if Mapped(cfg, code) {
      PressLoopCalls(e.(pressedCodes := e.pressedCodes - {code}), Names(cfg, code));
      PressLoopCalls(e.(pressedCodes := e.pressedCodes + {code}), Names(cfg, code));
    }
  }

  /** A held code delivers its scale to each bound axis it feeds, in index order, and invokes no action. */
  lemma HeldDeliversScale(cfg: Config, e: Engine, code: Code)
    requires ScaleLookupsDefined(cfg) && AxesConfigured(cfg, e) && Mapped(cfg, code)
    ensures AxisScalesKnown(cfg, e.axisMappingMap, code, Names(cfg, code))
    ensures var r := ProcessHeld(cfg, e, code);
      r.calls == e.calls + AxisCallsFor(cfg, e.axisMappingMap, code, 1.0, Names(cfg, code)) &&
      forall n :: n in e.axisMappingMap ==>
        r.axisMappingMap[n].value ==
          if n in Names(cfg, code) then cfg.axisMappingSet[n][code].scale else e.axisMappingMap[n].value
  {
    var e0 := e.(pressedCodes := e.pressedCodes + {code});
    assert ProcessHeld(cfg, e, code) == HeldLoop(cfg, e0, code, Names(cfg, code));
    HeldLoopValues(cfg, e0, code, Names(cfg, code));
    HeldLoopCalls(cfg, e0, code, Names(cfg, code));
  }

  /**
   * A mouse move, a wheel turn or a joystick value invokes, for each name of
   * its code in index order, the bound action and then the bound axis with
   * `v * scale`.
   */
  lemma ValueDeliversScaled(cfg: Config, e: Engine, code: Code, v: real)
    requires ScaleLookupsDefined(cfg) && AxesConfigured(cfg, e) && Mapped(cfg, code)
    ensures AxisScalesKnown(cfg, e.axisMappingMap, code, Names(cfg, code))
    ensures var r := ProcessValue(cfg, e, code, v);
      r.calls == e.calls + ValueCallsFor(cfg, e.actionMappingMap, e.axisMappingMap, code, v, Names(cfg, code)) &&
      forall n :: n in e.axisMappingMap ==>
        r.axisMappingMap[n].value ==
          if n in Names(cfg, code) then v * cfg.axisMappingSet[n][code].scale else e.axisMappingMap[n].value
  {
    var e0 := e.(pressedCodes := e.pressedCodes + {code});
    var r := ProcessValue(cfg, e, code, v);
    assert r == ValueLoop(cfg, e0, code, v, Names(cfg, code));
    assert r.calls == e.calls + ValueCallsFor(cfg, e.actionMappingMap, e.axisMappingMap, code, v, Names(cfg, code)) by {
      ValueLoopCalls(cfg, e0, code, v, Names(cfg, code));
    }
    ValueLoopValues(cfg, e0, code, v, Names(cfg, code));
    forall n | n in e.axisMappingMap
      ensures r.axisMappingMap[n].value ==
        if n in Names(cfg, code) then v * cfg.axisMappingSet[n][code].scale else e.axisMappingMap[n].value
    {
      if n in Names(cfg, code) {
        assert r.axisMappingMap[n].value == Scaled(cfg, n, code, v);
      }
    }
  }

  // ---------------------------------------------------------------------
  // The callbacks invoked by held re-fires and value events
  // ---------------------------------------------------------------------

  /** Two axis tables bind the same names to the same instances, whatever values they hold. */
  predicate SameBindings(a: map<Name, AxisState>, b: map<Name, AxisState>)
  {
    a.Keys == b.Keys && forall n :: n in a ==> a[n].mappingName == b[n].mappingName && a[n].func == b[n].func
  }

  /** Every bound axis among `names` has a scale for `code`. */
  predicate AxisScalesKnown(cfg: Config, axes: map<Name, AxisState>, code: Code, names: seq<Name>)
  {
    forall n :: n in names && n in axes ==> n in cfg.axisMappingSet && code in cfg.axisMappingSet[n]
  }

  /** The delivery a name contributes to an axis call sequence. */
  function AxisCallOf(cfg: Config, axes: map<Name, AxisState>, code: Code, v: real, n: Name): seq<Call>
    requires n in axes ==> n in cfg.axisMappingSet && code in cfg.axisMappingSet[n]
  {
    if n in axes then [AxisCall(axes[n].mappingName, axes[n].func, Scaled(cfg, n, code, v))] else []
  }

  /** The deliveries a name contributes to a value event: its action, then its axis. */
  function ValueCallOf(cfg: Config, actions: map<Name, ActionMapping>, axes: map<Name, AxisState>, code: Code, v: real, n: Name): seq<Call>
    requires n in axes ==> n in cfg.axisMappingSet && code in cfg.axisMappingSet[n]
  {
    (if n in actions then [ActionCall(actions[n].mappingName, actions[n].func)] else []) +
    AxisCallOf(cfg, axes, code, v, n)
  }

  /** For each name in order, `v × scale` delivered to its bound axis; unbound names contribute nothing. */
  function AxisCallsFor(cfg: Config, axes: map<Name, AxisState>, code: Code, v: real, names: seq<Name>): (r: seq<Call>)
    requires AxisScalesKnown(cfg, axes, code, names)
  {
    if names == [] then []
    else
      AxisCallOf(cfg, axes, code, v, names[0]) + AxisCallsFor(cfg, axes, code, v, names[1..])
  }

  /**
   * For each name in order, the invocation of its bound action followed by
   * `v × scale` delivered to its bound axis.
   */
  function ValueCallsFor(cfg: Config, actions: map<Name, ActionMapping>, axes: map<Name, AxisState>,
                         code: Code, v: real, names: seq<Name>): (r: seq<Call>)
    requires AxisScalesKnown(cfg, axes, code, names)
  {
    if names == [] then []
    else
      ValueCallOf(cfg, actions, axes, code, v, names[0]) + ValueCallsFor(cfg, actions, axes, code, v, names[1..])
  }

  /** The scales stay known for the rest of the names, over a table with the same names bound. */
  lemma AxisScalesKnownTail(cfg: Config, a: map<Name, AxisState>, b: map<Name, AxisState>, code: Code, names: seq<Name>)
    requires names != [] && a.Keys == b.Keys && AxisScalesKnown(cfg, a, code, names)
    ensures AxisScalesKnown(cfg, b, code, names[1..])
  {
    forall n | n in names[1..] && n in b ensures n in cfg.axisMappingSet && code in cfg.axisMappingSet[n] {
      assert n in names;
    }
  }

  /** The axis deliveries do not depend on the values the axes hold. */
  lemma {:induction false} AxisCallsForValueFree(cfg: Config, a: map<Name, AxisState>, b: map<Name, AxisState>,
                                                 code: Code, v: real, names: seq<Name>)
    requires SameBindings(a, b) && AxisScalesKnown(cfg, a, code, names)
    ensures AxisCallsFor(cfg, a, code, v, names) == AxisCallsFor(cfg, b, code, v, names)
    decreases |names|
  {
    if names != [] {
      AxisCallsForValueFree(cfg, a, b, code, v, names[1..]);
    }
  }

  /** The value-event deliveries do not depend on the values the axes hold. */
  lemma {:induction false} ValueCallsForValueFree(cfg: Config, actions: map<Name, ActionMapping>,
                                                  a: map<Name, AxisState>, b: map<Name, AxisState>,
                                                  code: Code, v: real, names: seq<Name>)
    requires SameBindings(a, b) && AxisScalesKnown(cfg, a, code, names)
    ensures ValueCallsFor(cfg, actions, a, code, v, names) == ValueCallsFor(cfg, actions, b, code, v, names)
    decreases |names|
  {
    if names != [] {
      ValueCallsForValueFree(cfg, actions, a, b, code, v, names[1..]);
    }
  }

  /** A log that first grows by `head` and then by `rest` has grown by `head + rest`. */
  lemma LogCons(final: seq<Call>, mid: seq<Call>, start: seq<Call>, head: seq<Call>, rest: seq<Call>)
    requires mid == start + head && final == mid + rest
    ensures final == start + (head + rest)
  {
  }

  /** One iteration of the held loop, unrolled: `e1` is the engine after the first name. */
  lemma HeldLoopStep(cfg: Config, e: Engine, code: Code, names: seq<Name>) returns (e1: Engine)
    requires names != [] && AxisScalesKnown(cfg, e.axisMappingMap, code, names)
    ensures AxisScalesKnown(cfg, e1.axisMappingMap, code, names[1..])
    ensures HeldLoop(cfg, e, code, names) == HeldLoop(cfg, e1, code, names[1..])
    ensures e1.calls == e.calls + AxisCallOf(cfg, e.axisMappingMap, code, 1.0, names[0])
    ensures AxisCallsFor(cfg, e.axisMappingMap, code, 1.0, names) ==
      AxisCallOf(cfg, e.axisMappingMap, code, 1.0, names[0]) + AxisCallsFor(cfg, e1.axisMappingMap, code, 1.0, names[1..])
  {
    var m := names[0];
    e1 := if m in e.axisMappingMap then AxisExecute(e, m, Scaled(cfg, m, code, 1.0)) else e;
    AxisScalesKnownTail(cfg, e.axisMappingMap, e1.axisMappingMap, code, names);
    AxisCallsForValueFree(cfg, e.axisMappingMap, e1.axisMappingMap, code, 1.0, names[1..]);
  }

  /** A held re-fire invokes, in index order, each bound axis among `names` with `1 × scale`. */
  lemma {:induction false} HeldLoopCalls(cfg: Config, e: Engine, code: Code, names: seq<Name>)
    requires AxisScalesKnown(cfg, e.axisMappingMap, code, names)
    ensures HeldLoop(cfg, e, code, names).calls == e.calls + AxisCallsFor(cfg, e.axisMappingMap, code, 1.0, names)
    decreases |names|
  {
    if names != [] {
      var e1 := HeldLoopStep(cfg, e, code, names);
      HeldLoopCalls(cfg, e1, code, names[1..]);
      LogCons(HeldLoop(cfg, e1, code, names[1..]).calls, e1.calls, e.calls,
              AxisCallOf(cfg, e.axisMappingMap, code, 1.0, names[0]),
              AxisCallsFor(cfg, e1.axisMappingMap, code, 1.0, names[1..]));
    }
  }

  /** One step of the value loop: the action of `m`, then its axis; the bindings stay. */
  lemma ValueStepCalls(cfg: Config, e: Engine, code: Code, v: real, m: Name)
    requires m in e.axisMappingMap ==> m in cfg.axisMappingSet && code in cfg.axisMappingSet[m]
    ensures var r := ValueStep(cfg, e, code, v, m);
      r.actionMappingMap == e.actionMappingMap &&
      SameBindings(e.axisMappingMap, r.axisMappingMap) &&
      r.calls == e.calls + ValueCallOf(cfg, e.actionMappingMap, e.axisMappingMap, code, v, m)
  {
  }

  /** One iteration of the value loop, unrolled: `e1` is the engine after the first name. */
  lemma ValueLoopStep(cfg: Config, e: Engine, code: Code, v: real, names: seq<Name>) returns (e1: Engine)
    requires names != [] && AxisScalesKnown(cfg, e.axisMappingMap, code, names)
    ensures AxisScalesKnown(cfg, e1.axisMappingMap, code, names[1..])
    ensures ValueLoop(cfg, e, code, v, names) == ValueLoop(cfg, e1, code, v, names[1..])
    ensures e1.calls == e.calls + ValueCallOf(cfg, e.actionMappingMap, e.axisMappingMap, code, v, names[0])
    ensures ValueCallsFor(cfg, e.actionMappingMap, e.axisMappingMap, code, v, names) ==
      ValueCallOf(cfg, e.actionMappingMap, e.axisMappingMap, code, v, names[0]) +
      ValueCallsFor(cfg, e1.actionMappingMap, e1.axisMappingMap, code, v, names[1..])
  {
    e1 := ValueStep(cfg, e, code, v, names[0]);
    ValueStepCalls(cfg, e, code, v, names[0]);
    AxisScalesKnownTail(cfg, e.axisMappingMap, e1.axisMappingMap, code, names);
    ValueCallsForValueFree(cfg, e.actionMappingMap, e.axisMappingMap, e1.axisMappingMap, code, v, names[1..]);
  }

  /** A value event invokes, for each name in index order, its bound action and then its bound axis with `v × scale`. */
  lemma {:induction false} ValueLoopCalls(cfg: Config, e: Engine, code: Code, v: real, names: seq<Name>)
    requires AxisScalesKnown(cfg, e.axisMappingMap, code, names)
    ensures ValueLoop(cfg, e, code, v, names).calls ==
      e.calls + ValueCallsFor(cfg, e.actionMappingMap, e.axisMappingMap, code, v, names)
    decreases |names|
  {
    if names != [] {
      var e1 := ValueLoopStep(cfg, e, code, v, names);
      ValueLoopCalls(cfg, e1, code, v, names[1..]);
      LogCons(ValueLoop(cfg, e1, code, v, names[1..]).calls, e1.calls, e.calls,
              ValueCallOf(cfg, e.actionMappingMap, e.axisMappingMap, code, v, names[0]),
              ValueCallsFor(cfg, e1.actionMappingMap, e1.axisMappingMap, code, v, names[1..]));
    }
  }

  // ---------------------------------------------------------------------
  // getCodePressed and the held handlers
  // ---------------------------------------------------------------------

  /** After a key press, a code reads as pressed iff it did before or it is the pressed code and the index lists it. */
  lemma KeyDownPressed(cfg: Config, e: Engine, key: Code, c: Code)
    ensures var r := OnKeyDown(cfg, e, key);
      (GetCodePressed(r, c) <==> GetCodePressed(e, c) || (c == key && Mapped(cfg, key))) &&
      r.keyHeld == EventStart(e.keyHeld, key) && key in r.keyHeld
  {
    if Mapped(cfg, key) {
      PressLoopCalls(e.(keyHeld := EventStart(e.keyHeld, key), pressedCodes := e.pressedCodes + {key}), Names(cfg, key));
    }
  }

  /** After a key release, a code reads as pressed iff it did before and it is not the released code of a listed key. */
  lemma KeyUpReleased(cfg: Config, e: Engine, key: Code, c: Code)
    ensures var r := OnKeyUp(cfg, e, key);
      (GetCodePressed(r, c) <==> GetCodePressed(e, c) && !(c == key && Mapped(cfg, key))) &&
      r.keyHeld == EventEnd(e.keyHeld, key) && key !in r.keyHeld
  {
  }

  /**
   * A code the reverse index does not list only enters or leaves its held
   * handler; so does a mouse button whose table entry is missing or unlisted.
   */
  lemma UnmappedCodeInert(cfg: Config, e: Engine, code: Code, v: real, button: int)
    requires ScaleLookupsDefined(cfg) && AxesConfigured(cfg, e)
    requires !Mapped(cfg, code)
    ensures OnKeyDown(cfg, e, code) == e.(keyHeld := EventStart(e.keyHeld, code))
    ensures OnKeyUp(cfg, e, code) == e.(keyHeld := EventEnd(e.keyHeld, code))
    ensures OnTouchStart(cfg, e, code) == e.(touchHeld := EventStart(e.touchHeld, code))
    ensures OnTouchRelease(cfg, e, code) == e.(touchHeld := EventEnd(e.touchHeld, code))
    ensures OnJoystick(cfg, e, code, v) == e
    ensures ProcessHeld(cfg, e, code) == e
    ensures ProcessPress(cfg, e, code) == e
    ensures ProcessMouseUp(cfg, e, code) == e
    ensures var key := ButtonCode(cfg, button);
      key.None? || !Mapped(cfg, key.value) ==>
        OnMouseDown(cfg, e, button) == e.(mouseHeld := EventStart(e.mouseHeld, key)) &&
        OnMouseUp(cfg, e, button) == e.(mouseHeld := EventEnd(e.mouseHeld, key))
  {
  }

  /**
   * Mouse moves, wheel turns and joystick values add their code to the
   * pressed set, and no value event removes it. Only a release event on the
   * same code does (see `JoystickReleasedByTouchEnd`). The mouse-move and
   * wheel codes have no such event, so once pressed they stay pressed.
   */
  lemma ValueEventPresses(cfg: Config, e: Engine, code: Code, v: real)
    requires ScaleLookupsDefined(cfg) && AxesConfigured(cfg, e)
    ensures var r := ProcessValue(cfg, e, code, v);
      r.pressedCodes == e.pressedCodes + (if Mapped(cfg, code) then {code} else {}) &&
      r.(pressedCodes := e.pressedCodes, axisMappingMap := e.axisMappingMap, calls := e.calls) == e
  {
  }

  /**
   * A joystick widget reports its values with its codes and ends with a touch
   * end or cancel on the same codes: the value presses a listed code and the
   * release takes it out of the pressed set again.
   */
  lemma JoystickReleasedByTouchEnd(cfg: Config, e: Engine, code: Code, v: real)
    requires ScaleLookupsDefined(cfg) && AxesConfigured(cfg, e)
    ensures var r := OnJoystick(cfg, e, code, v);
      (GetCodePressed(r, code) <==> GetCodePressed(e, code) || Mapped(cfg, code)) &&
      (GetCodePressed(OnTouchRelease(cfg, r, code), code) <==> GetCodePressed(e, code) && !Mapped(cfg, code))
  {
    ValueEventPresses(cfg, e, code, v);
  }

  /** One handler's update adds each listed held code to the pressed set and changes only axes and callbacks besides. */
  lemma {:induction false} HeldUpdateFrame(cfg: Config, e: Engine, codes: seq<Code>)
    requires ScaleLookupsDefined(cfg) && AxesConfigured(cfg, e)
    ensures var r := HeldUpdate(cfg, e, codes);
      r.pressedCodes == e.pressedCodes + (set c | c in codes && Mapped(cfg, c)) &&
      r.(pressedCodes := e.pressedCodes, axisMappingMap := e.axisMappingMap, calls := e.calls) == e
    decreases |codes|
  {
    if codes != [] {
      var e1 := ProcessHeld(cfg, e, codes[0]);
      HeldUpdateFrame(cfg, e1, codes[1..]);
      assert codes == [codes[0]] + codes[1..];
      assert (set c | c in codes && Mapped(cfg, c)) ==
        (if Mapped(cfg, codes[0]) then {codes[0]} else {}) + (set c | c in codes[1..] && Mapped(cfg, c));
    }
  }

  /** The mouse handler's update: `undefined` entries add nothing. */
  lemma {:induction false} MouseHeldUpdateFrame(cfg: Config, e: Engine, keys: seq<MouseKey>)
    requires ScaleLookupsDefined(cfg) && AxesConfigured(cfg, e)
    ensures var r := MouseHeldUpdate(cfg, e, keys);
      r.pressedCodes == e.pressedCodes + (set k | k in keys && k.Some? && Mapped(cfg, k.value) :: k.value) &&
      r.(pressedCodes := e.pressedCodes, axisMappingMap := e.axisMappingMap, calls := e.calls) == e
    decreases |keys|
  {
    if keys != [] {
      var e1 := match keys[0] case None => e case Some(code) => ProcessHeld(cfg, e, code);
      MouseHeldUpdateFrame(cfg, e1, keys[1..]);
      assert keys == [keys[0]] + keys[1..];
      assert (set k | k in keys && k.Some? && Mapped(cfg, k.value) :: k.value) ==
        (if keys[0].Some? && Mapped(cfg, keys[0].value) then {keys[0].value} else {}) +
        (set k | k in keys[1..] && k.Some? && Mapped(cfg, k.value) :: k.value);
    }
  }

  /** Every code some handler holds, `undefined` left out. */
  ghost function HeldCodes(e: Engine): set<Code>
  {
    (set c | c in e.touchHeld) + (set c | c in e.keyHeld) +
    (set k | k in e.mouseHeld && k.Some? :: k.value) + (set c | c in e.gamepadHeld)
  }

  /**
   * A frame re-adds to the pressed set every held code the index lists, and
   * changes no handler and no action binding.
   */
  lemma TickPresses(cfg: Config, e: Engine)
    requires ScaleLookupsDefined(cfg) && AxesConfigured(cfg, e)
    ensures var r := Tick(cfg, e);
      r.pressedCodes == e.pressedCodes + (set c | c in HeldCodes(e) && Mapped(cfg, c)) &&
      r.(pressedCodes := e.pressedCodes, axisMappingMap := e.axisMappingMap, calls := e.calls) == e
  {
    var e1 := HeldUpdate(cfg, e, e.touchHeld);
    HeldUpdateFrame(cfg, e, e.touchHeld);
    var e2 := HeldUpdate(cfg, e1, e.keyHeld);
    HeldUpdateFrame(cfg, e1, e.keyHeld);
    var e3 := MouseHeldUpdate(cfg, e2, e.mouseHeld);
    MouseHeldUpdateFrame(cfg, e2, e.mouseHeld);
    HeldUpdateFrame(cfg, e3, e.gamepadHeld);
  }

  /**
   * Ending a touch on a code that a key still holds unpresses the code, and
   * the next frame presses it again through the key handler.
   */
  lemma TouchEndThenTickRepresses(cfg: Config, e: Engine, code: Code)
    requires ScaleLookupsDefined(cfg) && AxesConfigured(cfg, e)
    requires code in e.keyHeld && Mapped(cfg, code)
    ensures !GetCodePressed(OnTouchRelease(cfg, e, code), code)
    ensures GetCodePressed(Tick(cfg, OnTouchRelease(cfg, e, code)), code)
  {
    var r := OnTouchRelease(cfg, e, code);
    TouchReleaseIsKeyUp(cfg, e.(touchHeld := EventEnd(e.touchHeld, code)), code);
    assert r.keyHeld == e.keyHeld;
    TickPresses(cfg, r);
  }

  // ---------------------------------------------------------------------
  // Binding
  // ---------------------------------------------------------------------

  /** bindAxis binds a configured name once: the first callback stays and its axis starts at 0. */
  lemma BindAxisFirstWins(cfg: Config, e: Engine, name: Name, f: Callback, g: Callback)
    ensures var r := BindAxis(cfg, e, name, f);
      (name in r.axisMappingMap <==> name in e.axisMappingMap || name in cfg.axisMappingSet) &&
      (name !in e.axisMappingMap && name in cfg.axisMappingSet ==> r.axisMappingMap[name] == AxisState(name, f, 0.0)) &&
      (forall m :: m in e.axisMappingMap ==> m in r.axisMappingMap && r.axisMappingMap[m] == e.axisMappingMap[m]) &&
      r.(axisMappingMap := e.axisMappingMap) == e &&
      BindAxis(cfg, r, name, g) == r
  {
  }

  /** bindAction binds a configured name once: the first callback stays. */
  lemma BindActionFirstWins(cfg: Config, e: Engine, name: Name, f: Callback, g: Callback)
    ensures var r := BindAction(cfg, e, name, f);
      (name in r.actionMappingMap <==> name in e.actionMappingMap || name in cfg.actionMappingSet) &&
      (name !in e.actionMappingMap && name in cfg.actionMappingSet ==> r.actionMappingMap[name] == ActionMapping(name, f)) &&
      (forall m :: m in e.actionMappingMap ==> m in r.actionMappingMap && r.actionMappingMap[m] == e.actionMappingMap[m]) &&
      r.(actionMappingMap := e.actionMappingMap) == e &&
      BindAction(cfg, r, name, g) == r
  {
  }

  // ---------------------------------------------------------------------
  // Frames
  // ---------------------------------------------------------------------

  /** `k` frames in a row with no event in between. */
  function Frames(cfg: Config, e: Engine, k: nat): (r: Engine)
    requires ScaleLookupsDefined(cfg) && AxesConfigured(cfg, e)
    ensures r.axisMappingMap.Keys == e.axisMappingMap.Keys
    decreases k
  {
    if k == 0 then e else Frames(cfg, Tick(cfg, e), k - 1)
  }

  /** `k` copies of `x`. */
  function Repeat<T>(x: T, k: nat): seq<T>
    decreases k
  {
    if k == 0 then [] else [x] + Repeat(x, k - 1)
  }

  /** One frame with a lone held key feeding one bound axis is one axis execution. */
  lemma LoneKeyTick(cfg: Config, e: Engine, code: Code, n: Name)
    requires ScaleLookupsDefined(cfg) && AxesConfigured(cfg, e)
    requires e.touchHeld == [] && e.keyHeld == [code] && e.mouseHeld == [] && e.gamepadHeld == []
    requires Names(cfg, code) == [n] && n in e.axisMappingMap
    ensures Tick(cfg, e) == AxisExecute(e.(pressedCodes := e.pressedCodes + {code}), n, Scaled(cfg, n, code, 1.0))
  {
    var e0 := e.(pressedCodes := e.pressedCodes + {code});
    var e1 := AxisExecute(e0, n, Scaled(cfg, n, code, 1.0));
    assert HeldLoop(cfg, e0, code, [n]) == HeldLoop(cfg, e1, code, []);
    assert ProcessHeld(cfg, e, code) == e1;
    assert HeldUpdate(cfg, e, [code]) == HeldUpdate(cfg, e1, []);
  }

  /** A lone held key feeding one bound axis delivers its scale to that axis once per frame. */
  lemma {:induction false} HeldKeyRepeats(cfg: Config, e: Engine, code: Code, n: Name, k: nat)
    requires ScaleLookupsDefined(cfg) && AxesConfigured(cfg, e)
    requires e.touchHeld == [] && e.keyHeld == [code] && e.mouseHeld == [] && e.gamepadHeld == []
    requires Names(cfg, code) == [n] && n in e.axisMappingMap
    ensures var r := Frames(cfg, e, k); var a := e.axisMappingMap[n];
      r.calls == e.calls + Repeat(AxisCall(a.mappingName, a.func, Scaled(cfg, n, code, 1.0)), k) &&
      (k > 0 ==> r.axisMappingMap[n].value == cfg.axisMappingSet[n][code].scale)
    decreases k
  {
    if k > 0 {
      var a := e.axisMappingMap[n];
      var c := AxisCall(a.mappingName, a.func, Scaled(cfg, n, code, 1.0));
      LoneKeyTick(cfg, e, code, n);
      var e1 := Tick(cfg, e);
      assert e1.axisMappingMap[n] == a.(value := Scaled(cfg, n, code, 1.0));
      assert e1.calls == e.calls + [c];
      assert Frames(cfg, e, k) == Frames(cfg, e1, k - 1);
      HeldKeyRepeats(cfg, e1, code, n, k - 1);
      assert e.calls + [c] + Repeat(c, k - 1) == e.calls + Repeat(c, k);
    }
  }
}
