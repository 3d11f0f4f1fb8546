/**
 * The classes of InputSystemRuntime/InputSystem.ts: `AxisMapping`,
 * `HeldEventHandler` and `InputSystem`. Each method changes its object in
 * place, as the methods of InputSystem.ts do, and is proved to produce
 * exactly the state the value-level model in engine_model.dfy prescribes:
 * `InputSystem.Abstract()` reads the whole state of the router, and every
 * method ensures that the new abstract state is the model's function of the
 * old one.
 */
module Runtime {
  import opened Wrappers
  import opened InputSystemConfig
  import EngineModel

  /** An axis mapping: stores the last value it delivered to its callback. */
  class AxisMapping {
    const mappingName: Name
    const func: EngineModel.Callback
    var value: real

    constructor (mappingName: Name, func: EngineModel.Callback)
      ensures this.mappingName == mappingName && this.func == func && value == 0.0
    {
      this.mappingName := mappingName;
      this.func := func;
      value := 0.0;
    }

    /** execute: store `v`, then invoke the callback with it. */
    method Execute(v: real, calls: seq<EngineModel.Call>) returns (calls': seq<EngineModel.Call>)
      modifies this
      ensures value == v
      ensures calls' == calls + [EngineModel.AxisCall(mappingName, func, v)]
    {
      value := v;
      calls' := calls + [EngineModel.AxisCall(mappingName, func, value)];
    }

    /** cancel: store 0, then invoke the callback with 0. */
    method Cancel(calls: seq<EngineModel.Call>) returns (calls': seq<EngineModel.Call>)
      modifies this
      ensures value == 0.0
      ensures calls' == calls + [EngineModel.AxisCall(mappingName, func, 0.0)]
    {
      value := 0.0;
      calls' := calls + [EngineModel.AxisCall(mappingName, func, value)];
    }
  }

  /** The codes of one source class that are currently held, in insertion order. */
  class HeldEventHandler<K(==,!new)> {
    var heldCodes: seq<K>

    constructor ()
      ensures heldCodes == []
    {
      heldCodes := [];
    }

    method EventStart(code: K)
      modifies this
      ensures heldCodes == EngineModel.EventStart(old(heldCodes), code)
    {
      if code !in heldCodes {
        heldCodes := heldCodes + [code];
      }
    }

    method EventEnd(code: K)
      modifies this
      ensures heldCodes == EngineModel.EventEnd(old(heldCodes), code)
    {
      heldCodes := EngineModel.EventEnd(heldCodes, code);
    }
  }

  /** The input router. */
  class InputSystem {
    const cfg: Config
    var pressedCodes: set<Code>
    const touchHeldHandler: HeldEventHandler<Code>
    const keyHeldHandler: HeldEventHandler<Code>
    const mouseHeldHandler: HeldEventHandler<EngineModel.MouseKey>
    const gamepadHeldHandler: HeldEventHandler<Code>
    var axisMappingMap: map<Name, AxisMapping>
    var actionMappingMap: map<Name, EngineModel.ActionMapping>
    /** The gameplay callbacks invoked so far, in order. */
    var calls: seq<EngineModel.Call>

    ghost predicate Valid()
      reads this, axisMappingMap.Values
    {
      touchHeldHandler != keyHeldHandler && touchHeldHandler != gamepadHeldHandler &&
      keyHeldHandler != gamepadHeldHandler &&
      axisMappingMap.Keys <= cfg.axisMappingSet.Keys &&
      (forall n :: n in axisMappingMap ==> axisMappingMap[n].mappingName == n)
    }

    /** The whole state of the router as a model value. */
    ghost function Abstract(): EngineModel.Engine
      reads this, axisMappingMap.Values, touchHeldHandler, keyHeldHandler, mouseHeldHandler, gamepadHeldHandler
    {
      EngineModel.Engine(
        pressedCodes,
        AxisStates(),
        actionMappingMap,
        touchHeldHandler.heldCodes,
        keyHeldHandler.heldCodes,
        mouseHeldHandler.heldCodes,
        gamepadHeldHandler.heldCodes,
        calls)
    }

    constructor (cfg: Config)
      ensures Valid() && this.cfg == cfg
      ensures Abstract() == EngineModel.Initial()
    {
      this.cfg := cfg;
      pressedCodes := {};
      touchHeldHandler := new HeldEventHandler();
      keyHeldHandler := new HeldEventHandler();
      mouseHeldHandler := new HeldEventHandler();
      gamepadHeldHandler := new HeldEventHandler();
      axisMappingMap := map[];
      actionMappingMap := map[];
      calls := [];
    }

    /** getCodePressed: the answer the value-level router gives in the same state. */
    function GetCodePressed(code: Code): (r: bool)
      reads this, axisMappingMap.Values, touchHeldHandler, keyHeldHandler, mouseHeldHandler, gamepadHeldHandler
      ensures r == EngineModel.GetCodePressed(Abstract(), code)
    {
      code in pressedCodes
    }

    method BindAxis(name: Name, func: EngineModel.Callback)
      requires Valid()
      modifies this
      ensures Valid()
      ensures Abstract() == EngineModel.BindAxis(cfg, old(Abstract()), name, func)
      ensures name in cfg.axisMappingSet && name !in old(axisMappingMap) ==>
        name in axisMappingMap && fresh(axisMappingMap[name])
      ensures name !in cfg.axisMappingSet || name in old(axisMappingMap) ==> axisMappingMap == old(axisMappingMap)
    {
      if name in cfg.axisMappingSet {
        if name !in axisMappingMap {
          ghost var states := AxisStates();
          var mapping := new AxisMapping(name, func);
          axisMappingMap := axisMappingMap[name := mapping];
          assert AxisStates() == states[name := EngineModel.AxisState(name, func, 0.0)];
        }
      }
    }

    method BindAction(name: Name, func: EngineModel.Callback)
      requires Valid()
      modifies this
      ensures Valid()
      ensures Abstract() == EngineModel.BindAction(cfg, old(Abstract()), name, func)
    {
      if name in cfg.actionMappingSet {
        if name !in actionMappingMap {
          var mapping := EngineModel.ActionMapping(name, func);
          actionMappingMap := actionMappingMap[name := mapping];
        }
      }
    }

    /** The states of the bound axis mappings, as model values. */
    ghost function AxisStates(): map<Name, EngineModel.AxisState>
      reads this, axisMappingMap.Values
    {
      map n | n in axisMappingMap ::
        EngineModel.AxisState(axisMappingMap[n].mappingName, axisMappingMap[n].func, axisMappingMap[n].value)
    }

    /** Execute the axis mapping bound to `name` with value `v`. */
    method ExecuteAxis(name: Name, v: real)
      requires Valid() && name in axisMappingMap
      modifies this, axisMappingMap[name]
      ensures Valid() && axisMappingMap == old(axisMappingMap)
      ensures Abstract() == EngineModel.AxisExecute(old(Abstract()), name, v)
    {
      var mapping := axisMappingMap[name];
      label L:
      calls := mapping.Execute(v, calls);
      forall n | n in axisMappingMap && n != name
        ensures axisMappingMap[n].value == old@L(axisMappingMap[n].value)
      {
        assert axisMappingMap[n].mappingName != mapping.mappingName;
      }
    }

    /** Cancel the axis mapping bound to `name`. */
    method CancelAxis(name: Name)
      requires Valid() && name in axisMappingMap
      modifies this, axisMappingMap[name]
      ensures Valid() && axisMappingMap == old(axisMappingMap)
      ensures Abstract() == EngineModel.AxisCancel(old(Abstract()), name)
    {
      var mapping := axisMappingMap[name];
      label L:
      calls := mapping.Cancel(calls);
      forall n | n in axisMappingMap && n != name
        ensures axisMappingMap[n].value == old@L(axisMappingMap[n].value)
      {
        assert axisMappingMap[n].mappingName != mapping.mappingName;
      }
    }

    // -------------------------------------------------------------------
    // The loops over the mapping names of one code
    // -------------------------------------------------------------------

    /** Execute every bound action among `names`. */
    method PressLoop(names: seq<Name>)
      requires Valid()
      modifies this
      ensures Valid() && axisMappingMap == old(axisMappingMap)
      ensures Abstract() == EngineModel.PressLoop(old(Abstract()), names)
    {
      for i := 0 to |names|
        invariant Valid() && axisMappingMap == old(axisMappingMap)
        invariant EngineModel.PressLoop(Abstract(), names[i..]) == EngineModel.PressLoop(old(Abstract()), names)
      {
        ghost var before := Abstract();
        var name := names[i];
        ghost var after := if name in before.actionMappingMap then EngineModel.ActionExecute(before, name) else before;
        assert names[i..][0] == name && names[i..][1..] == names[i + 1..];
        assert EngineModel.PressLoop(before, names[i..]) == EngineModel.PressLoop(after, names[i + 1..]);
        if name in actionMappingMap {
          var mapping := actionMappingMap[name];
          calls := mapping.Execute(calls);
        }
        assert Abstract() == after;
      }
    }

    /** Deliver `1 * scale` to every bound axis among `names`. */
    method HeldLoop(code: Code, names: seq<Name>)
      requires Valid() && EngineModel.ScalesKnown(cfg, Abstract(), code, names)
      modifies this, axisMappingMap.Values
      ensures Valid() && axisMappingMap == old(axisMappingMap)
      ensures Abstract() == EngineModel.HeldLoop(cfg, old(Abstract()), code, names)
    {
      for i := 0 to |names|
        invariant Valid() && axisMappingMap == old(axisMappingMap)
        invariant EngineModel.ScalesKnown(cfg, Abstract(), code, names[i..])
        invariant EngineModel.HeldLoop(cfg, Abstract(), code, names[i..])
               == EngineModel.HeldLoop(cfg, old(Abstract()), code, names)
      {
        ghost var before := Abstract();
        var name := names[i];
        assert names[i..][0] == name && names[i..][1..] == names[i + 1..];
        if name in axisMappingMap {
          ExecuteAxis(name, EngineModel.Scaled(cfg, name, code, 1.0));
        }
        assert EngineModel.HeldLoop(cfg, before, code, names[i..]) == EngineModel.HeldLoop(cfg, Abstract(), code, names[i + 1..]);
      }
    }

    /** One iteration of `ValueLoop`. */
    method ValueStep(code: Code, v: real, name: Name)
      requires Valid()
      requires name in axisMappingMap ==> name in cfg.axisMappingSet && code in cfg.axisMappingSet[name]
      modifies this, axisMappingMap.Values
      ensures Valid() && axisMappingMap == old(axisMappingMap)
      ensures Abstract() == EngineModel.ValueStep(cfg, old(Abstract()), code, v, name)
    {
      ghost var e0 := Abstract();
      if name in actionMappingMap {
        var mapping := actionMappingMap[name];
        calls := mapping.Execute(calls);
        assert Abstract() == EngineModel.ActionExecute(e0, name);
      }
      if name in axisMappingMap {
        var w := EngineModel.Scaled(cfg, name, code, v);
        ExecuteAxis(name, w);
      }
    }

    /** Execute every bound action, and deliver `v * scale` to every bound axis, among `names`. */
    method ValueLoop(code: Code, v: real, names: seq<Name>)
      requires Valid() && EngineModel.ScalesKnown(cfg, Abstract(), code, names)
      modifies this, axisMappingMap.Values
      ensures Valid() && axisMappingMap == old(axisMappingMap)
      ensures Abstract() == EngineModel.ValueLoop(cfg, old(Abstract()), code, v, names)
    {
      for i := 0 to |names|
        invariant Valid() && axisMappingMap == old(axisMappingMap)
        invariant EngineModel.ScalesKnown(cfg, Abstract(), code, names[i..])
        invariant EngineModel.ValueLoop(cfg, Abstract(), code, v, names[i..])
               == EngineModel.ValueLoop(cfg, old(Abstract()), code, v, names)
      {
        ghost var before := Abstract();
        var name := names[i];
        assert names[i..][0] == name && names[i..][1..] == names[i + 1..];
        ValueStep(code, v, name);
        assert EngineModel.ValueLoop(cfg, before, code, v, names[i..]) == EngineModel.ValueLoop(cfg, Abstract(), code, v, names[i + 1..]);
      }
    }

    /** Cancel every bound axis among `names`. */
    method KeyUpLoop(names: seq<Name>)
      requires Valid()
      modifies this, axisMappingMap.Values
      ensures Valid() && axisMappingMap == old(axisMappingMap)
      ensures Abstract() == EngineModel.KeyUpLoop(old(Abstract()), names)
    {
      for i := 0 to |names|
        invariant Valid() && axisMappingMap == old(axisMappingMap)
        invariant EngineModel.KeyUpLoop(Abstract(), names[i..]) == EngineModel.KeyUpLoop(old(Abstract()), names)
      {
        ghost var before := Abstract();
        var name := names[i];
        assert names[i..][0] == name && names[i..][1..] == names[i + 1..];
        if name in axisMappingMap {
          CancelAxis(name);
        }
        assert EngineModel.KeyUpLoop(before, names[i..]) == EngineModel.KeyUpLoop(Abstract(), names[i + 1..]);
      }
    }

    /** Cancel every bound action and every bound axis among `names`. */
    method TouchReleaseLoop(names: seq<Name>)
      requires Valid()
      modifies this, axisMappingMap.Values
      ensures Valid() && axisMappingMap == old(axisMappingMap)
      ensures Abstract() == EngineModel.TouchReleaseLoop(old(Abstract()), names)
    {
      for i := 0 to |names|
        invariant Valid() && axisMappingMap == old(axisMappingMap)
        invariant EngineModel.TouchReleaseLoop(Abstract(), names[i..])
               == EngineModel.TouchReleaseLoop(old(Abstract()), names)
      {
        ghost var before := Abstract();
        var name := names[i];
        assert names[i..][0] == name && names[i..][1..] == names[i + 1..];
        if name in actionMappingMap {
          var mapping := actionMappingMap[name];
          calls := mapping.Cancel(calls);
        }
        assert Abstract() == if name in before.actionMappingMap then EngineModel.ActionCancel(before, name) else before;
        if name in axisMappingMap {
          CancelAxis(name);
        }
        assert EngineModel.TouchReleaseLoop(before, names[i..]) == EngineModel.TouchReleaseLoop(Abstract(), names[i + 1..]);
      }
    }

    // -------------------------------------------------------------------
    // The process* procedures
    // -------------------------------------------------------------------

    /** processKeyDown, processMouseDown and processTouchStart. */
    method ProcessPress(code: Code)
      requires Valid()
      modifies this
      ensures Valid() && axisMappingMap == old(axisMappingMap)
      ensures Abstract() == EngineModel.ProcessPress(cfg, old(Abstract()), code)
    {
      if code in cfg.inputCodeToMappingNameSet {
        pressedCodes := pressedCodes + {code};
        var names := cfg.inputCodeToMappingNameSet[code];
        assert Abstract() == old(Abstract()).(pressedCodes := old(pressedCodes) + {code});
        PressLoop(names);
      }
    }

    /** processKeyHeld, processMouseHeld, processTouchHeld and processGamepadHeld. */
    method ProcessHeld(code: Code)
      requires Valid() && ScaleLookupsDefined(cfg)
      modifies this, axisMappingMap.Values
      ensures Valid() && axisMappingMap == old(axisMappingMap)
      ensures Abstract() == EngineModel.ProcessHeld(cfg, old(Abstract()), code)
    {
      if code in cfg.inputCodeToMappingNameSet {
        pressedCodes := pressedCodes + {code};
        var names := cfg.inputCodeToMappingNameSet[code];
        assert Abstract() == old(Abstract()).(pressedCodes := old(pressedCodes) + {code});
        HeldLoop(code, names);
      }
    }

    /** processMouseMove, processMouseWheel and processJoystick. */
    method ProcessValue(code: Code, v: real)
      requires Valid() && ScaleLookupsDefined(cfg)
      modifies this, axisMappingMap.Values
      ensures Valid() && axisMappingMap == old(axisMappingMap)
      ensures Abstract() == EngineModel.ProcessValue(cfg, old(Abstract()), code, v)
    {
      if code in cfg.inputCodeToMappingNameSet {
        pressedCodes := pressedCodes + {code};
        var names := cfg.inputCodeToMappingNameSet[code];
        assert Abstract() == old(Abstract()).(pressedCodes := old(pressedCodes) + {code});
        ValueLoop(code, v, names);
      }
    }

    /** processKeyUp. */
    method ProcessKeyUp(code: Code)
      requires Valid()
      modifies this, axisMappingMap.Values
      ensures Valid() && axisMappingMap == old(axisMappingMap)
      ensures Abstract() == EngineModel.ProcessKeyUp(cfg, old(Abstract()), code)
    {
      if code in cfg.inputCodeToMappingNameSet {
        pressedCodes := pressedCodes - {code};
        var names := cfg.inputCodeToMappingNameSet[code];
        assert Abstract() == old(Abstract()).(pressedCodes := old(pressedCodes) - {code});
        KeyUpLoop(names);
      }
    }

    /** processMouseUp: the loop of processMouseDown after deleting the code. */
    method ProcessMouseUp(code: Code)
      requires Valid()
      modifies this
      ensures Valid() && axisMappingMap == old(axisMappingMap)
      ensures Abstract() == EngineModel.ProcessMouseUp(cfg, old(Abstract()), code)
    {
      if code in cfg.inputCodeToMappingNameSet {
        pressedCodes := pressedCodes - {code};
        var names := cfg.inputCodeToMappingNameSet[code];
        assert Abstract() == old(Abstract()).(pressedCodes := old(pressedCodes) - {code});
        PressLoop(names);
      }
    }

    /** processTouchEnd and processTouchCancel. */
    method ProcessTouchRelease(code: Code)
      requires Valid()
      modifies this, axisMappingMap.Values
      ensures Valid() && axisMappingMap == old(axisMappingMap)
      ensures Abstract() == EngineModel.ProcessTouchRelease(cfg, old(Abstract()), code)
    {
      if code in cfg.inputCodeToMappingNameSet {
        pressedCodes := pressedCodes - {code};
        var names := cfg.inputCodeToMappingNameSet[code];
        assert Abstract() == old(Abstract()).(pressedCodes := old(pressedCodes) - {code});
        TouchReleaseLoop(names);
      }
    }

    // -------------------------------------------------------------------
    // The event callbacks
    // -------------------------------------------------------------------

    method OnTouchStart(code: Code)
      requires Valid()
      modifies this, touchHeldHandler
      ensures Valid() && axisMappingMap == old(axisMappingMap)
      ensures Abstract() == EngineModel.OnTouchStart(cfg, old(Abstract()), code)
    {
      touchHeldHandler.EventStart(code);
      ProcessPress(code);
    }

    method OnTouchEnd(code: Code)
      requires Valid()
      modifies this, touchHeldHandler, axisMappingMap.Values
      ensures Valid() && axisMappingMap == old(axisMappingMap)
      ensures Abstract() == EngineModel.OnTouchRelease(cfg, old(Abstract()), code)
    {
      touchHeldHandler.EventEnd(code);
      ProcessTouchRelease(code);
    }

    method OnTouchCancel(code: Code)
      requires Valid()
      modifies this, touchHeldHandler, axisMappingMap.Values
      ensures Valid() && axisMappingMap == old(axisMappingMap)
      ensures Abstract() == EngineModel.OnTouchRelease(cfg, old(Abstract()), code)
    {
      touchHeldHandler.EventEnd(code);
      ProcessTouchRelease(code);
    }

    method OnJoystick(code: Code, v: real)
      requires Valid() && ScaleLookupsDefined(cfg)
      modifies this, axisMappingMap.Values
      ensures Valid() && axisMappingMap == old(axisMappingMap)
      ensures Abstract() == EngineModel.OnJoystick(cfg, old(Abstract()), code, v)
    {
      ProcessValue(code, v);
    }

    /** onKeyDown, given the event's key code. */
    method OnKeyDown(code: Code)
      requires Valid()
      modifies this, keyHeldHandler
      ensures Valid() && axisMappingMap == old(axisMappingMap)
      ensures Abstract() == EngineModel.OnKeyDown(cfg, old(Abstract()), code)
    {
      keyHeldHandler.EventStart(code);
      ProcessPress(code);
    }

    /** onKeyUp, given the event's key code. */
    method OnKeyUp(code: Code)
      requires Valid()
      modifies this, keyHeldHandler, axisMappingMap.Values
      ensures Valid() && axisMappingMap == old(axisMappingMap)
      ensures Abstract() == EngineModel.OnKeyUp(cfg, old(Abstract()), code)
    {
      keyHeldHandler.EventEnd(code);
      ProcessKeyUp(code);
    }

    /** onMouseMove, given the event's deltas. */
    method OnMouseMove(deltaX: real, deltaY: real)
      requires Valid() && ScaleLookupsDefined(cfg)
      modifies this, axisMappingMap.Values
      ensures Valid() && axisMappingMap == old(axisMappingMap)
      ensures Abstract() == EngineModel.OnMouseMove(cfg, old(Abstract()), deltaX, deltaY)
    {
      ProcessValue(MouseX, deltaX);
      ProcessValue(MouseY, deltaY);
    }

    /** onMouseDown, given the event's button. */
    method OnMouseDown(button: int)
      requires Valid()
      modifies this, mouseHeldHandler
      ensures Valid() && axisMappingMap == old(axisMappingMap)
      ensures Abstract() == EngineModel.OnMouseDown(cfg, old(Abstract()), button)
    {
      var key := EngineModel.ButtonCode(cfg, button);
      mouseHeldHandler.EventStart(key);
      match key
      case None =>
      case Some(code) => ProcessPress(code);
    }

    /** onMouseUp, given the event's button. */
    method OnMouseUp(button: int)
      requires Valid()
      modifies this, mouseHeldHandler
      ensures Valid() && axisMappingMap == old(axisMappingMap)
      ensures Abstract() == EngineModel.OnMouseUp(cfg, old(Abstract()), button)
    {
      var key := EngineModel.ButtonCode(cfg, button);
      mouseHeldHandler.EventEnd(key);
      match key
      case None =>
      case Some(code) => ProcessMouseUp(code);
    }

    /** onMouseWheel, given the event's scroll amounts. */
    method OnMouseWheel(scrollX: real, scrollY: real)
      requires Valid() && ScaleLookupsDefined(cfg)
      modifies this, axisMappingMap.Values
      ensures Valid() && axisMappingMap == old(axisMappingMap)
      ensures Abstract() == EngineModel.OnMouseWheel(cfg, old(Abstract()), scrollX, scrollY)
    {
      ProcessValue(MouseWheelX, scrollX);
      ProcessValue(MouseWheelY, scrollY);
    }

    // -------------------------------------------------------------------
    // The per-frame update
    // -------------------------------------------------------------------

    /** `update` of the touch, key or gamepad handler: the held processor on each held code in turn. */
    method UpdateHeld(h: HeldEventHandler<Code>)
      requires Valid() && ScaleLookupsDefined(cfg)
      modifies this, axisMappingMap.Values
      ensures Valid() && axisMappingMap == old(axisMappingMap)
      ensures Abstract() == EngineModel.HeldUpdate(cfg, old(Abstract()), h.heldCodes)
    {
      var codes := h.heldCodes;
      for i := 0 to |codes|
        invariant Valid() && axisMappingMap == old(axisMappingMap) && h.heldCodes == codes
        invariant EngineModel.HeldUpdate(cfg, Abstract(), codes[i..]) == EngineModel.HeldUpdate(cfg, old(Abstract()), codes)
      {
        ghost var before := Abstract();
        assert codes[i..][0] == codes[i] && codes[i..][1..] == codes[i + 1..];
        ProcessHeld(codes[i]);
        assert EngineModel.HeldUpdate(cfg, before, codes[i..]) == EngineModel.HeldUpdate(cfg, Abstract(), codes[i + 1..]);
      }
    }

    /** `update` of the mouse handler; a held `undefined` finds no mapping and does nothing. */
    method UpdateMouseHeld()
      requires Valid() && ScaleLookupsDefined(cfg)
      modifies this, axisMappingMap.Values
      ensures Valid() && axisMappingMap == old(axisMappingMap)
      ensures Abstract() == EngineModel.MouseHeldUpdate(cfg, old(Abstract()), mouseHeldHandler.heldCodes)
    {
      var keys := mouseHeldHandler.heldCodes;
      for i := 0 to |keys|
        invariant Valid() && axisMappingMap == old(axisMappingMap) && mouseHeldHandler.heldCodes == keys
        invariant EngineModel.MouseHeldUpdate(cfg, Abstract(), keys[i..]) == EngineModel.MouseHeldUpdate(cfg, old(Abstract()), keys)
      {
        ghost var before := Abstract();
        assert keys[i..][0] == keys[i] && keys[i..][1..] == keys[i + 1..];
        match keys[i]
        case None =>
        case Some(code) => ProcessHeld(code);
        assert EngineModel.MouseHeldUpdate(cfg, before, keys[i..]) == EngineModel.MouseHeldUpdate(cfg, Abstract(), keys[i + 1..]);
      }
    }

    /** One frame (`Director.EVENT_AFTER_UPDATE`): the handlers in the order they subscribed. */
    method Tick()
      requires Valid() && ScaleLookupsDefined(cfg)
      modifies this, axisMappingMap.Values
      ensures Valid() && axisMappingMap == old(axisMappingMap)
      ensures Abstract() == EngineModel.Tick(cfg, old(Abstract()))
    {
      UpdateHeld(touchHeldHandler);
      UpdateHeld(keyHeldHandler);
      UpdateMouseHeld();
      UpdateHeld(gamepadHeldHandler);
    }
  }
}
