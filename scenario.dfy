/** Runs of the shipped configuration. */
module FixtureScenario {
  import opened Wrappers
  import opened InputSystemConfig
  import opened EngineModel
  import opened EngineProperties
  import opened EngineInvariant

  /** Hold W, add S, let go of S, let go of W, with a frame after each of the first three changes. */
  function ForwardBackScript(f: Callback): seq<Event>
  {
    [BindAxisTo(MoveForward, f), KeyDown(KEY_W), Frame, KeyDown(KEY_S), Frame, KeyUp(KEY_S), Frame, KeyUp(KEY_W)]
  }

  /**
   * A press of a code none of whose names has a bound action only marks the
   * code held and, when the index lists it, pressed.
   */
  lemma PressWithoutActions(cfg: Config, e: Engine, code: Code)
    requires forall n :: n in Names(cfg, code) ==> n !in e.actionMappingMap
    ensures OnKeyDown(cfg, e, code) ==
      e.(keyHeld := EventStart(e.keyHeld, code),
         pressedCodes := e.pressedCodes + (if Mapped(cfg, code) then {code} else {}))
  {
    var h := e.(keyHeld := EventStart(e.keyHeld, code));
    PressInvokesActions(cfg, h, code);
    ActionCallsForUnbound(h.actionMappingMap, Names(cfg, code));
    KeyDownPressed(cfg, e, code, code);
  }

  /** A release of a code feeding one bound axis is one cancel of that axis. */
  lemma ReleaseOneAxis(cfg: Config, e: Engine, code: Code, n: Name)
    requires Names(cfg, code) == [n] && n in e.axisMappingMap
    ensures OnKeyUp(cfg, e, code) ==
      AxisCancel(e.(keyHeld := EventEnd(e.keyHeld, code), pressedCodes := e.pressedCodes - {code}), n)
  {
    var u := e.(keyHeld := EventEnd(e.keyHeld, code), pressedCodes := e.pressedCodes - {code});
    assert KeyUpLoop(u, [n]) == KeyUpLoop(AxisCancel(u, n), []);
  }

  /** A frame with two held keys feeding the same bound axis executes it for each key in the order they were pressed. */
  lemma TwoKeysTick(cfg: Config, e: Engine, c1: Code, c2: Code, n: Name)
    requires ScaleLookupsDefined(cfg) && AxesConfigured(cfg, e)
    requires e.touchHeld == [] && e.keyHeld == [c1, c2] && e.mouseHeld == [] && e.gamepadHeld == []
    requires Names(cfg, c1) == [n] && Names(cfg, c2) == [n] && n in e.axisMappingMap
    ensures Tick(cfg, e) ==
      AxisExecute(AxisExecute(e.(pressedCodes := e.pressedCodes + {c1, c2}), n, Scaled(cfg, n, c1, 1.0)), n, Scaled(cfg, n, c2, 1.0))
  {
    var e0 := e.(pressedCodes := e.pressedCodes + {c1});
    var h1 := AxisExecute(e0, n, Scaled(cfg, n, c1, 1.0));
    assert HeldLoop(cfg, e0, c1, [n]) == HeldLoop(cfg, h1, c1, []);
    assert ProcessHeld(cfg, e, c1) == h1;
    var h1' := h1.(pressedCodes := h1.pressedCodes + {c2});
    var h2 := AxisExecute(h1', n, Scaled(cfg, n, c2, 1.0));
    assert HeldLoop(cfg, h1', c2, [n]) == HeldLoop(cfg, h2, c2, []);
    assert ProcessHeld(cfg, h1, c2) == h2;
    assert HeldUpdate(cfg, e, [c1, c2]) == HeldUpdate(cfg, h1, [c2]);
    assert HeldUpdate(cfg, h1, [c2]) == HeldUpdate(cfg, h2, []);
    assert e.pressedCodes + {c1} + {c2} == e.pressedCodes + {c1, c2};
  }

  /** The facts about the shipped configuration that the script relies on. */
  ghost predicate ForwardBackFacts(cfg: Config)
  {
    ScaleLookupsDefined(cfg) &&
    MoveForward in cfg.axisMappingSet && MoveForward !in cfg.actionMappingSet &&
    Names(cfg, KEY_W) == [MoveForward] && Names(cfg, KEY_S) == [MoveForward] &&
    KEY_W in cfg.axisMappingSet[MoveForward] && KEY_S in cfg.axisMappingSet[MoveForward] &&
    Scaled(cfg, MoveForward, KEY_W, 1.0) == 1.0 && Scaled(cfg, MoveForward, KEY_S, 1.0) == -1.0
  }

  lemma FixtureForwardBackFacts()
    ensures ForwardBackFacts(InputSystemConfig.InputSystemConfig)
  {
    FixtureScaleLookupsDefined();
    FixtureMovementAxes();
  }

  /** One bound axis `MoveForward` holding `v`. */
  function Forward(f: Callback, v: real): map<Name, AxisState>
  {
    map[MoveForward := AxisState(MoveForward, f, v)]
  }

  /** Bind, then press W. */
  lemma ForwardBackBind(cfg: Config, f: Callback, s1: Engine, s2: Engine)
    requires ForwardBackFacts(cfg)
    requires s1 == Step(cfg, Initial(), BindAxisTo(MoveForward, f))
    requires s2 == Step(cfg, s1, KeyDown(KEY_W))
    ensures s2 == Engine({KEY_W}, Forward(f, 0.0), map[], [], [KEY_W], [], [], [])
  {
    assert s1 == Engine({}, Forward(f, 0.0), map[], [], [], [], [], []);
    PressWithoutActions(cfg, s1, KEY_W);
  }

  /** One frame with W held, then press S. */
  lemma ForwardBackFirst(cfg: Config, f: Callback, s2: Engine, s3: Engine, s4: Engine)
    requires ForwardBackFacts(cfg)
    requires s2 == Engine({KEY_W}, Forward(f, 0.0), map[], [], [KEY_W], [], [], [])
    requires s3 == Step(cfg, s2, Frame)
    requires s4 == Step(cfg, s3, KeyDown(KEY_S))
    ensures s4 == Engine({KEY_W, KEY_S}, Forward(f, 1.0), map[], [], [KEY_W, KEY_S], [], [], [AxisCall(MoveForward, f, 1.0)])
  {
    LoneKeyTick(cfg, s2, KEY_W, MoveForward);
    assert s3 == Engine({KEY_W}, Forward(f, 1.0), map[], [], [KEY_W], [], [], [AxisCall(MoveForward, f, 1.0)]);
    PressWithoutActions(cfg, s3, KEY_S);
    assert {KEY_W} + {KEY_S} == {KEY_W, KEY_S};
  }

  /** One frame with W and S held, then release S. */
  lemma ForwardBackMiddle(cfg: Config, f: Callback, s4: Engine, s5: Engine, s6: Engine)
    requires ForwardBackFacts(cfg)
    requires s4 == Engine({KEY_W, KEY_S}, Forward(f, 1.0), map[], [], [KEY_W, KEY_S], [], [], [AxisCall(MoveForward, f, 1.0)])
    requires s5 == Step(cfg, s4, Frame)
    requires s6 == Step(cfg, s5, KeyUp(KEY_S))
    ensures s6 == Engine({KEY_W}, Forward(f, 0.0), map[], [], [KEY_W], [], [],
      [AxisCall(MoveForward, f, 1.0), AxisCall(MoveForward, f, 1.0), AxisCall(MoveForward, f, -1.0), AxisCall(MoveForward, f, 0.0)])
  {
    TwoKeysTick(cfg, s4, KEY_W, KEY_S, MoveForward);
    assert s5 == Engine({KEY_W, KEY_S}, Forward(f, -1.0), map[], [], [KEY_W, KEY_S], [], [],
      [AxisCall(MoveForward, f, 1.0), AxisCall(MoveForward, f, 1.0), AxisCall(MoveForward, f, -1.0)]);
    assert EventEnd([KEY_W, KEY_S], KEY_S) == [KEY_W];
    ReleaseOneAxis(cfg, s5, KEY_S, MoveForward);
  }

  /** One frame with W held, then release W. */
  lemma ForwardBackLast(cfg: Config, f: Callback, s6: Engine, s7: Engine, s8: Engine)
    requires ForwardBackFacts(cfg)
    requires s6 == Engine({KEY_W}, Forward(f, 0.0), map[], [], [KEY_W], [], [],
      [AxisCall(MoveForward, f, 1.0), AxisCall(MoveForward, f, 1.0), AxisCall(MoveForward, f, -1.0), AxisCall(MoveForward, f, 0.0)])
    requires s7 == Step(cfg, s6, Frame)
    requires s8 == Step(cfg, s7, KeyUp(KEY_W))
    ensures s8 == Engine({}, Forward(f, 0.0), map[], [], [], [], [],
      [AxisCall(MoveForward, f, 1.0), AxisCall(MoveForward, f, 1.0), AxisCall(MoveForward, f, -1.0),
       AxisCall(MoveForward, f, 0.0), AxisCall(MoveForward, f, 1.0), AxisCall(MoveForward, f, 0.0)])
  {
    LoneKeyTick(cfg, s6, KEY_W, MoveForward);
    assert s7 == Engine({KEY_W}, Forward(f, 1.0), map[], [], [KEY_W], [], [], s6.calls + [AxisCall(MoveForward, f, 1.0)]);
    assert EventEnd([KEY_W], KEY_W) == [];
    ReleaseOneAxis(cfg, s7, KEY_W, MoveForward);
  }

  /**
   * With W and S both held the later key wins within a frame, letting go of S
   * sends 0 although W is still held, and the next frame sends W's 1 again.
   */
  lemma ForwardBackScenario(f: Callback)
    ensures ScaleLookupsDefined(InputSystemConfig.InputSystemConfig)
    ensures var r := Run(InputSystemConfig.InputSystemConfig, Initial(), ForwardBackScript(f));
      r.calls == [AxisCall(MoveForward, f, 1.0), AxisCall(MoveForward, f, 1.0), AxisCall(MoveForward, f, -1.0),
                  AxisCall(MoveForward, f, 0.0), AxisCall(MoveForward, f, 1.0), AxisCall(MoveForward, f, 0.0)] &&
      r.pressedCodes == {} && r.keyHeld == [] &&
      r.axisMappingMap == map[MoveForward := AxisState(MoveForward, f, 0.0)]
  {
    var cfg := InputSystemConfig.InputSystemConfig;
    FixtureScaleLookupsDefined();
    var script := ForwardBackScript(f);
    var s1 := Step(cfg, Initial(), script[0]);
    var s2 := Step(cfg, s1, script[1]);
    var s3 := Step(cfg, s2, script[2]);
    var s4 := Step(cfg, s3, script[3]);
    var s5 := Step(cfg, s4, script[4]);
    var s6 := Step(cfg, s5, script[5]);
    var s7 := Step(cfg, s6, script[6]);
    var s8 := Step(cfg, s7, script[7]);
    FixtureForwardBackFacts();
    ForwardBackBind(cfg, f, s1, s2);
    ForwardBackFirst(cfg, f, s2, s3, s4);
    ForwardBackMiddle(cfg, f, s4, s5, s6);
    ForwardBackLast(cfg, f, s6, s7, s8);
    assert Run(cfg, s8, script[8..]) == s8;
    assert Run(cfg, s7, script[7..]) == Run(cfg, s8, script[8..]);
    assert Run(cfg, s6, script[6..]) == Run(cfg, s7, script[7..]);
    assert Run(cfg, s5, script[5..]) == Run(cfg, s6, script[6..]);
    assert Run(cfg, s4, script[4..]) == Run(cfg, s5, script[5..]);
    assert Run(cfg, s3, script[3..]) == Run(cfg, s4, script[4..]);
    assert Run(cfg, s2, script[2..]) == Run(cfg, s3, script[3..]);
    assert Run(cfg, s1, script[1..]) == Run(cfg, s2, script[2..]);
  }

  /**
   * No mouse button of the shipped configuration reaches a callback: every
   * button's code is missing from the reverse index, so a click only enters
   * or leaves the mouse handler.
   */
  lemma FixtureMouseButtonsInert(e: Engine, button: int)
    ensures OnMouseDown(InputSystemConfig.InputSystemConfig, e, button) ==
      e.(mouseHeld := EventStart(e.mouseHeld, ButtonCode(InputSystemConfig.InputSystemConfig, button)))
    ensures OnMouseUp(InputSystemConfig.InputSystemConfig, e, button) ==
      e.(mouseHeld := EventEnd(e.mouseHeld, ButtonCode(InputSystemConfig.InputSystemConfig, button)))
  {
    FixtureMouseButtonsUnmapped();
  }
}
