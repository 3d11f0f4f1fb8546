/**
 * The fixed configuration the input engine reads: the raw input codes
 * (`EInputCode`), the shape of the configuration (`IInputSystemConfig`) and
 * the configuration shipped with the example project (`InputSystemConfig`).
 * The string-keyed object literals of InputSystemConfig.ts become maps keyed
 * by the integer code; the reverse index keeps its arrays as sequences.
 */
module InputSystemConfig {
  import opened Wrappers

  /** A raw input code. */
  type Code = int

  /** A logical mapping name such as "MoveForward". */
  type Name = string

  // ---------------------------------------------------------------------
  // EInputCode
  // ---------------------------------------------------------------------

  const NONE: Code := 0
  const SPACE: Code := 32
  const KEY_A: Code := 65
  const KEY_D: Code := 68
  const KEY_E: Code := 69
  const KEY_S: Code := 83
  const KEY_W: Code := 87

  const MouseX: Code := 100000
  const MouseY: Code := 100001
  const MouseButtonLeft: Code := 100010
  const MouseWheelX: Code := 100050
  const MouseWheelY: Code := 100051
  const GamepadTouch1: Code := 100100
  const GamepadLeftThumbstickAxisX: Code := 100200
  const GamepadLeftThumbstickAxisY: Code := 100201
  const GamepadRightThumbstickAxisX: Code := 100206
  const GamepadRightThumbstickAxisY: Code := 100207

  /** Every keyboard member of the enumeration, from NONE to NUM_ENTER, in five runs. */
  const KeyboardCodes: seq<Code> := ControlKeys + EditKeys + LetterKeys + NumpadKeys + PunctuationKeys

  const ControlKeys: seq<Code> := [0, 6, 8, 9, 13, 16, 17, 18, 19, 20, 27, 32, 33, 34, 35, 36, 37, 38, 39, 40]
  const EditKeys: seq<Code> := [45, 46, 48, 49, 50, 51, 52, 53, 54, 55, 56, 57]
  const LetterKeys: seq<Code> := [
    65, 66, 67, 68, 69, 70, 71, 72, 73, 74, 75, 76, 77, 78, 79, 80, 81, 82, 83, 84, 85, 86, 87, 88, 89, 90]
  const NumpadKeys: seq<Code> := [
    96, 97, 98, 99, 100, 101, 102, 103, 104, 105, 106, 107, 109, 110, 111,
    112, 113, 114, 115, 116, 117, 118, 119, 120, 121, 122, 123]
  const PunctuationKeys: seq<Code> := [
    144, 145, 186, 187, 188, 189, 190, 191, 192, 219, 220, 221, 222, 2000, 2001, 2002, 2003]

  /** The two mouse axes: MouseX and MouseY. */
  const MouseAxisCodes: seq<Code> := [MouseX, MouseY]

  /** MouseButtonLeft, MouseButtonMiddle, MouseButtonRight, MouseButton4 .. MouseButton8. */
  const MouseButtonCodes: seq<Code> := [100010, 100011, 100012, 100013, 100014, 100015, 100016, 100017]

  /** MouseWheelX and MouseWheelY. */
  const MouseWheelCodes: seq<Code> := [MouseWheelX, MouseWheelY]

  /** GamepadTouch1 .. GamepadTouch20. */
  const TouchCodes: seq<Code> := [
    100100, 100101, 100102, 100103, 100104, 100105, 100106, 100107, 100108, 100109,
    100110, 100111, 100112, 100113, 100114, 100115, 100116, 100117, 100118, 100119]

  /** The two thumbsticks: axis X, axis Y, up, left, down and right of each. */
  const ThumbstickCodes: seq<Code> := [
    100200, 100201, 100202, 100203, 100204, 100205, 100206, 100207, 100208, 100209, 100210, 100211]

  /** The source classes the code ranges are partitioned into. */
  datatype SourceClass = Keyboard | MouseAxis | MouseButton | MouseWheel | Touch | Thumbstick

  /** The range of codes reserved for each source class. */
  predicate InRange(c: Code, k: SourceClass)
  {
    match k
    case Keyboard => c < MouseX
    case MouseAxis => MouseX <= c < MouseButtonLeft
    case MouseButton => MouseButtonLeft <= c < MouseWheelX
    case MouseWheel => MouseWheelX <= c < GamepadTouch1
    case Touch => GamepadTouch1 <= c < GamepadLeftThumbstickAxisX
    case Thumbstick => GamepadLeftThumbstickAxisX <= c
  }

  /** The enumeration members of one source class. */
  function MembersOf(k: SourceClass): seq<Code>
  {
    match k
    case Keyboard => KeyboardCodes
    case MouseAxis => MouseAxisCodes
    case MouseButton => MouseButtonCodes
    case MouseWheel => MouseWheelCodes
    case Touch => TouchCodes
    case Thumbstick => ThumbstickCodes
  }

  // ---------------------------------------------------------------------
  // IInputSystemConfig
  // ---------------------------------------------------------------------

  /** One contributing code of an axis mapping (`IAxisMappingKey`). */
  datatype AxisKey = AxisKey(scale: real, code: Code)

  /** One contributing code of an action mapping (`IActionMappingKey`). */
  datatype ActionKey = ActionKey(code: Code)

  datatype Config = Config(
    actionMappingSet: map<Name, map<Code, ActionKey>>,
    axisMappingSet: map<Name, map<Code, AxisKey>>,
    mouseButtonToInputCodeSet: map<int, Code>,
    inputCodeToMappingNameSet: map<Code, seq<Name>>,
    alwaysShowTouch: bool,
    touchPrefabUuid: string)

  /** Every name the reverse index lists for a code is an axis or action mapping fed by that code. */
  ghost predicate ReverseIndexConsistent(cfg: Config)
  {
    forall c, n :: c in cfg.inputCodeToMappingNameSet && n in cfg.inputCodeToMappingNameSet[c] ==>
      (n in cfg.axisMappingSet && c in cfg.axisMappingSet[n]) ||
      (n in cfg.actionMappingSet && c in cfg.actionMappingSet[n])
  }

  /** What the scaling handlers need: `axisMappingSet[name][code]` exists for every axis name listed for a code. */
  ghost predicate ScaleLookupsDefined(cfg: Config)
  {
    forall c, n ::
      (c in cfg.inputCodeToMappingNameSet && n in cfg.inputCodeToMappingNameSet[c] && n in cfg.axisMappingSet) ==>
        c in cfg.axisMappingSet[n]
  }

  /** In every entry the key equals the entry's `code` field. */
  ghost predicate KeysMatchCodes(cfg: Config)
  {
    (forall n, c :: n in cfg.axisMappingSet && c in cfg.axisMappingSet[n] ==> cfg.axisMappingSet[n][c].code == c) &&
    (forall n, c :: n in cfg.actionMappingSet && c in cfg.actionMappingSet[n] ==> cfg.actionMappingSet[n][c].code == c)
  }

  /** No name is both an axis mapping and an action mapping. */
  ghost predicate NamesDisjoint(cfg: Config)
  {
    cfg.axisMappingSet.Keys !! cfg.actionMappingSet.Keys
  }

  /** Every configured axis scale is +1 or -1. */
  ghost predicate UnitScales(cfg: Config)
  {
    forall n, c :: n in cfg.axisMappingSet && c in cfg.axisMappingSet[n] ==>
      cfg.axisMappingSet[n][c].scale == 1.0 || cfg.axisMappingSet[n][c].scale == -1.0
  }

  /**
   * A consistent reverse index over disjoint names makes every scale lookup
   * of the handlers defined.
   */
  lemma ConsistentScaleLookups(cfg: Config)
    requires ReverseIndexConsistent(cfg) && NamesDisjoint(cfg)
    ensures ScaleLookupsDefined(cfg)
  {
  }

  // ---------------------------------------------------------------------
  // The shipped configuration
  // ---------------------------------------------------------------------

  const MoveRight: Name := "MoveRight"
  const MoveForward: Name := "MoveForward"
  const Turn: Name := "Turn"
  const TurnRate: Name := "TurnRate"
  const LookUp: Name := "LookUp"
  const LookUpRate: Name := "LookUpRate"
  const Jump: Name := "Jump"
  const Sprint: Name := "Sprint"
  const Fire: Name := "Fire"

  /** The codes with an entry in the shipped reverse index. */
  const ShippedCodes: set<Code> :=
    {32, 65, 68, 69, 83, 87, 100000, 100001, 100002, 100100, 100101, 100102, 100200, 100201, 100206, 100207}

  /** The mapping names the shipped reverse index lists for a code. */
  function ShippedNames(c: Code): seq<Name>
  {
    if c == 32 || c == 100100 then [Jump]
    else if c == 65 || c == 68 || c == 100200 then [MoveRight]
    else if c == 69 || c == 100101 then [Sprint]
    else if c == 83 || c == 87 || c == 100201 then [MoveForward]
    else if c == 100000 then [Turn]
    else if c == 100001 then [LookUp]
    else if c == 100002 || c == 100102 then [Fire]
    else if c == 100206 then [TurnRate]
    else if c == 100207 then [LookUpRate]
    else []
  }

  const ShippedReverseIndex: map<Code, seq<Name>> := map c | c in ShippedCodes :: ShippedNames(c)

  const ShippedAxisMappings: map<Name, map<Code, AxisKey>> := map[
    MoveRight := map[65 := AxisKey(-1.0, 65), 68 := AxisKey(1.0, 68), 100200 := AxisKey(1.0, 100200)],
    MoveForward := map[83 := AxisKey(-1.0, 83), 87 := AxisKey(1.0, 87), 100201 := AxisKey(1.0, 100201)],
    Turn := map[100000 := AxisKey(-1.0, 100000)],
    TurnRate := map[100206 := AxisKey(-1.0, 100206)],
    LookUp := map[100001 := AxisKey(1.0, 100001)],
    LookUpRate := map[100207 := AxisKey(1.0, 100207)]
  ]

  const ShippedActionMappings: map<Name, map<Code, ActionKey>> := map[
    Jump := map[32 := ActionKey(32), 100100 := ActionKey(100100)],
    Sprint := map[69 := ActionKey(69), 100101 := ActionKey(100101)],
    Fire := map[100002 := ActionKey(100002), 100102 := ActionKey(100102)]
  ]

  const ShippedMouseButtons: map<int, Code> :=
    map[0 := 100010, 1 := 100011, 2 := 100012, 3 := 100013, 4 := 100014, 5 := 100015, 6 := 100016, 7 := 100017]

  /** The configuration shipped with the example project. */
  const InputSystemConfig: Config := Config(
    ShippedActionMappings,
    ShippedAxisMappings,
    ShippedMouseButtons,
    ShippedReverseIndex,
    true,
    "083be61c-e5bc-4b83-8d79-90a1f9056fca")

  // ---------------------------------------------------------------------
  // Properties of the enumeration and of the shipped configuration
  // ---------------------------------------------------------------------

  /** Every member of a source class lies in that class's range, and the ranges do not overlap. */
  lemma CodeRangesPartitioned()
    ensures forall k: SourceClass, c :: c in MembersOf(k) ==> InRange(c, k)
    ensures forall c, k1: SourceClass, k2: SourceClass :: InRange(c, k1) && InRange(c, k2) ==> k1 == k2
  {
    forall k: SourceClass, c | c in MembersOf(k) ensures InRange(c, k) {
      match k
      case Keyboard => KeyboardBelowMouse(c);
      case _ =>
    }
  }

  lemma KeyboardBelowMouse(c: Code)
    requires c in KeyboardCodes
    ensures c < MouseX
  {
    assert c in ControlKeys || c in EditKeys || c in LetterKeys || c in NumpadKeys || c in PunctuationKeys;
  }

  /** Mouse button `i` is reported as code MouseButtonLeft + i, for the eight buttons 0 .. 7. */
  lemma FixtureMouseButtons()
    ensures forall i :: i in InputSystemConfig.mouseButtonToInputCodeSet <==> 0 <= i < 8
    ensures forall i :: 0 <= i < 8 ==> InputSystemConfig.mouseButtonToInputCodeSet[i] == MouseButtonLeft + i
    ensures forall i :: 0 <= i < 8 ==> InputSystemConfig.mouseButtonToInputCodeSet[i] == MouseButtonCodes[i]
  {
  }

  lemma FixtureReverseIndexConsistent()
    ensures ReverseIndexConsistent(InputSystemConfig)
  {
  }

  lemma FixtureKeysMatchCodes()
    ensures KeysMatchCodes(InputSystemConfig)
  {
  }

  lemma FixtureNamesDisjoint()
    ensures NamesDisjoint(InputSystemConfig)
  {
  }

  lemma FixtureUnitScales()
    ensures UnitScales(InputSystemConfig)
  {
  }

  lemma FixtureScaleLookupsDefined()
    ensures ScaleLookupsDefined(InputSystemConfig)
  {
    FixtureReverseIndexConsistent();
    FixtureNamesDisjoint();
    ConsistentScaleLookups(InputSystemConfig);
  }

  /** A and D drive MoveRight with opposite signs; S and W drive MoveForward with opposite signs. */
  lemma FixtureMovementAxes()
    ensures KEY_A in InputSystemConfig.axisMappingSet[MoveRight] && InputSystemConfig.axisMappingSet[MoveRight][KEY_A].scale == -1.0
    ensures KEY_D in InputSystemConfig.axisMappingSet[MoveRight] && InputSystemConfig.axisMappingSet[MoveRight][KEY_D].scale == 1.0
    ensures KEY_S in InputSystemConfig.axisMappingSet[MoveForward] && InputSystemConfig.axisMappingSet[MoveForward][KEY_S].scale == -1.0
    ensures KEY_W in InputSystemConfig.axisMappingSet[MoveForward] && InputSystemConfig.axisMappingSet[MoveForward][KEY_W].scale == 1.0
  {
  }

  /** No mouse button code has an entry in the reverse index. */
  lemma FixtureMouseButtonsUnmapped()
    ensures forall i :: i in InputSystemConfig.mouseButtonToInputCodeSet ==>
      InputSystemConfig.mouseButtonToInputCodeSet[i] !in InputSystemConfig.inputCodeToMappingNameSet
  {
    FixtureMouseButtons();
  }

  /** The code 100002 that feeds "Fire" is a member of no source class of the enumeration. */
  lemma FixtureFireCodeUnlisted()
    ensures 100002 in InputSystemConfig.actionMappingSet[Fire]
    ensures forall k: SourceClass :: 100002 !in MembersOf(k)
  {
    CodeRangesPartitioned();
  }
}
