/** Interpreting controller states as logical inputs: whether an input is
    active in one state, and which input, if any, became active between two
    consecutive states.

    `isGCInputActive` and `DetectGCInput` take both thresholds as fractions
    in [0, 1] and scale them to integers with `static_cast<int>(INT8_MAX * t)`.
    `IsActive` and `Detect` here take the scaled integers; `IsGCInputActive`
    and `DetectGCInput` take the fractions and scale them with
    `ScaledThreshold`.
 */
module Classifier {
  import opened Adapter
  import opened GCInputs

  /** `INT8_MAX`. */
  const Int8Max: int := 127

  /** `static_cast<int>(x)`: rounds toward zero. */
  function TruncateToInt(x: real): (r: int)
    ensures 0.0 <= x ==> r as real <= x < r as real + 1.0
    ensures x <= 0.0 ==> r as real - 1.0 < x <= r as real
  {
    if x >= 0.0 then x.Floor else -((-x).Floor)
  }

  /** The integer threshold derived from a fraction `t`: `127 * t`,
      truncated. A fraction in [0, 1] gives a threshold in 0..127, and a larger
      fraction never gives a smaller threshold. */
  function ScaledThreshold(t: real): (r: int)
    ensures 0.0 <= t <= 1.0 ==> 0 <= r <= Int8Max
    ensures 0.0 <= t ==> r as real <= Int8Max as real * t < r as real + 1.0
  {
    TruncateToInt(Int8Max as real * t)
  }

  /** `static_cast<int8_t>(v)`: the value in -128..127 congruent to `v`
      modulo 256. */
  function ToInt8(v: int): (r: int)
    ensures -128 <= r <= 127
    ensures (v - r) % 256 == 0
  {
    var m := v % 256;
    if m < 128 then m else m - 256
  }

  /** The signed deflection of a C-stick axis, `int8_t(raw + 128)`. The
      wrap-around never changes the value: it is the plain offset from the
      centre 128. */
  function CStickDeflection(raw: Byte): (d: int)
    ensures d == raw - 128
    ensures -128 <= d <= 127
  {
    ToInt8(raw + 128)
  }

  /** Whether `input` is active in `state`. Digital inputs read their flag;
      triggers are active strictly above `triggerThresh`; a C-stick direction
      is active when the deflection on its axis is strictly beyond
      `cStickThresh` in that direction. Sentinels are never active. */
  predicate IsActive(state: ControllerState, input: GCInput, triggerThresh: int, cStickThresh: int)
    ensures IsActive(state, input, triggerThresh, cStickThresh) ==> IsReal(input)
  {
    var cX := CStickDeflection(state.rightStickX);
    var cY := CStickDeflection(state.rightStickY);
    match input
    case A => state.buttons1.a
    case B => state.buttons1.b
    case X => state.buttons1.x
    case Y => state.buttons1.y
    case Z => state.buttons2.z
    case Start => state.buttons2.start
    case L => state.buttons2.l
    case R => state.buttons2.r
    case DpadUp => state.buttons1.dpadUp
    case DpadDown => state.buttons1.dpadDown
    case DpadLeft => state.buttons1.dpadLeft
    case DpadRight => state.buttons1.dpadRight
    case LeftTrigger => state.leftTrigger > triggerThresh
    case RightTrigger => state.rightTrigger > triggerThresh
    case CStickUp => cY > cStickThresh
    case CStickDown => cY < -cStickThresh
    case CStickLeft => cX < -cStickThresh
    case CStickRight => cX > cStickThresh
    case _ => false
  }

  /** `isGCInputActive`: activity with the thresholds given as fractions.
      Only real inputs are ever active, and under a fraction in [0, 1] a
      fully pressed trigger (raw 255) is always active. */
  predicate IsGCInputActive(state: ControllerState, input: GCInput, triggerThreshold: real, cStickThreshold: real)
    ensures IsGCInputActive(state, input, triggerThreshold, cStickThreshold) ==> IsReal(input)
    ensures 0.0 <= triggerThreshold <= 1.0 && input == LeftTrigger && state.leftTrigger == 255
            ==> IsGCInputActive(state, input, triggerThreshold, cStickThreshold)
    ensures 0.0 <= triggerThreshold <= 1.0 && input == RightTrigger && state.rightTrigger == 255
            ==> IsGCInputActive(state, input, triggerThreshold, cStickThreshold)
  {
    IsActive(state, input, ScaledThreshold(triggerThreshold), ScaledThreshold(cStickThreshold))
  }

  /** `input` is inactive in `prev` and active in `curr`. */
  predicate Rises(prev: ControllerState, curr: ControllerState, input: GCInput, triggerThresh: int, cStickThresh: int)
  {
    !IsActive(prev, input, triggerThresh, cStickThresh) && IsActive(curr, input, triggerThresh, cStickThresh)
  }

  /** Rising-edge detection as `DetectGCInput` spells it out: a fixed sequence of
      comparisons, digital buttons first, then the triggers, then the C-stick,
      returning the first input that passed from released to pressed, or
      `None`. It never returns `Count`. */
  function Detect(prev: ControllerState, curr: ControllerState, triggerThresh: int, cStickThresh: int): (r: GCInput)
    ensures r != Count
  {
    if !prev.buttons1.a && curr.buttons1.a then A
    else if !prev.buttons1.b && curr.buttons1.b then B
    else if !prev.buttons1.x && curr.buttons1.x then X
    else if !prev.buttons1.y && curr.buttons1.y then Y
    else if !prev.buttons2.z && curr.buttons2.z then Z
    else if !prev.buttons2.start && curr.buttons2.start then Start
    else if !prev.buttons2.l && curr.buttons2.l then L
    else if !prev.buttons2.r && curr.buttons2.r then R
    else if !prev.buttons1.dpadUp && curr.buttons1.dpadUp then DpadUp
    else if !prev.buttons1.dpadDown && curr.buttons1.dpadDown then DpadDown
    else if !prev.buttons1.dpadLeft && curr.buttons1.dpadLeft then DpadLeft
    else if !prev.buttons1.dpadRight && curr.buttons1.dpadRight then DpadRight
    else if prev.leftTrigger <= triggerThresh && curr.leftTrigger > triggerThresh then LeftTrigger
    else if prev.rightTrigger <= triggerThresh && curr.rightTrigger > triggerThresh then RightTrigger
    else
      var prevCX := CStickDeflection(prev.rightStickX);
      var prevCY := CStickDeflection(prev.rightStickY);
      var currCX := CStickDeflection(curr.rightStickX);
      var currCY := CStickDeflection(curr.rightStickY);
      if prevCY <= cStickThresh && currCY > cStickThresh then CStickUp
      else if prevCY >= -cStickThresh && currCY < -cStickThresh then CStickDown
      else if prevCX >= -cStickThresh && currCX < -cStickThresh then CStickLeft
      else if prevCX <= cStickThresh && currCX > cStickThresh then CStickRight
      else None
  }

  /** Whatever the cascade returns, other than `None`, did rise. */
  lemma DetectResultRises(prev: ControllerState, curr: ControllerState, triggerThresh: int, cStickThresh: int)
    ensures var r := Detect(prev, curr, triggerThresh, cStickThresh);
      r != None ==> Rises(prev, curr, r, triggerThresh, cStickThresh)
  {
  }

  /** `DetectGCInput`: detection with the thresholds given as fractions. Its
      result is the first real input, in declaration order, that rises under
      the scaled thresholds, or `None`. */
  function DetectGCInput(prev: ControllerState, curr: ControllerState, triggerThreshold: real, cStickThreshold: real): (r: GCInput)
    ensures r == FirstRising(prev, curr, ScaledThreshold(triggerThreshold), ScaledThreshold(cStickThreshold), RealInputs)
  {
    DetectIsFirstRisingInEnumOrder(prev, curr, ScaledThreshold(triggerThreshold), ScaledThreshold(cStickThreshold));
    Detect(prev, curr, ScaledThreshold(triggerThreshold), ScaledThreshold(cStickThreshold))
  }

  /** The position of the first input of `order` that rises, or `|order|`
      when none does. */
  function FirstRisingIndex(prev: ControllerState, curr: ControllerState, triggerThresh: int, cStickThresh: int,
                            order: seq<GCInput>): (k: nat)
    ensures k <= |order|
    ensures forall j :: 0 <= j < k ==> !Rises(prev, curr, order[j], triggerThresh, cStickThresh)
    ensures k < |order| ==> Rises(prev, curr, order[k], triggerThresh, cStickThresh)
    decreases |order|
  {
    if |order| == 0 then 0
    else if Rises(prev, curr, order[0], triggerThresh, cStickThresh) then 0
    else 1 + FirstRisingIndex(prev, curr, triggerThresh, cStickThresh, order[1..])
  }

  /** The reference reading of rising-edge detection: the first input of
      `order` that rises, or `None`. */
  function FirstRising(prev: ControllerState, curr: ControllerState, triggerThresh: int, cStickThresh: int,
                       order: seq<GCInput>): GCInput
  {
    var k := FirstRisingIndex(prev, curr, triggerThresh, cStickThresh, order);
    if k < |order| then order[k] else None
  }

  /** What the cascade returns is the first rising input in declaration
      order: nothing earlier rises, and `None` means nothing rises at all. */
  lemma DetectReturnsFirst(prev: ControllerState, curr: ControllerState, triggerThresh: int, cStickThresh: int)
    ensures var r := Detect(prev, curr, triggerThresh, cStickThresh);
      && (r != None ==> IsReal(r) && Rises(prev, curr, r, triggerThresh, cStickThresh))
      && (forall j :: 0 <= j < |RealInputs| && (r == None || j < Ordinal(r)) ==>
            !Rises(prev, curr, RealInputs[j], triggerThresh, cStickThresh))
  {
    RealInputsAreInEnumOrder();
    DetectResultRises(prev, curr, triggerThresh, cStickThresh);
  }

  /** The first rising index is determined by the rising inputs: any `m`
      before which nothing rises and at which something rises (or that is the
      end of `order`) is it. */
  lemma FirstRisingIndexUnique(prev: ControllerState, curr: ControllerState, triggerThresh: int,
                                 cStickThresh: int, order: seq<GCInput>, m: nat)
    requires m <= |order|
    requires forall j :: 0 <= j < m ==> !Rises(prev, curr, order[j], triggerThresh, cStickThresh)
    requires m < |order| ==> Rises(prev, curr, order[m], triggerThresh, cStickThresh)
    ensures FirstRisingIndex(prev, curr, triggerThresh, cStickThresh, order) == m
  {
  }

  /** The hard-coded cascade is exactly "the first real input, in declaration
      order, that is inactive in `prev` and active in `curr`, else `None`". */
  lemma DetectIsFirstRisingInEnumOrder(prev: ControllerState, curr: ControllerState, triggerThresh: int, cStickThresh: int)
    ensures Detect(prev, curr, triggerThresh, cStickThresh) == FirstRising(prev, curr, triggerThresh, cStickThresh, RealInputs)
  {
    RealInputsAreInEnumOrder();
    DetectReturnsFirst(prev, curr, triggerThresh, cStickThresh);
    var r := Detect(prev, curr, triggerThresh, cStickThresh);
    if r == None {
      FirstRisingIndexUnique(prev, curr, triggerThresh, cStickThresh, RealInputs, |RealInputs|);
    } else {
      assert RealInputs[Ordinal(r)] == r;
      FirstRisingIndexUnique(prev, curr, triggerThresh, cStickThresh, RealInputs, Ordinal(r));
    }
  }
}
