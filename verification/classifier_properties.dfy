/** Properties of input classification and rising-edge detection, and the
    worked examples of their behaviour. */
module ClassifierProperties {
  import opened Adapter
  import opened GCInputs
  import opened Classifier

  /** Where each digital input lives in the raw report: byte 1 holds A, B, X,
      Y, DpadLeft, DpadRight, DpadDown, DpadUp in bits 0..7; byte 2 holds
      Start, Z, R, L in bits 0..3. This is the button layout written out a
      second time, independently of `DecodeButtons1` and `DecodeButtons2`: it
      is the reference that `DigitalInputReadsReportBit` checks the decoder
      and `IsActive` against. */
  function ReportPosition(i: GCInput): (p: (nat, nat))
    requires IsDigital(i)
    ensures p.0 in {1, 2} && p.1 < 8
  {
    match i
    case A => (1, 0)
    case B => (1, 1)
    case X => (1, 2)
    case Y => (1, 3)
    case DpadLeft => (1, 4)
    case DpadRight => (1, 5)
    case DpadDown => (1, 6)
    case DpadUp => (1, 7)
    case Start => (2, 0)
    case Z => (2, 1)
    case R => (2, 2)
    case L => (2, 3)
  }

  /** A digital input of a decoded report is active exactly when its bit of
      the report is set, whatever the thresholds. */
  lemma DigitalInputReadsReportBit(report: seq<int>, i: GCInput, triggerThresh: int, cStickThresh: int)
    requires IsReport(report)
    requires IsDigital(i)
    ensures IsActive(Decode(report), i, triggerThresh, cStickThresh)
        <==> Bit(report[ReportPosition(i).0], ReportPosition(i).1)
  {
  }

  /** Digital inputs do not depend on either threshold. */
  lemma DigitalInputIgnoresThresholds(s: ControllerState, i: GCInput, tt1: int, ct1: int, tt2: int, ct2: int)
    requires IsDigital(i)
    ensures IsActive(s, i, tt1, ct1) == IsActive(s, i, tt2, ct2)
  {
  }

  /** `None`, `Count` and every input that is not real are never active. */
  lemma SentinelsNeverActive(s: ControllerState, i: GCInput, triggerThresh: int, cStickThresh: int)
    requires !IsReal(i)
    ensures !IsActive(s, i, triggerThresh, cStickThresh)
  {
  }

  /** Threshold scaling truncates: 0 gives 0, one half gives 63 (127 * 0.5 is
      63.5), 1 gives 127. */
  lemma ScaledThresholdExamples()
    ensures ScaledThreshold(0.0) == 0
    ensures ScaledThreshold(0.5) == 63
    ensures ScaledThreshold(1.0) == 127
  {
  }

  /** A higher fraction never gives a lower threshold: truncation toward
      zero is monotone on both signs. */
  lemma ScaledThresholdMonotone(t1: real, t2: real)
    requires t1 <= t2
    ensures ScaledThreshold(t1) <= ScaledThreshold(t2)
  {
  }

  /** Pressing a trigger further never releases it. */
  lemma TriggerMonotone(s1: ControllerState, s2: ControllerState, triggerThresh: int, cStickThresh: int)
    ensures s1.leftTrigger <= s2.leftTrigger && IsActive(s1, LeftTrigger, triggerThresh, cStickThresh)
            ==> IsActive(s2, LeftTrigger, triggerThresh, cStickThresh)
    ensures s1.rightTrigger <= s2.rightTrigger && IsActive(s1, RightTrigger, triggerThresh, cStickThresh)
            ==> IsActive(s2, RightTrigger, triggerThresh, cStickThresh)
  {
  }

  /** A released trigger is inactive under any non-negative threshold. */
  lemma ReleasedTriggerInactive(s: ControllerState, triggerThresh: int, cStickThresh: int)
    requires triggerThresh >= 0
    ensures s.leftTrigger == 0 ==> !IsActive(s, LeftTrigger, triggerThresh, cStickThresh)
    ensures s.rightTrigger == 0 ==> !IsActive(s, RightTrigger, triggerThresh, cStickThresh)
  {
  }

  /** At the highest threshold, 127, a trigger is active exactly for raw
      values 128..255. */
  lemma FullThresholdTrigger(s: ControllerState, cStickThresh: int)
    ensures IsActive(s, LeftTrigger, Int8Max, cStickThresh) <==> 128 <= s.leftTrigger <= 255
    ensures IsActive(s, RightTrigger, Int8Max, cStickThresh) <==> 128 <= s.rightTrigger <= 255
  {
  }

  /** With the trigger threshold at one half the scaled threshold is 63, so a
      trigger is active from raw value 64 on. */
  lemma HalfThresholdTrigger(s: ControllerState, cStickThreshold: real)
    ensures IsGCInputActive(s, RightTrigger, 0.5, cStickThreshold) <==> s.rightTrigger >= 64
    ensures IsGCInputActive(s, LeftTrigger, 0.5, cStickThreshold) <==> s.leftTrigger >= 64
  {
    ScaledThresholdExamples();
  }

  /** The 8-bit wrap-around of the C-stick recentering: raw 128 is the centre,
      raw 220 is 92 up or right, raw 0 and raw 255 are the extremes. */
  lemma CStickDeflectionExamples()
    ensures CStickDeflection(128) == 0
    ensures CStickDeflection(220) == 92
    ensures CStickDeflection(0) == -128
    ensures CStickDeflection(255) == 127
  {
  }

  /** Under a non-negative threshold opposite C-stick directions are never
      active together. */
  lemma CStickOppositesExclusive(s: ControllerState, triggerThresh: int, cStickThresh: int)
    requires cStickThresh >= 0
    ensures !(IsActive(s, CStickUp, triggerThresh, cStickThresh) && IsActive(s, CStickDown, triggerThresh, cStickThresh))
    ensures !(IsActive(s, CStickLeft, triggerThresh, cStickThresh) && IsActive(s, CStickRight, triggerThresh, cStickThresh))
  {
  }

  /** A centred C-stick axis activates neither of its directions under a
      non-negative threshold. */
  lemma CentredCStickInactive(s: ControllerState, triggerThresh: int, cStickThresh: int)
    requires cStickThresh >= 0
    ensures s.rightStickY == 128 ==>
      !IsActive(s, CStickUp, triggerThresh, cStickThresh) && !IsActive(s, CStickDown, triggerThresh, cStickThresh)
    ensures s.rightStickX == 128 ==>
      !IsActive(s, CStickLeft, triggerThresh, cStickThresh) && !IsActive(s, CStickRight, triggerThresh, cStickThresh)
  {
  }

  /** At the highest threshold, 127, the directions are lopsided: Up and
      Right can never be active, since no deflection exceeds 127, while Down
      and Left are active at the raw extreme 0. */
  lemma FullThresholdCStick(s: ControllerState, triggerThresh: int)
    ensures !IsActive(s, CStickUp, triggerThresh, Int8Max)
    ensures !IsActive(s, CStickRight, triggerThresh, Int8Max)
    ensures IsActive(s, CStickDown, triggerThresh, Int8Max) <==> s.rightStickY == 0
    ensures IsActive(s, CStickLeft, triggerThresh, Int8Max) <==> s.rightStickX == 0
  {
  }

  /** The all-zero report is not all-inactive: its C-stick bytes recenter
      to -128, so for every threshold in 0..127
      exactly CStickDown and CStickLeft are active. */
  lemma ZeroReportActivity(i: GCInput, triggerThresh: int, cStickThresh: int)
    requires triggerThresh >= 0
    requires 0 <= cStickThresh < 128
    ensures IsReport(ZeroReport)
    ensures IsActive(Decode(ZeroReport), i, triggerThresh, cStickThresh) <==> i == CStickDown || i == CStickLeft
  {
    DecodeZeroReport();
  }

  /** What the zero report means for detection: when a port that read as
      neutral starts reading all zero, the cascade reports C-stick Down for
      every trigger threshold and every C-stick threshold in 0..127. Whether
      the polling code ever hands over such a report, for example for an
      unplugged controller, is outside this model. */
  lemma ZeroReportDetectedAsCStickDown(triggerThresh: int, cStickThresh: int)
    requires 0 <= cStickThresh < 128
    ensures IsReport(ZeroReport)
    ensures Detect(Neutral, Decode(ZeroReport), triggerThresh, cStickThresh) == CStickDown
  {
    DecodeZeroReport();
  }

  /** Detection is irreflexive: the same state twice never yields an input. */
  lemma DetectSameStateIsNone(s: ControllerState, triggerThresh: int, cStickThresh: int)
    ensures Detect(s, s, triggerThresh, cStickThresh) == None
  {
    DetectResultRises(s, s, triggerThresh, cStickThresh);
  }

  /** Detection reports `None` exactly when no real input rises. */
  lemma DetectNoneIffNothingRises(prev: ControllerState, curr: ControllerState, triggerThresh: int, cStickThresh: int)
    ensures Detect(prev, curr, triggerThresh, cStickThresh) == None
        <==> forall i :: IsReal(i) ==> !Rises(prev, curr, i, triggerThresh, cStickThresh)
  {
    DetectReturnsFirst(prev, curr, triggerThresh, cStickThresh);
    RealInputsAreInEnumOrder();
    if Detect(prev, curr, triggerThresh, cStickThresh) == None {
      forall i | IsReal(i)
        ensures !Rises(prev, curr, i, triggerThresh, cStickThresh)
      {
        assert RealInputs[Ordinal(i)] == i;
      }
    }
  }

  /** Of two inputs that rise together, the later one in declaration order is
      never reported. */
  lemma DetectPrefersEarlier(prev: ControllerState, curr: ControllerState, i: GCInput, j: GCInput,
                             triggerThresh: int, cStickThresh: int)
    requires IsReal(i) && IsReal(j) && Ordinal(i) < Ordinal(j)
    requires Rises(prev, curr, i, triggerThresh, cStickThresh)
    ensures Detect(prev, curr, triggerThresh, cStickThresh) != j
  {
    DetectReturnsFirst(prev, curr, triggerThresh, cStickThresh);
    RealInputsAreInEnumOrder();
    assert RealInputs[Ordinal(i)] == i;
  }

  /** A state with every button released, both triggers released and both
      sticks centred. */
  const Neutral: ControllerState :=
    ControllerState(0, Buttons1(false, false, false, false, false, false, false, false),
                    Buttons2(false, false, false, false), 128, 128, 128, 128, 0, 0)

  /** Pressing only A is detected as A, whatever the thresholds, since A is
      the cascade's first test. */
  lemma PressAExample(triggerThreshold: real, cStickThreshold: real)
    ensures DetectGCInput(Neutral, Neutral.(buttons1 := Neutral.buttons1.(a := true)),
                          triggerThreshold, cStickThreshold) == A
  {
  }

  /** Pressing A and Start in the same poll is detected as A. */
  lemma PressAAndStartExample(triggerThreshold: real, cStickThreshold: real)
    ensures DetectGCInput(Neutral,
                          Neutral.(buttons1 := Neutral.buttons1.(a := true), buttons2 := Neutral.buttons2.(start := true)),
                          triggerThreshold, cStickThreshold) == A
  {
  }

  /** With the trigger threshold at one half, pulling the right trigger from
      0 to 63 is not detected, but pulling it to 64 is. */
  lemma RightTriggerExample(cStickThreshold: real)
    ensures DetectGCInput(Neutral, Neutral.(rightTrigger := 63), 0.5, cStickThreshold) == None
    ensures DetectGCInput(Neutral, Neutral.(rightTrigger := 64), 0.5, cStickThreshold) == RightTrigger
  {
    ScaledThresholdExamples();
  }

  /** With the C-stick threshold at one half, moving the C-stick from the
      centre to raw 220 on the Y axis is detected as CStickUp. */
  lemma CStickUpExample(triggerThreshold: real)
    ensures DetectGCInput(Neutral, Neutral.(rightStickY := 220), triggerThreshold, 0.5) == CStickUp
  {
    ScaledThresholdExamples();
  }
}
