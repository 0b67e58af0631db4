/** Which GameCube input drives each of the fourteen N64 buttons. */
module Mapping {
  import opened GCInputs

  /** The N64 buttons that can be bound, in the order of `ButtonMapping`'s
      fields. */
  datatype N64Button =
    | N64A | N64B | N64Start | N64Z | N64L | N64R
    | N64DpadUp | N64DpadDown | N64DpadLeft | N64DpadRight
    | N64CUp | N64CDown | N64CLeft | N64CRight

  /** Number of bindable N64 buttons. */
  const N64ButtonCount: nat := 14

  /** Every N64 button, in field order. */
  const AllN64Buttons: seq<N64Button> :=
    [N64A, N64B, N64Start, N64Z, N64L, N64R,
     N64DpadUp, N64DpadDown, N64DpadLeft, N64DpadRight,
     N64CUp, N64CDown, N64CLeft, N64CRight]

  /** The position of each button in `AllN64Buttons`. */
  function Slot(b: N64Button): nat
  {
    match b
    case N64A => 0
    case N64B => 1
    case N64Start => 2
    case N64Z => 3
    case N64L => 4
    case N64R => 5
    case N64DpadUp => 6
    case N64DpadDown => 7
    case N64DpadLeft => 8
    case N64DpadRight => 9
    case N64CUp => 10
    case N64CDown => 11
    case N64CLeft => 12
    case N64CRight => 13
  }

  /** `AllN64Buttons` lists every button exactly once, each at its slot. */
  lemma AllN64ButtonsComplete()
    ensures |AllN64Buttons| == N64ButtonCount
    ensures forall b: N64Button :: Slot(b) < N64ButtonCount && AllN64Buttons[Slot(b)] == b
    ensures forall j, k :: 0 <= j < k < |AllN64Buttons| ==> AllN64Buttons[j] != AllN64Buttons[k]
  {
  }

  /** One GameCube input per N64 button. */
  datatype ButtonMapping = ButtonMapping(
    a: GCInput, b: GCInput, start: GCInput, z: GCInput, l: GCInput, r: GCInput,
    dpadUp: GCInput, dpadDown: GCInput, dpadLeft: GCInput, dpadRight: GCInput,
    cUp: GCInput, cDown: GCInput, cLeft: GCInput, cRight: GCInput)

  /** The GameCube input bound to `button`. */
  function Source(m: ButtonMapping, button: N64Button): GCInput
  {
    match button
    case N64A => m.a
    case N64B => m.b
    case N64Start => m.start
    case N64Z => m.z
    case N64L => m.l
    case N64R => m.r
    case N64DpadUp => m.dpadUp
    case N64DpadDown => m.dpadDown
    case N64DpadLeft => m.dpadLeft
    case N64DpadRight => m.dpadRight
    case N64CUp => m.cUp
    case N64CDown => m.cDown
    case N64CLeft => m.cLeft
    case N64CRight => m.cRight
  }

  /** The mapping a fresh configuration starts from: like-named buttons, the
      analog triggers for L and R, and the C-stick for the C buttons. Every
      button gets a real input, and no input drives two buttons. */
  function DefaultMapping(): (m: ButtonMapping)
    ensures forall i :: i in Sources(m) ==> IsReal(i)
    ensures forall j, k :: 0 <= j < k < |Sources(m)| ==> Sources(m)[j] != Sources(m)[k]
  {
    ButtonMapping(
      A, B, Start, Z, LeftTrigger, RightTrigger,
      DpadUp, DpadDown, DpadLeft, DpadRight,
      CStickUp, CStickDown, CStickLeft, CStickRight)
  }

  /** The default mapping binds every N64 button to a real input, and no
      input to two buttons. */
  lemma DefaultMappingIsInjective(b1: N64Button, b2: N64Button)
    ensures IsReal(Source(DefaultMapping(), b1))
    ensures Source(DefaultMapping(), b1) == Source(DefaultMapping(), b2) ==> b1 == b2
  {
    var s := Sources(DefaultMapping());
    assert s[Slot(b1)] == Source(DefaultMapping(), b1) && s[Slot(b2)] == Source(DefaultMapping(), b2);
    if Slot(b1) < Slot(b2) {
      assert s[Slot(b1)] != s[Slot(b2)];
    } else if Slot(b2) < Slot(b1) {
      assert s[Slot(b2)] != s[Slot(b1)];
    }
  }

  /** Which input the default mapping binds to each button: A, B, Start, Z
      and the d-pad take the like-named GameCube input; L and R take the
      analog triggers and the C buttons the C-stick. */
  lemma DefaultMappingBindings()
    ensures Source(DefaultMapping(), N64A) == A && Source(DefaultMapping(), N64B) == B
    ensures Source(DefaultMapping(), N64Start) == Start && Source(DefaultMapping(), N64Z) == Z
    ensures Source(DefaultMapping(), N64DpadUp) == DpadUp && Source(DefaultMapping(), N64DpadDown) == DpadDown
    ensures Source(DefaultMapping(), N64DpadLeft) == DpadLeft && Source(DefaultMapping(), N64DpadRight) == DpadRight
    ensures Source(DefaultMapping(), N64L) == LeftTrigger && Source(DefaultMapping(), N64R) == RightTrigger
    ensures Source(DefaultMapping(), N64CUp) == CStickUp && Source(DefaultMapping(), N64CDown) == CStickDown
    ensures Source(DefaultMapping(), N64CLeft) == CStickLeft && Source(DefaultMapping(), N64CRight) == CStickRight
  {
  }

  /** The inputs bound by a mapping, in slot order. */
  function Sources(m: ButtonMapping): (s: seq<GCInput>)
    ensures |s| == N64ButtonCount
    ensures forall b: N64Button :: s[Slot(b)] == Source(m, b)
  {
    [m.a, m.b, m.start, m.z, m.l, m.r,
     m.dpadUp, m.dpadDown, m.dpadLeft, m.dpadRight,
     m.cUp, m.cDown, m.cLeft, m.cRight]
  }

  /** The default mapping binds fourteen pairwise distinct real inputs; the
      real inputs it leaves unbound are X, Y and the digital L and R clicks. */
  lemma DefaultMappingSources()
    ensures forall j, k :: 0 <= j < k < |Sources(DefaultMapping())| ==> Sources(DefaultMapping())[j] != Sources(DefaultMapping())[k]
    ensures forall i :: i in Sources(DefaultMapping()) ==> IsReal(i)
    ensures forall i :: IsReal(i) && i !in Sources(DefaultMapping()) <==> i == X || i == Y || i == L || i == R
  {
    var s := Sources(DefaultMapping());
    assert s == [A, B, Start, Z, LeftTrigger, RightTrigger, DpadUp, DpadDown, DpadLeft, DpadRight,
                 CStickUp, CStickDown, CStickLeft, CStickRight];
    forall i | IsReal(i) && i != X && i != Y && i != L && i != R
      ensures i in s
    {
      match i {
        case A => assert s[0] == i;
        case B => assert s[1] == i;
        case Start => assert s[2] == i;
        case Z => assert s[3] == i;
        case LeftTrigger => assert s[4] == i;
        case RightTrigger => assert s[5] == i;
        case DpadUp => assert s[6] == i;
        case DpadDown => assert s[7] == i;
        case DpadLeft => assert s[8] == i;
        case DpadRight => assert s[9] == i;
        case CStickUp => assert s[10] == i;
        case CStickDown => assert s[11] == i;
        case CStickLeft => assert s[12] == i;
        case CStickRight => assert s[13] == i;
      }
    }
  }
}
