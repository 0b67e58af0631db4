/** The logical inputs of a GameCube controller that can be bound to an N64
    button: twelve digital buttons, two analog triggers and the four
    directions of the C-stick, bracketed by the sentinels `None` (-1) and
    `Count` (18). */
module GCInputs {

  datatype GCInput =
    | None
    | A | B | X | Y | Z | Start | L | R
    | DpadUp | DpadDown | DpadLeft | DpadRight
    | LeftTrigger | RightTrigger
    | CStickUp | CStickDown | CStickLeft | CStickRight
    | Count

  /** Number of real inputs, the ordinal of `Count`. */
  const RealInputCount: nat := 18

  /** The integer value of each enumerator: `None` is -1, `A` is 0 and each
      following enumerator is one more than the last. */
  function Ordinal(i: GCInput): (n: int)
    ensures -1 <= n <= RealInputCount
    ensures n == -1 <==> i == None
    ensures n == RealInputCount <==> i == Count
  {
    match i
    case None => -1
    case A => 0
    case B => 1
    case X => 2
    case Y => 3
    case Z => 4
    case Start => 5
    case L => 6
    case R => 7
    case DpadUp => 8
    case DpadDown => 9
    case DpadLeft => 10
    case DpadRight => 11
    case LeftTrigger => 12
    case RightTrigger => 13
    case CStickUp => 14
    case CStickDown => 15
    case CStickLeft => 16
    case CStickRight => 17
    case Count => 18
  }

  /** The enumerator with a given integer value. */
  function FromOrdinal(n: int): (i: GCInput)
    requires -1 <= n <= RealInputCount
    ensures Ordinal(i) == n
  {
    RealInputsAreInEnumOrder();
    if n == -1 then None
    else if n == RealInputCount then Count
    else RealInputs[n]
  }

  /** Every enumerator is recovered from its integer value, so distinct
      enumerators have distinct values. */
  lemma OrdinalRoundTrip(i: GCInput)
    ensures -1 <= Ordinal(i) <= RealInputCount
    ensures FromOrdinal(Ordinal(i)) == i
  {
  }

  /** An input that names a button, trigger or C-stick direction rather than a
      sentinel. */
  predicate IsReal(i: GCInput)
  {
    !i.None? && !i.Count?
  }

  /** The twelve inputs read straight from a button flag. */
  predicate IsDigital(i: GCInput)
  {
    i.A? || i.B? || i.X? || i.Y? || i.Z? || i.Start? || i.L? || i.R?
    || i.DpadUp? || i.DpadDown? || i.DpadLeft? || i.DpadRight?
  }

  /** The real inputs listed in declaration order. */
  const RealInputs: seq<GCInput> :=
    [A, B, X, Y, Z, Start, L, R, DpadUp, DpadDown, DpadLeft, DpadRight,
     LeftTrigger, RightTrigger, CStickUp, CStickDown, CStickLeft, CStickRight]

  /** `RealInputs` holds each real input once, at the index equal to its
      integer value. */
  lemma RealInputsAreInEnumOrder()
    ensures |RealInputs| == RealInputCount
    ensures forall k :: 0 <= k < |RealInputs| ==> Ordinal(RealInputs[k]) == k
    ensures forall i :: IsReal(i) <==> i in RealInputs
  {
  }

  /** The display label of each input; both sentinels, and only they, read
      "None". */
  function Label(i: GCInput): (s: string)
    ensures |s| > 0
    ensures s == "None" <==> !IsReal(i)
  {
    match i
    case A => "A"
    case B => "B"
    case X => "X"
    case Y => "Y"
    case Z => "Z"
    case Start => "Start"
    case L => "L"
    case R => "R"
    case DpadUp => "D-Pad Up"
    case DpadDown => "D-Pad Down"
    case DpadLeft => "D-Pad Left"
    case DpadRight => "D-Pad Right"
    case LeftTrigger => "L Trigger"
    case RightTrigger => "R Trigger"
    case CStickUp => "C-Stick Up"
    case CStickDown => "C-Stick Down"
    case CStickLeft => "C-Stick Left"
    case CStickRight => "C-Stick Right"
    case _ => "None"
  }

  /** Labels tell real inputs apart and never read "None" for one; a sentinel
      always reads "None". */
  lemma LabelsDistinguishInputs(i: GCInput, j: GCInput)
    ensures IsReal(i) && IsReal(j) && Label(i) == Label(j) ==> i == j
    ensures IsReal(i) <==> Label(i) != "None"
  {
  }
}
