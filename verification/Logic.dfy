/** Four-state logic values, logic vectors and the information order in which X is below 0, 1 and Z. */
module Logic {
  import opened Wrappers

  datatype LogicValue = Zero | One | X | Z {
    predicate IsKnown() {
      Zero? || One?
    }

    function Buffer(): LogicValue {
      match this
      case Zero => Zero
      case One => One
      case _ => X
    }

    function Not(): LogicValue {
      match this
      case Zero => One
      case One => Zero
      case _ => X
    }

    function And(other: LogicValue): LogicValue {
      match (Buffer(), other.Buffer())
      case (Zero, _) => Zero
      case (_, Zero) => Zero
      case (One, One) => One
      case _ => X
    }

    function Or(other: LogicValue): LogicValue {
      match (Buffer(), other.Buffer())
      case (One, _) => One
      case (_, One) => One
      case (Zero, Zero) => Zero
      case _ => X
    }

    function Xor(other: LogicValue): LogicValue {
      match (Buffer(), other.Buffer())
      case (Zero, Zero) => Zero
      case (One, One) => Zero
      case (Zero, One) => One
      case (One, Zero) => One
      case _ => X
    }
  }

  function Toggle(v: LogicValue): LogicValue {
    match v
    case Zero => One
    case One => Zero
    case _ => X
  }

  /** X carries no information; 0, 1 and Z are maximal and incomparable. */
  predicate Refines(low: LogicValue, high: LogicValue) {
    low == X || low == high
  }

  predicate RefinesAll(low: seq<LogicValue>, high: seq<LogicValue>) {
    |low| == |high| && forall i :: 0 <= i < |low| ==> Refines(low[i], high[i])
  }

  /* ---- Logic vectors: least significant bit first ---- */

  const MAX_BUS_WIDTH: nat := 64
  const U64_RANGE: nat := 0x1_0000_0000_0000_0000

  datatype WidthError = InvalidBusWidth

  function Pow2(n: nat): (r: nat)
    ensures r > 0
  {
    if n == 0 then 1 else 2 * Pow2(n - 1)
  }

  function Bit(b: bool): LogicValue {
    if b then One else Zero
  }

  /** Bit `width - 1` down to bit 0 of `value`, stored least significant first. */
  function BitsOf(width: nat, value: nat): (r: seq<LogicValue>)
    ensures |r| == width
    ensures forall i :: 0 <= i < width ==> r[i].IsKnown()
  {
    if width == 0 then [] else [Bit(value % 2 == 1)] + BitsOf(width - 1, value / 2)
  }

  function FromU64(width: nat, value: nat): Result<seq<LogicValue>, WidthError> {
    if width == 0 || width > MAX_BUS_WIDTH then Err(InvalidBusWidth) else Ok(BitsOf(width, value))
  }

  predicate AllKnown(bits: seq<LogicValue>) {
    forall i :: 0 <= i < |bits| ==> bits[i].IsKnown()
  }

  /** The number a vector of known bits denotes. */
  function ValueOf(bits: seq<LogicValue>): nat {
    if |bits| == 0 then 0 else (if bits[0] == One then 1 else 0) + 2 * ValueOf(bits[1..])
  }

  lemma {:induction false} ValueOfAppend(bits: seq<LogicValue>, b: LogicValue)
    ensures ValueOf(bits + [b]) == ValueOf(bits) + (if b == One then Pow2(|bits|) else 0)
  {
    if |bits| == 0 {
      assert bits + [b] == [b];
    } else {
      ValueOfAppend(bits[1..], b);
      assert (bits + [b])[1..] == bits[1..] + [b];
    }
  }

  lemma {:induction false} ValueOfBounded(bits: seq<LogicValue>)
    ensures ValueOf(bits) < Pow2(|bits|)
  {
    if |bits| > 0 {
      ValueOfBounded(bits[1..]);
    }
  }

  /** The bit-setting loop of the source; the value denoted, or None when a bit is unknown. */
  method ToU64(bits: seq<LogicValue>) returns (r: Option<nat>)
    ensures r == ToU64Spec(bits)
  {
    if |bits| > 64 || !AllKnown(bits) {
      return None;
    }
    var result, bit := 0, 0;
    while bit < |bits|
      invariant 0 <= bit <= |bits|
      invariant result == ValueOf(bits[..bit])
    {
      ValueOfAppend(bits[..bit], bits[bit]);
      assert bits[..bit + 1] == bits[..bit] + [bits[bit]];
      if bits[bit] == One {
        result := result + Pow2(bit);
      }
      bit := bit + 1;
    }
    assert bits[..bit] == bits;
    return Some(result);
  }

  function ToU64Spec(bits: seq<LogicValue>): Option<nat> {
    if |bits| > 64 || !AllKnown(bits) then None else Some(ValueOf(bits))
  }

  /** Adds one, masking to the width; any unknown bit makes every bit unknown. */
  function IncrementBits(bits: seq<LogicValue>): seq<LogicValue> {
    match ToU64Spec(bits)
    case None => seq(|bits|, _ => X)
    case Some(value) =>
      match FromU64(|bits|, ((value + 1) % U64_RANGE) % Pow2(|bits|))
      case Ok(next) => next
      case Err(_) => seq(|bits|, _ => X)
  }

  /** Numbers that fit survive the trip to bits and back; others lose their high bits. */
  lemma {:induction false} BitsRoundTrip(width: nat, value: nat)
    ensures ValueOf(BitsOf(width, value)) == value % Pow2(width)
  {
    if width > 0 {
      BitsRoundTrip(width - 1, value / 2);
      ModTwice(value, Pow2(width - 1));
    }
  }

  lemma ModTwice(value: nat, m: nat)
    requires m > 0
    ensures value % (2 * m) == value % 2 + 2 * ((value / 2) % m)
  {
    var q, r := (value / 2) / m, (value / 2) % m;
    assert value == 2 * (q * m + r) + value % 2;
    assert value == q * (2 * m) + (2 * r + value % 2);
    DivModUnique(value, 2 * m, q, 2 * r + value % 2);
  }

  lemma DivModUnique(a: int, m: int, q: int, r: int)
    requires a == q * m + r && 0 <= r < m
    ensures a % m == r
  {
    var d := q - a / m;
    assert d * m == a % m - r;
    assert d > 0 ==> d * m >= m;
    assert d < 0 ==> d * m <= -m;
  }

  /** A vector is made exactly for widths 1 to 64, and then denotes the value without the bits that do not fit. */
  lemma FromU64IsExact(width: nat, value: nat)
    ensures FromU64(width, value).Ok? <==> 1 <= width <= 64
    ensures FromU64(width, value).Ok? ==>
              var bits := FromU64(width, value).value;
              |bits| == width && AllKnown(bits) && ValueOf(bits) == value % Pow2(width)
  {
    BitsRoundTrip(width, value);
  }

  /** Known bits survive the trip to a number and back. */
  lemma {:induction false} ValueRoundTrip(bits: seq<LogicValue>)
    requires AllKnown(bits)
    ensures BitsOf(|bits|, ValueOf(bits)) == bits
  {
    if |bits| > 0 {
      ValueRoundTrip(bits[1..]);
      assert ValueOf(bits) / 2 == ValueOf(bits[1..]);
      assert bits == [bits[0]] + bits[1..];
    }
  }

  lemma {:induction false} Pow2Add(a: nat, b: nat)
    ensures Pow2(a + b) == Pow2(a) * Pow2(b)
  {
    if a > 0 {
      Pow2Add(a - 1, b);
    }
  }

  lemma Pow2Of64()
    ensures Pow2(64) == U64_RANGE
  {
    var p8, p16, p32 := Pow2(8), Pow2(16), Pow2(32);
    Pow2Add(4, 4);
    assert p8 == 256;
    Pow2Add(8, 8);
    assert p16 == p8 * p8 == 65536;
    Pow2Add(16, 16);
    assert p32 == p16 * p16 == 4294967296;
    Pow2Add(32, 32);
  }

  lemma {:induction false} Pow2Monotone(a: nat, b: nat)
    requires a <= b
    ensures Pow2(a) <= Pow2(b)
    decreases b
  {
    if a < b {
      Pow2Monotone(a, b - 1);
    }
  }

  lemma IncrementIs(bits: seq<LogicValue>)
    requires 1 <= |bits| <= MAX_BUS_WIDTH && AllKnown(bits)
    ensures IncrementBits(bits) == BitsOf(|bits|, (ValueOf(bits) + 1) % Pow2(|bits|))
  {
    hide ValueOf, Pow2, BitsOf;
    ValueOfBounded(bits);
    Pow2Monotone(|bits|, 64);
    Pow2Of64();
    WrapTwice(ValueOf(bits), Pow2(|bits|));
  }

  /** A counter of width 1 to 64 counts modulo 2^width; the 64-bit wrap never shows through. */
  lemma IncrementCounts(bits: seq<LogicValue>)
    requires 1 <= |bits| <= MAX_BUS_WIDTH && AllKnown(bits)
    ensures |IncrementBits(bits)| == |bits| && AllKnown(IncrementBits(bits))
    ensures ValueOf(IncrementBits(bits)) == (ValueOf(bits) + 1) % Pow2(|bits|)
  {
    hide ValueOf, Pow2, BitsOf, IncrementBits;
    IncrementIs(bits);
    var next := (ValueOf(bits) + 1) % Pow2(|bits|);
    BitsRoundTrip(|bits|, next);
    Remainder(ValueOf(bits) + 1, Pow2(|bits|));
  }

  lemma Remainder(value: nat, m: nat)
    requires m > 0
    ensures (value % m) % m == value % m
  {
    DivModUnique(value % m, m, 0, value % m);
  }

  /** The 64-bit wrap followed by the mask is the mask alone. */
  lemma WrapTwice(value: nat, m: nat)
    requires value < m <= U64_RANGE
    ensures ((value + 1) % U64_RANGE) % m == (value + 1) % m
    ensures ((value + 1) % m) % m == (value + 1) % m
  {
    if value + 1 < U64_RANGE {
      DivModUnique(value + 1, U64_RANGE, 0, value + 1);
    }
    DivModUnique((value + 1) % m, m, 0, (value + 1) % m);
  }
}
