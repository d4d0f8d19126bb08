/** Primitive values and the operators the virtual machine applies to them.
    Floating point is not interpreted: a number is an opaque code and `Numerics` supplies the operations,
    so every result below holds for every arithmetic, IEEE 754 included. */
module Values {
  import opened Syntax

  /** An `f64`, identified by its bit pattern. */
  type Num = nat

  datatype Ordering = LessThan | EqualTo | GreaterThan

  datatype Arith = AddF | SubF | MulF | DivF | RemF | PowF

  datatype Bits = AndB | OrB | XorB | ShlB | ShrB | UshrB

  /** Everything the source takes from `f64`, `i32`/`u32` and string conversion. */
  datatype Numerics = Numerics(
    zero: Num,
    one: Num,
    nan: Num,
    negate: Num -> Num,
    arith: (Arith, Num, Num) -> Num,
    bits: (Bits, Num, Num) -> Num,
    complement: Num -> Num,
    partialCmp: (Num, Num) -> Option<Ordering>,
    parse: string -> Num,
    show: Num -> string,
    showBig: int -> string,
    bigEqualsNum: (int, Num) -> bool,
    bigEqualsText: (int, string) -> bool,
    byteOrder: (string, string) -> Ordering)
  {
    /** IEEE equality: `partial_cmp` answers `Equal`. */
    predicate NumEq(a: Num, b: Num) {
      partialCmp(a, b) == Some(EqualTo)
    }
  }

  datatype Value =
    | Number(n: Num)
    | Big(i: int)
    | Str(s: string)
    | Bool(b: bool)
    | Null
    | Undefined

  datatype RuntimeError =
    | NotDefined(name: Name)
    | ConstAssignment(name: Name)
    | ReadBeforeInit(name: Name)
    | MixedBigInt
    | BigIntOverflow
    | DivisionByZero
    | NegativeExponent
    | UnaryPlusOnBigInt
    | InvalidNumber(raw: string)
    | NeedsNumbers
    | NeedsNumber
    | Thrown(thrown: Value)
    | Parts(step: Parting)

  /** A step at which the two backends do different things. No backend raises `Parts`: it ends a run that goes on only
      as long as both do the same. */
  datatype Parting =
    | TypeofMissing(name: Name)
    | DeleteEffect
    | BadLiteral(raw: string)
    | OperandsOf(op: VmBinary)
    | ComplementOf(v: Value)
    | StepOf(v: Value)
    | StepUnready(name: Name)
    | StoreOverConst(name: Name)
    | StoreUnready(name: Name)
    | ConstRedeclared(name: Name)
    | CaughtContinue(tag: Name)

  /** The machine's one-operand operators. */
  datatype VmUnary = NegOp | PosOp | NotOp | BitNotOp | TypeofOp

  /** The machine's two-operand operators. */
  datatype VmBinary =
    | AddOp | SubOp | MulOp | DivOp | ModOp | PowOp
    | BitAndOp | BitOrOp | BitXorOp | ShlOp | ShrOp | UShrOp
    | EqOp | NeOp | StrictEqOp | StrictNeOp
    | LtOp | GtOp | LeOp | GeOp

  predicate IsNullish(v: Value) {
    v.Null? || v.Undefined?
  }

  /** `Value::is_truthy`: every number except the two zeros is truthy, NaN included. */
  predicate IsTruthy(nm: Numerics, v: Value) {
    match v
    case Undefined => false
    case Null => false
    case Bool(b) => b
    case Number(n) => !nm.NumEq(n, nm.zero)
    case Big(i) => i != 0
    case Str(s) => s != ""
  }

  function ToNumber(nm: Numerics, v: Value): Num {
    match v
    case Number(n) => n
    case Bool(b) => if b then nm.one else nm.zero
    case Null => nm.zero
    case Undefined => nm.nan
    case Str(s) => nm.parse(s)
    case Big(_) => nm.nan
  }

  function ToEcmaString(nm: Numerics, v: Value): string {
    match v
    case Str(s) => s
    case Number(n) => nm.show(n)
    case Big(i) => nm.showBig(i)
    case Bool(b) => if b then "true" else "false"
    case Null => "null"
    case Undefined => "undefined"
  }

  function TypeofText(v: Value): string {
    match v
    case Number(_) => "число"
    case Big(_) => "бигцелое"
    case Str(_) => "строка"
    case Bool(_) => "булево"
    case Undefined => "неопределено"
    case Null => "объект"
  }

  predicate StrictEq(nm: Numerics, a: Value, b: Value) {
    match (a, b)
    case (Number(x), Number(y)) => nm.NumEq(x, y)
    case (_, _) => !a.Number? && a == b
  }

  predicate AbstractEq(nm: Numerics, a: Value, b: Value)
    decreases (if a.Bool? then 1 else 0) + (if b.Bool? then 1 else 0)
  {
    if IsNullish(a) && IsNullish(b) then true
    else
      match (a, b)
      case (Number(_), Number(_)) => StrictEq(nm, a, b)
      case (Big(_), Big(_)) => StrictEq(nm, a, b)
      case (Str(_), Str(_)) => StrictEq(nm, a, b)
      case (Bool(_), Bool(_)) => StrictEq(nm, a, b)
      case (Number(x), Str(y)) => nm.NumEq(x, nm.parse(y))
      case (Str(x), Number(y)) => nm.NumEq(nm.parse(x), y)
      case (Big(x), Str(y)) => nm.bigEqualsText(x, y)
      case (Str(x), Big(y)) => nm.bigEqualsText(y, x)
      case (Big(x), Number(y)) => nm.bigEqualsNum(x, y)
      case (Number(x), Big(y)) => nm.bigEqualsNum(y, x)
      case (Bool(_), _) => AbstractEq(nm, Number(ToNumber(nm, a)), b)
      case (_, Bool(_)) => AbstractEq(nm, a, Number(ToNumber(nm, b)))
      case (_, _) => StrictEq(nm, a, b)
  }

  // ---- BigInt arithmetic: i128 with checked overflow ----

  const I128_MIN: int := -0x8000_0000_0000_0000_0000_0000_0000_0000
  const I128_MAX: int := 0x7fff_ffff_ffff_ffff_ffff_ffff_ffff_ffff
  const U32_MAX: int := 0xffff_ffff

  predicate InI128(i: int) {
    I128_MIN <= i <= I128_MAX
  }

  /** Division that truncates toward zero, as Rust's `/` does. */
  function TruncDiv(a: int, b: int): int
    requires b != 0
  {
    if a >= 0 then (if b > 0 then a / b else -(a / -b))
    else (if b > 0 then -(-a / b) else -a / -b)
  }

  function Power(a: int, k: nat): int {
    if k == 0 then 1 else a * Power(a, k - 1)
  }

  function Checked(i: int): Result<Value, RuntimeError> {
    if InI128(i) then Ok(Big(i)) else Err(BigIntOverflow)
  }

  predicate HasBigForm(op: VmBinary) {
    op.AddOp? || op.SubOp? || op.MulOp? || op.DivOp? || op.ModOp? || op.PowOp?
    || op.LtOp? || op.GtOp? || op.LeOp? || op.GeOp?
  }

  /** `bigint_op`. `checked_rem` fails exactly where `checked_div` does. */
  function BigIntOp(op: VmBinary, a: int, b: int): Result<Value, RuntimeError>
    requires HasBigForm(op)
  {
    match op
    case AddOp => Checked(a + b)
    case SubOp => Checked(a - b)
    case MulOp => Checked(a * b)
    case DivOp => if b == 0 then Err(DivisionByZero) else Checked(TruncDiv(a, b))
    case ModOp =>
      if b == 0 then Err(DivisionByZero)
      else if !InI128(TruncDiv(a, b)) then Err(BigIntOverflow)
      else Checked(a - b * TruncDiv(a, b))
    case PowOp =>
      if b < 0 then Err(NegativeExponent)
      else if b > U32_MAX then Err(BigIntOverflow)
      else Checked(Power(a, b))
    case LtOp => Ok(Bool(a < b))
    case GtOp => Ok(Bool(a > b))
    case LeOp => Ok(Bool(a <= b))
    case GeOp => Ok(Bool(a >= b))
  }

  predicate OrderingSatisfies(op: VmBinary, o: Ordering) {
    match op
    case LtOp => o == LessThan
    case GtOp => o == GreaterThan
    case LeOp => o != GreaterThan
    case GeOp => o != LessThan
    case _ => false
  }

  predicate Compare(nm: Numerics, op: VmBinary, a: Value, b: Value) {
    if a.Str? && b.Str? then OrderingSatisfies(op, nm.byteOrder(a.s, b.s))
    else
      match nm.partialCmp(ToNumber(nm, a), ToNumber(nm, b))
      case None => false
      case Some(o) => OrderingSatisfies(op, o)
  }

  /** `add_values` on primitives. */
  function AddValues(nm: Numerics, a: Value, b: Value): Value {
    if a.Str? || b.Str? then Str(ToEcmaString(nm, a) + ToEcmaString(nm, b))
    else Number(nm.arith(AddF, ToNumber(nm, a), ToNumber(nm, b)))
  }

  /** One two-operand instruction (crates/yps-vm/src/vm.rs:305-394). */
  function ApplyBinary(nm: Numerics, op: VmBinary, a: Value, b: Value): Result<Value, RuntimeError> {
    if HasBigForm(op) && (a.Big? || b.Big?) then
      if a.Big? && b.Big? then BigIntOp(op, a.i, b.i) else Err(MixedBigInt)
    else
      match op
      case AddOp => Ok(AddValues(nm, a, b))
      case SubOp => Ok(Number(nm.arith(SubF, ToNumber(nm, a), ToNumber(nm, b))))
      case MulOp => Ok(Number(nm.arith(MulF, ToNumber(nm, a), ToNumber(nm, b))))
      case DivOp => Ok(Number(nm.arith(DivF, ToNumber(nm, a), ToNumber(nm, b))))
      case ModOp => Ok(Number(nm.arith(RemF, ToNumber(nm, a), ToNumber(nm, b))))
      case PowOp => Ok(Number(nm.arith(PowF, ToNumber(nm, a), ToNumber(nm, b))))
      case BitAndOp => Ok(Number(nm.bits(AndB, ToNumber(nm, a), ToNumber(nm, b))))
      case BitOrOp => Ok(Number(nm.bits(OrB, ToNumber(nm, a), ToNumber(nm, b))))
      case BitXorOp => Ok(Number(nm.bits(XorB, ToNumber(nm, a), ToNumber(nm, b))))
      case ShlOp => Ok(Number(nm.bits(ShlB, ToNumber(nm, a), ToNumber(nm, b))))
      case ShrOp => Ok(Number(nm.bits(ShrB, ToNumber(nm, a), ToNumber(nm, b))))
      case UShrOp => Ok(Number(nm.bits(UshrB, ToNumber(nm, a), ToNumber(nm, b))))
      case EqOp => Ok(Bool(AbstractEq(nm, a, b)))
      case NeOp => Ok(Bool(!AbstractEq(nm, a, b)))
      case StrictEqOp => Ok(Bool(StrictEq(nm, a, b)))
      case StrictNeOp => Ok(Bool(!StrictEq(nm, a, b)))
      case LtOp => Ok(Bool(Compare(nm, op, a, b)))
      case GtOp => Ok(Bool(Compare(nm, op, a, b)))
      case LeOp => Ok(Bool(Compare(nm, op, a, b)))
      case GeOp => Ok(Bool(Compare(nm, op, a, b)))
  }

  /** One one-operand instruction (crates/yps-vm/src/vm.rs:277-304). */
  function ApplyUnary(nm: Numerics, op: VmUnary, a: Value): Result<Value, RuntimeError> {
    match op
    case NegOp => if a.Big? then Checked(-a.i) else Ok(Number(nm.negate(ToNumber(nm, a))))
    case PosOp => if a.Big? then Err(UnaryPlusOnBigInt) else Ok(Number(ToNumber(nm, a)))
    case NotOp => Ok(Bool(!IsTruthy(nm, a)))
    case BitNotOp => Ok(Number(nm.complement(ToNumber(nm, a))))
    case TypeofOp => Ok(Str(TypeofText(a)))
  }
}
