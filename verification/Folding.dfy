/** Constant folding (crates/yps-vm/src/compiler.rs:2148-2239) and the proof that it cannot be observed. */
module Folding {
  import opened Syntax
  import opened Values
  import opened Semantics

  datatype FoldVal = FNum(n: Num) | FStr(s: string) | FBool(b: bool)

  function FoldToNumber(nm: Numerics, v: FoldVal): Num {
    match v
    case FNum(n) => n
    case FBool(b) => if b then nm.one else nm.zero
    case FStr(s) => nm.parse(s)
  }

  predicate FoldTruthy(nm: Numerics, v: FoldVal) {
    match v
    case FNum(n) => !nm.NumEq(n, nm.zero)
    case FStr(s) => s != ""
    case FBool(b) => b
  }

  function FoldUnary(nm: Numerics, op: UnaryOp, v: FoldVal): Option<FoldVal> {
    match op
    case Minus => Some(FNum(nm.negate(FoldToNumber(nm, v))))
    case Plus => Some(FNum(FoldToNumber(nm, v)))
    case Not => Some(FBool(!FoldTruthy(nm, v)))
    case _ => None
  }

  /** `a < b` and friends on `f64`: false as soon as the two are unordered. */
  predicate Ordered(nm: Numerics, a: Num, b: Num, less: bool, equal: bool, greater: bool) {
    match nm.partialCmp(a, b)
    case None => false
    case Some(LessThan) => less
    case Some(EqualTo) => equal
    case Some(GreaterThan) => greater
  }

  predicate TextOrdered(nm: Numerics, a: string, b: string, less: bool, equal: bool, greater: bool) {
    match nm.byteOrder(a, b)
    case LessThan => less
    case EqualTo => equal
    case GreaterThan => greater
  }

  function FoldNumbers(nm: Numerics, op: BinaryOp, a: Num, b: Num): Option<FoldVal> {
    match op
    case Add => Some(FNum(nm.arith(AddF, a, b)))
    case Sub => Some(FNum(nm.arith(SubF, a, b)))
    case Mul => Some(FNum(nm.arith(MulF, a, b)))
    case Div => Some(FNum(nm.arith(DivF, a, b)))
    case Mod => Some(FNum(nm.arith(RemF, a, b)))
    case Exp => Some(FNum(nm.arith(PowF, a, b)))
    case BitAnd => Some(FNum(nm.bits(AndB, a, b)))
    case BitOr => Some(FNum(nm.bits(OrB, a, b)))
    case BitXor => Some(FNum(nm.bits(XorB, a, b)))
    case LeftShift => Some(FNum(nm.bits(ShlB, a, b)))
    case RightShift => Some(FNum(nm.bits(ShrB, a, b)))
    case UnsignedRightShift => Some(FNum(nm.bits(UshrB, a, b)))
    case Less => Some(FBool(Ordered(nm, a, b, true, false, false)))
    case Greater => Some(FBool(Ordered(nm, a, b, false, false, true)))
    case LessOrEqual => Some(FBool(Ordered(nm, a, b, true, true, false)))
    case GreaterOrEqual => Some(FBool(Ordered(nm, a, b, false, true, true)))
    case Equals => Some(FBool(nm.NumEq(a, b)))
    case StrictEquals => Some(FBool(nm.NumEq(a, b)))
    case NotEquals => Some(FBool(!nm.NumEq(a, b)))
    case StrictNotEquals => Some(FBool(!nm.NumEq(a, b)))
    case _ => None
  }

  function FoldTexts(nm: Numerics, op: BinaryOp, a: string, b: string): Option<FoldVal> {
    match op
    case Add => Some(FStr(a + b))
    case Less => Some(FBool(TextOrdered(nm, a, b, true, false, false)))
    case Greater => Some(FBool(TextOrdered(nm, a, b, false, false, true)))
    case LessOrEqual => Some(FBool(TextOrdered(nm, a, b, true, true, false)))
    case GreaterOrEqual => Some(FBool(TextOrdered(nm, a, b, false, true, true)))
    case Equals => Some(FBool(a == b))
    case StrictEquals => Some(FBool(a == b))
    case NotEquals => Some(FBool(a != b))
    case StrictNotEquals => Some(FBool(a != b))
    case _ => None
  }

  function FoldBools(op: BinaryOp, a: bool, b: bool): Option<FoldVal> {
    match op
    case Equals => Some(FBool(a == b))
    case StrictEquals => Some(FBool(a == b))
    case NotEquals => Some(FBool(a != b))
    case StrictNotEquals => Some(FBool(a != b))
    case And => Some(FBool(a && b))
    case Or => Some(FBool(a || b))
    case _ => None
  }

  function FoldBinary(nm: Numerics, op: BinaryOp, l: FoldVal, r: FoldVal): Option<FoldVal> {
    match (l, r)
    case (FNum(a), FNum(b)) => FoldNumbers(nm, op, a, b)
    case (FStr(a), FStr(b)) => FoldTexts(nm, op, a, b)
    case (FBool(a), FBool(b)) => FoldBools(op, a, b)
    case (_, _) => None
  }

  function FoldConst(nm: Numerics, e: Expr): Option<FoldVal> {
    match e
    case Lit(NumberLit(raw)) => Some(FNum(nm.parse(RemoveUnderscores(raw))))
    case Lit(TextLit(s)) => Some(FStr(s))
    case Lit(BoolLit(b)) => Some(FBool(b))
    case Grouping(inner) => FoldConst(nm, inner)
    case Unary(op, operand) =>
      (match FoldConst(nm, operand)
       case Some(v) => FoldUnary(nm, op, v)
       case None => None)
    case Binary(op, lhs, rhs) =>
      (match (FoldConst(nm, lhs), FoldConst(nm, rhs))
       case (Some(l), Some(r)) => FoldBinary(nm, op, l, r)
       case (_, _) => None)
    case _ => None
  }

  function Folded(v: FoldVal): Value {
    match v
    case FNum(n) => Number(n)
    case FStr(s) => Str(s)
    case FBool(b) => Bool(b)
  }

  // ---- What is folded ----

  datatype Kind = NumKind | StrKind | BoolKind

  function KindOf(v: FoldVal): Kind {
    match v
    case FNum(_) => NumKind
    case FStr(_) => StrKind
    case FBool(_) => BoolKind
  }

  predicate IsOrdering(op: BinaryOp) {
    op.Less? || op.Greater? || op.LessOrEqual? || op.GreaterOrEqual?
  }

  predicate IsEquality(op: BinaryOp) {
    op.Equals? || op.StrictEquals? || op.NotEquals? || op.StrictNotEquals?
  }

  predicate Calculates(op: BinaryOp) {
    op in {Add, Sub, Mul, Div, Mod, Exp, BitAnd, BitOr, BitXor, LeftShift, RightShift, UnsignedRightShift}
  }

  /** What an operator gives on two constants of the kind, if it is folded. */
  function FoldedKind(op: BinaryOp, k: Kind): Option<Kind> {
    match k
    case NumKind => if Calculates(op) then Some(NumKind) else if IsOrdering(op)
      || IsEquality(op) then Some(BoolKind) else None
    case StrKind => if op.Add? then Some(StrKind) else if IsOrdering(op) || IsEquality(op) then Some(BoolKind) else None
    case BoolKind => if IsEquality(op) || op.And? || op.Or? then Some(BoolKind) else None
  }

  /** Literals of the three kinds, brackets, three prefix operators, and operators between two of one kind. */
  function StaticKind(e: Expr): Option<Kind> {
    match e
    case Lit(NumberLit(_)) => Some(NumKind)
    case Lit(TextLit(_)) => Some(StrKind)
    case Lit(BoolLit(_)) => Some(BoolKind)
    case Grouping(inner) => StaticKind(inner)
    case Unary(op, operand) =>
      if StaticKind(operand).None? then None
      else if op.Minus? || op.Plus? then Some(NumKind)
      else if op.Not? then Some(BoolKind)
      else None
    case Binary(op, lhs, rhs) =>
      if StaticKind(lhs).None? || StaticKind(lhs) != StaticKind(rhs) then None
      else FoldedKind(op, StaticKind(lhs).value)
    case _ => None
  }

  /** `v` is there exactly if `k` is, and is of kind `k`. */
  predicate OfKind(v: Option<FoldVal>, k: Option<Kind>) {
    (v.Some? <==> k.Some?) && (v.Some? ==> KindOf(v.value) == k.value)
  }

  lemma FoldNumbersKind(nm: Numerics, op: BinaryOp, a: Num, b: Num)
    ensures OfKind(FoldNumbers(nm, op, a, b), FoldedKind(op, NumKind))
  {
    hide Ordered;
  }

  lemma FoldTextsKind(nm: Numerics, op: BinaryOp, a: string, b: string)
    ensures OfKind(FoldTexts(nm, op, a, b), FoldedKind(op, StrKind))
  {
    hide TextOrdered;
  }

  lemma FoldBoolsKind(op: BinaryOp, a: bool, b: bool)
    ensures OfKind(FoldBools(op, a, b), FoldedKind(op, BoolKind))
  {
  }

  lemma FoldBinaryKind(nm: Numerics, op: BinaryOp, l: FoldVal, r: FoldVal)
    ensures OfKind(FoldBinary(nm, op, l, r), if KindOf(l) == KindOf(r) then FoldedKind(op, KindOf(l)) else None)
  {
    hide FoldNumbers, FoldTexts, FoldBools, FoldedKind;
    match (l, r)
    case (FNum(a), FNum(b)) => FoldNumbersKind(nm, op, a, b);
    case (FStr(a), FStr(b)) => FoldTextsKind(nm, op, a, b);
    case (FBool(a), FBool(b)) => FoldBoolsKind(op, a, b);
    case (_, _) =>
  }

  /** What is folded, and to which kind of constant, can be told without computing anything. */
  lemma {:induction false} FoldsByKind(nm: Numerics, e: Expr)
    ensures OfKind(FoldConst(nm, e), StaticKind(e))
  {
    hide FoldBinary, FoldedKind;
    match e
    case Grouping(inner) => FoldsByKind(nm, inner);
    case Unary(_, operand) => FoldsByKind(nm, operand);
    case Binary(op, lhs, rhs) =>
      FoldsByKind(nm, lhs);
      FoldsByKind(nm, rhs);
      if StaticKind(lhs).Some? && StaticKind(rhs).Some? {
        FoldBinaryKind(nm, op, FoldConst(nm, lhs).value, FoldConst(nm, rhs).value);
      }
    case _ =>
  }

  // ---- Folding is invisible ----

  lemma FoldUnarySound(nm: Numerics, op: UnaryOp, v: FoldVal)
    ensures FoldUnary(nm, op, v).Some? ==>
              UnaryResult(nm, Compiled, op, Folded(v)) == Ok(Folded(FoldUnary(nm, op, v).value))
  {
  }

  /** The two readings of a folded operator: the one that evaluates both operands, and, for `&&` and `||`,
      the one that may stop at the left operand. */
  ghost predicate FoldsTo(nm: Numerics, op: BinaryOp, l: Value, r: Value, v: Value) {
    if op.And? || op.Or? then v == if ShortCircuits(nm, op, l) then l else r
    else
      && Operate(nm, Compiled, op, l, r) == Some(Ok(v))
      && !op.Assign? && CompoundBase(op).None?
      && !op.AndAssign? && !op.OrAssign? && !op.NullishAssign? && !op.NullishCoalescing?
  }

  lemma FoldOrderingsSound(nm: Numerics, op: BinaryOp, a: Num, b: Num)
    requires IsOrdering(op)
    ensures FoldsTo(nm, op, Number(a), Number(b), Folded(FoldNumbers(nm, op, a, b).value))
  {
    hide AbstractEq, StrictEq, AddValues;
  }

  lemma FoldEqualitiesSound(nm: Numerics, op: BinaryOp, a: Num, b: Num)
    requires IsEquality(op)
    ensures FoldsTo(nm, op, Number(a), Number(b), Folded(FoldNumbers(nm, op, a, b).value))
  {
    hide Compare, Ordered, AddValues;
  }

  lemma FoldNumbersSound(nm: Numerics, op: BinaryOp, a: Num, b: Num)
    requires FoldNumbers(nm, op, a, b).Some?
    ensures FoldsTo(nm, op, Number(a), Number(b), Folded(FoldNumbers(nm, op, a, b).value))
  {
    hide Compare, Ordered, AbstractEq, StrictEq;
    if IsOrdering(op) {
      FoldOrderingsSound(nm, op, a, b);
    } else if IsEquality(op) {
      FoldEqualitiesSound(nm, op, a, b);
    }
  }

  lemma FoldTextOrderingsSound(nm: Numerics, op: BinaryOp, a: string, b: string)
    requires IsOrdering(op)
    ensures FoldsTo(nm, op, Str(a), Str(b), Folded(FoldTexts(nm, op, a, b).value))
  {
    hide AbstractEq, StrictEq, AddValues;
  }

  lemma FoldTextsSound(nm: Numerics, op: BinaryOp, a: string, b: string)
    requires FoldTexts(nm, op, a, b).Some?
    ensures FoldsTo(nm, op, Str(a), Str(b), Folded(FoldTexts(nm, op, a, b).value))
  {
    hide Compare, TextOrdered;
    if IsOrdering(op) {
      FoldTextOrderingsSound(nm, op, a, b);
    }
  }

  lemma FoldBoolsSound(nm: Numerics, op: BinaryOp, a: bool, b: bool)
    requires FoldBools(op, a, b).Some?
    ensures FoldsTo(nm, op, Bool(a), Bool(b), Folded(FoldBools(op, a, b).value))
  {
  }

  lemma FoldBinarySound(nm: Numerics, op: BinaryOp, l: FoldVal, r: FoldVal)
    requires FoldBinary(nm, op, l, r).Some?
    ensures FoldsTo(nm, op, Folded(l), Folded(r), Folded(FoldBinary(nm, op, l, r).value))
  {
    match (l, r)
    case (FNum(a), FNum(b)) => FoldNumbersSound(nm, op, a, b);
    case (FStr(a), FStr(b)) => FoldTextsSound(nm, op, a, b);
    case (FBool(a), FBool(b)) => FoldBoolsSound(nm, op, a, b);
  }

  /** Whatever the variables hold, a folded expression evaluates to its folded constant and changes nothing. */
  lemma {:induction false} FoldSound(nm: Numerics, e: Expr, env: Env)
    requires FoldConst(nm, e).Some?
    ensures Eval(nm, Compiled, e, env) == Val(Folded(FoldConst(nm, e).value), env)
  {
    match e
    case Lit(_) =>
    case Grouping(inner) => FoldSound(nm, inner, env);
    case Unary(op, operand) =>
      FoldSound(nm, operand, env);
      FoldUnarySound(nm, op, FoldConst(nm, operand).value);
    case Binary(op, lhs, rhs) =>
      FoldSound(nm, lhs, env);
      FoldSound(nm, rhs, env);
      FoldBinarySound(nm, op, FoldConst(nm, lhs).value, FoldConst(nm, rhs).value);
  }
}
