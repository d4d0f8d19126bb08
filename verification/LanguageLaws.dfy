/** Laws of the language that hold whatever the expressions and variables are, on every backend unless one is named:
    what operators are short for, what they make of each kind of operand, and when two values are equal, true or
    ordered. */
module LanguageLaws {
  import opened Syntax
  import opened Values
  import opened Semantics

  // ---- Operators that are short for others ----

  predicate Abbreviates(op: BinaryOp, base: BinaryOp) {
    || (op.PlusAssign? && base.Add?) || (op.MinusAssign? && base.Sub?) || (op.MulAssign? && base.Mul?)
    || (op.DivAssign? && base.Div?) || (op.ModAssign? && base.Mod?) || (op.ExpAssign? && base.Exp?)
    || (op.BitAndAssign? && base.BitAnd?) || (op.BitOrAssign? && base.BitOr?) || (op.BitXorAssign? && base.BitXor?)
    || (op.ShlAssign? && base.LeftShift?) || (op.ShrAssign? && base.RightShift?)
    || (op.UshrAssign? && base.UnsignedRightShift?)
    || (op.AndAssign? && base.And?) || (op.OrAssign? && base.Or?) || (op.NullishAssign? && base.NullishCoalescing?)
  }

  /** `x += e` is `x = x + e`, and so on for the twelve arithmetic operators. */
  lemma CompoundIsAssignment(nm: Numerics, bk: Backend, op: BinaryOp, base: BinaryOp, x: Name, e: Expr, env: Env)
    requires Abbreviates(op, base) && !base.And? && !base.Or? && !base.NullishCoalescing?
    ensures Eval(nm, bk, Binary(op, Identifier(x), e), env)
         == Eval(nm, bk, Assignment(x, Binary(base, Identifier(x), e)), env)
  {
    BothEvaluated(nm, op, base);
    LeftComesFirst(nm, bk, op, Identifier(x), e, env);
    LeftComesFirst(nm, bk, base, Identifier(x), e, env);
    StoreUnfold(nm, bk, x, Binary(base, Identifier(x), e), env);
    hide *;
    var r := Eval(nm, bk, Identifier(x), env);
    if r.Val? && Eval(nm, bk, e, r.env).Val? {
      CompoundFinish(nm, bk, op, base, x, r.value, Eval(nm, bk, e, r.env).value, Eval(nm, bk, e, r.env).env);
    }
  }

  /** The left operand comes first, and the right one only if the operator goes on. */
  lemma LeftComesFirst(nm: Numerics, bk: Backend, op: BinaryOp, lhs: Expr, rhs: Expr, env: Env)
    requires !op.Assign?
    ensures var l := Eval(nm, bk, lhs, env);
            Eval(nm, bk, Binary(op, lhs, rhs), env)
            == if l.Fail? || ShortCircuits(nm, op, l.value) then l
               else
                 var r := Eval(nm, bk, rhs, l.env);
                 if r.Fail? then r else FinishBinary(nm, bk, op, lhs, l.value, r.value, r.env)
  {
    hide FinishBinary, ShortCircuits;
  }

  lemma StoreUnfold(nm: Numerics, bk: Backend, x: Name, e: Expr, env: Env)
    ensures var r := Eval(nm, bk, e, env);
            Eval(nm, bk, Assignment(x, e), env) == if r.Fail? then r else AssignVar(bk, r.env, x, r.value)
  {
    hide AssignVar;
  }

  lemma BothEvaluated(nm: Numerics, op: BinaryOp, base: BinaryOp)
    requires Abbreviates(op, base) && !base.And? && !base.Or? && !base.NullishCoalescing?
    ensures !op.Assign? && !base.Assign? && forall a :: !ShortCircuits(nm, op, a) && !ShortCircuits(nm, base, a)
  {
  }

  lemma CompoundFinish(nm: Numerics, bk: Backend, op: BinaryOp, base: BinaryOp, x: Name, a: Value, b: Value, env: Env)
    requires Abbreviates(op, base) && !base.And? && !base.Or? && !base.NullishCoalescing?
    ensures var r := FinishBinary(nm, bk, base, Identifier(x), a, b, env);
            FinishBinary(nm, bk, op, Identifier(x), a, b, env)
            == if r.Fail? then r else AssignVar(bk, r.env, x, r.value)
  {
    BaseOperates(nm, bk, op, base, a, b);
    hide AssignVar, Operate;
  }

  lemma BaseOperates(nm: Numerics, bk: Backend, op: BinaryOp, base: BinaryOp, a: Value, b: Value)
    requires Abbreviates(op, base) && !base.And? && !base.Or? && !base.NullishCoalescing?
    ensures CompoundBase(op) == Some(base) && CompoundBase(base).None? && Operate(nm, bk, base, a, b).Some?
  {
    BaseHasForm(op, base);
    hide *;
    assert Operate(nm, bk, base, a, b).Some? by {
      FormOperates(nm, bk, base, a, b);
    }
  }

  lemma BaseHasForm(op: BinaryOp, base: BinaryOp)
    requires Abbreviates(op, base) && !base.And? && !base.Or? && !base.NullishCoalescing?
    ensures CompoundBase(op) == Some(base) && CompoundBase(base).None? && VmForm(base).Some?
  {
  }

  lemma FormOperates(nm: Numerics, bk: Backend, op: BinaryOp, a: Value, b: Value)
    ensures Operate(nm, bk, op, a, b).Some? <==> VmForm(op).Some?
  {
    hide BinaryStep, VmForm;
  }

  /** `x &&= e` is `x && (x = e)`, and so on: nothing is stored when the operator stops early. */
  lemma LogicalAssignIsGuarded(nm: Numerics, bk: Backend, op: BinaryOp, base: BinaryOp, x: Name, e: Expr, env: Env)
    requires Abbreviates(op, base) && (base.And? || base.Or? || base.NullishCoalescing?)
    ensures Eval(nm, bk, Binary(op, Identifier(x), e), env)
         == Eval(nm, bk, Binary(base, Identifier(x), Binary(Assign, Identifier(x), e)), env)
  {
    hide *;
    LogicalParts(nm, bk, op, base, x);
    LeftComesFirst(nm, bk, op, Identifier(x), e, env);
    LeftComesFirst(nm, bk, base, Identifier(x), Binary(Assign, Identifier(x), e), env);
    var r := Eval(nm, bk, Identifier(x), env);
    if r.Val? {
      AssignUnfold(nm, bk, x, e, r.env);
      StoredValue(bk);
    }
  }

  /** The two stop early alike; otherwise one stores the right operand and the other gives it. */
  lemma LogicalParts(nm: Numerics, bk: Backend, op: BinaryOp, base: BinaryOp, x: Name)
    requires Abbreviates(op, base) && (base.And? || base.Or? || base.NullishCoalescing?)
    ensures !op.Assign? && !base.Assign?
    ensures forall a :: ShortCircuits(nm, op, a) == ShortCircuits(nm, base, a)
    ensures forall a, b, env ::
              && FinishBinary(nm, bk, op, Identifier(x), a, b, env) == AssignVar(bk, env, x, b)
              && FinishBinary(nm, bk, base, Identifier(x), a, b, env) == Val(b, env)
  {
    hide AssignVar, IsTruthy, IsNullish, Operate;
  }

  lemma AssignUnfold(nm: Numerics, bk: Backend, x: Name, e: Expr, env: Env)
    ensures var r := Eval(nm, bk, e, env);
            Eval(nm, bk, Binary(Assign, Identifier(x), e), env)
            == if r.Fail? then r else AssignVar(bk, r.env, x, r.value)
  {
    hide AssignVar;
  }

  lemma StoredValue(bk: Backend)
    ensures forall env, x, v :: AssignVar(bk, env, x, v).Val? ==> AssignVar(bk, env, x, v).value == v
  {
    hide Holder, ReadyHolder, ConstOnChain, StoreParting;
  }

  /** `!(a && b)` is `!a || !b`, and the other way round, effects and errors included. */
  lemma DeMorgan(nm: Numerics, bk: Backend, op: BinaryOp, dual: BinaryOp, a: Expr, b: Expr, env: Env)
    requires (op.And? && dual.Or?) || (op.Or? && dual.And?)
    ensures Eval(nm, bk, Unary(Not, Binary(op, a, b)), env)
         == Eval(nm, bk, Binary(dual, Unary(Not, a), Unary(Not, b)), env)
  {
    hide AssignVar, IsTruthy, CompoundBase, Operate;
    TruthOfBool(nm);
  }

  /** Evaluating `e` here fails or has no effect. */
  ghost predicate Quiet(nm: Numerics, bk: Backend, e: Expr, env: Env) {
    var r := Eval(nm, bk, e, env);
    r.Val? ==> r.env == env
  }

  /** `a && b` is `a ? b : a` and `a || b` is `a ? a : b`. */
  lemma ShortCircuitIsChoice(nm: Numerics, bk: Backend, a: Expr, b: Expr, env: Env)
    requires Quiet(nm, bk, a, env)
    ensures Eval(nm, bk, Binary(And, a, b), env) == Eval(nm, bk, Conditional(a, b, a), env)
    ensures Eval(nm, bk, Binary(Or, a, b), env) == Eval(nm, bk, Conditional(a, a, b), env)
  {
    hide IsTruthy, CompoundBase, Operate, AssignVar;
    ChoiceUnfold(nm, bk, a, b, a, env);
    ChoiceUnfold(nm, bk, a, a, b, env);
  }

  /** `a ?? b` is `a == null ? b : a`. */
  lemma NullishIsChoice(nm: Numerics, bk: Backend, a: Expr, b: Expr, env: Env)
    requires Quiet(nm, bk, a, env)
    ensures Eval(nm, bk, Binary(NullishCoalescing, a, b), env)
         == Eval(nm, bk, Conditional(Binary(Equals, a, Lit(NullLit)), b, a), env)
  {
    hide *;
    var r := Eval(nm, bk, a, env);
    var test := Binary(Equals, a, Lit(NullLit));
    ChoiceUnfold(nm, bk, test, b, a, env);
    NullishUnfold(nm, bk, a, b, env);
    if r.Val? {
      QuietKeeps(nm, bk, a, env);
      ComparedToNull(nm, bk, a, env, r.value);
      TruthOfBool(nm);
    } else {
      NeverShort(nm);
      LeftComesFirst(nm, bk, Equals, a, Lit(NullLit), env);
    }
  }

  lemma QuietKeeps(nm: Numerics, bk: Backend, e: Expr, env: Env)
    requires Quiet(nm, bk, e, env) && Eval(nm, bk, e, env).Val?
    ensures Eval(nm, bk, e, env).env == env
  {
  }

  lemma NullishUnfold(nm: Numerics, bk: Backend, a: Expr, b: Expr, env: Env)
    ensures var r := Eval(nm, bk, a, env);
            Eval(nm, bk, Binary(NullishCoalescing, a, b), env)
            == if r.Fail? || !IsNullish(r.value) then r else Eval(nm, bk, b, r.env)
  {
    LeftComesFirst(nm, bk, NullishCoalescing, a, b, env);
    hide Eval;
  }

  lemma ChoiceUnfold(nm: Numerics, bk: Backend, c: Expr, a: Expr, b: Expr, env: Env)
    ensures var r := Eval(nm, bk, c, env);
            Eval(nm, bk, Conditional(c, a, b), env)
            == if r.Fail? then r else if IsTruthy(nm, r.value) then Eval(nm, bk, a, r.env) else Eval(nm, bk, b, r.env)
  {
  }

  lemma ComparedToNull(nm: Numerics, bk: Backend, a: Expr, env: Env, v: Value)
    requires Eval(nm, bk, a, env) == Val(v, env)
    ensures Eval(nm, bk, Binary(Equals, a, Lit(NullLit)), env) == Val(Bool(IsNullish(v)), env)
  {
    hide *;
    assert forall b :: !ShortCircuits(nm, Equals, b) by {
      NeverShort(nm);
    }
    LeftComesFirst(nm, bk, Equals, a, Lit(NullLit), env);
    NullIsNull(nm, bk, env);
    EqualsNull(nm, bk, a, v, env);
  }

  lemma NeverShort(nm: Numerics)
    ensures forall b :: !ShortCircuits(nm, Equals, b)
  {
  }

  lemma NullIsNull(nm: Numerics, bk: Backend, env: Env)
    ensures Eval(nm, bk, Lit(NullLit), env) == Val(Null, env)
  {
  }

  lemma EqualsNull(nm: Numerics, bk: Backend, a: Expr, v: Value, env: Env)
    ensures FinishBinary(nm, bk, Equals, a, v, Null, env) == Val(Bool(IsNullish(v)), env)
  {
    NullEqualsNullish(nm, v);
    hide AbstractEq, IsNullish;
  }

  lemma TruthOfBool(nm: Numerics)
    ensures IsTruthy(nm, Bool(true)) && !IsTruthy(nm, Bool(false))
  {
  }

  /** Negating a condition exchanges the branches. */
  lemma NegatedCondition(nm: Numerics, bk: Backend, c: Expr, a: Expr, b: Expr, env: Env)
    ensures Eval(nm, bk, Conditional(Unary(Not, c), a, b), env) == Eval(nm, bk, Conditional(c, b, a), env)
  {
  }

  lemma NegatedIf(nm: Numerics, bk: Backend, c: Expr, s: Stmt, t: Stmt, tag: Option<Name>, env: Env, fuel: nat)
    ensures Exec(nm, bk, If(Unary(Not, c), s, Some(t)), tag, env, fuel)
         == Exec(nm, bk, If(c, t, Some(s)), tag, env, fuel)
  {
  }

  /** `x++` and `x--` store what `x += 1` and `x -= 1` store, and give the value from before. */
  lemma StepIsCompound(nm: Numerics, bk: Backend, op: PostfixOp, x: Name, n: Num, env: Env)
    requires ReadVar(env, x) == Val(Number(n), env) && nm.parse("1") == nm.one && nm.partialCmp(nm.one, nm.one).Some?
    requires bk.Walking? ==> ReadForStep(Walking, env, x) == Val(Number(n), env)
    ensures var stored := Eval(nm, bk, Binary(if op.Increment? then PlusAssign else MinusAssign, Identifier(x),
                                              Lit(NumberLit("1"))), env);
            Eval(nm, bk, Postfix(op, Identifier(x)), env)
            == if stored.Val? then Val(Number(n), stored.env) else stored
  {
    hide AssignVar, ReadVar;
    OneIsOne(nm, bk, env);
    StepReads(bk, env, x);
  }

  lemma OneIsOne(nm: Numerics, bk: Backend, env: Env)
    requires nm.parse("1") == nm.one && nm.partialCmp(nm.one, nm.one).Some?
    ensures Eval(nm, bk, Lit(NumberLit("1")), env) == Val(Number(nm.one), env)
  {
    assert RemoveUnderscores("1") == "1";
  }

  lemma StepReads(bk: Backend, env: Env, x: Name)
    requires ReadVar(env, x).Val?
    ensures bk.Walking? || ReadForStep(bk, env, x) == ReadVar(env, x)
  {
  }

  // ---- Truth and equality ----

  /** A value is false exactly if it is strictly equal to `undefined`, `null`, `false`, zero of either kind of number or
      the empty text. */
  lemma FalseValues(nm: Numerics, v: Value)
    ensures !IsTruthy(nm, v)
       <==> || StrictEq(nm, v, Undefined) || StrictEq(nm, v, Null) || StrictEq(nm, v, Bool(false))
            || StrictEq(nm, v, Number(nm.zero)) || StrictEq(nm, v, Big(0)) || StrictEq(nm, v, Str(""))
  {
    match v
    case Undefined =>
    case Null =>
    case Bool(_) =>
    case Number(_) =>
    case Big(_) =>
    case Str(_) =>
  }

  predicate SameType(a: Value, b: Value) {
    TypeofText(a) == TypeofText(b)
  }

  /** `typeof` tells the kinds of values apart. */
  lemma TypeofTells(a: Value, b: Value)
    ensures SameType(a, b) <==>
      || (a.Number? && b.Number?) || (a.Big? && b.Big?) || (a.Str? && b.Str?) || (a.Bool? && b.Bool?)
      || a == b
  {
    TypeofTexts();
    match a
    case Undefined =>
    case Null =>
    case Bool(_) =>
    case Number(_) =>
    case Big(_) =>
    case Str(_) =>
  }

  lemma TypeofTexts()
    ensures TypeofText(Undefined)[1] == 'е' && TypeofText(Null)[1] == 'б' && TypeofText(Str(""))[1] == 'т'
    ensures TypeofText(Number(0))[1] == 'и' && TypeofText(Big(0))[1] == 'и' && TypeofText(Bool(true))[1] == 'у'
    ensures TypeofText(Number(0))[0] == 'ч' && TypeofText(Big(0))[0] == 'б'
  {
  }

  /** No comparison of numbers depends on their order but for the answer's direction. */
  ghost predicate Lawful(nm: Numerics) {
    && (forall a, b :: nm.partialCmp(a, b) == Flipped(nm.partialCmp(b, a)))
    && (forall s, t :: Some(nm.byteOrder(s, t)) == Flipped(Some(nm.byteOrder(t, s))))
    && (forall s, t :: nm.byteOrder(s, t).EqualTo? <==> s == t)
  }

  function Flipped(o: Option<Ordering>): Option<Ordering> {
    match o
    case Some(LessThan) => Some(GreaterThan)
    case Some(GreaterThan) => Some(LessThan)
    case _ => o
  }

  /** `==` and `===` do not depend on the order of their operands; on values of one type they are the same, values of
      different types are never strictly equal, and only a NaN differs from itself. */
  lemma Equalities(nm: Numerics, a: Value, b: Value)
    requires Lawful(nm)
    ensures (StrictEq(nm, a, b) <==> StrictEq(nm, b, a)) && (AbstractEq(nm, a, b) <==> AbstractEq(nm, b, a))
    ensures SameType(a, b) ==> (AbstractEq(nm, a, b) <==> StrictEq(nm, a, b))
    ensures StrictEq(nm, a, b) ==> SameType(a, b) && AbstractEq(nm, a, b)
    ensures StrictEq(nm, a, a) <==> !(a.Number? && nm.partialCmp(a.n, a.n) != Some(EqualTo))
    ensures !a.Number? && SameType(a, b) ==> (StrictEq(nm, a, b) <==> a == b)
  {
    TypeofTells(a, b);
    EqualityFlips(nm, a, b);
  }

  lemma {:induction false} EqualityFlips(nm: Numerics, a: Value, b: Value)
    requires Lawful(nm)
    ensures AbstractEq(nm, a, b) <==> AbstractEq(nm, b, a)
    decreases (if a.Bool? then 1 else 0) + (if b.Bool? then 1 else 0)
  {
    if a.Bool? && !b.Bool? {
      EqualityFlips(nm, Number(ToNumber(nm, a)), b);
    } else if b.Bool? && !a.Bool? {
      EqualityFlips(nm, a, Number(ToNumber(nm, b)));
    }
  }

  lemma NullEqualsNullish(nm: Numerics, v: Value)
    ensures AbstractEq(nm, v, Null) <==> IsNullish(v)
  {
  }

  /** `==` takes a truth value for one or zero and, against a number, a text for the number it reads as. A value that is
      neither `null` nor `undefined` equals neither. */
  lemma LooseEquality(nm: Numerics, b: bool, s: string, n: Num, v: Value)
    ensures !v.Bool? ==> (AbstractEq(nm, Bool(b), v) <==> AbstractEq(nm, Number(if b then nm.one else nm.zero), v))
    ensures AbstractEq(nm, Number(n), Str(s)) <==> AbstractEq(nm, Number(n), Number(nm.parse(s)))
    ensures IsNullish(v) <==> AbstractEq(nm, v, Null)
    ensures IsNullish(v) <==> AbstractEq(nm, v, Undefined)
  {
    NullEqualsNullish(nm, v);
  }

  // ---- Operators on values ----

  /** What the operator is on two numbers: a function of `f64` or of 32-bit integers. */
  function OnNumbers(nm: Numerics, op: BinaryOp, a: Num, b: Num): Option<Num> {
    match op
    case Add => Some(nm.arith(AddF, a, b))
    case Sub => Some(nm.arith(SubF, a, b))
    case Mul => Some(nm.arith(MulF, a, b))
    case Div => Some(nm.arith(DivF, a, b))
    case Mod => Some(nm.arith(RemF, a, b))
    case Exp => Some(nm.arith(PowF, a, b))
    case BitAnd => Some(nm.bits(AndB, a, b))
    case BitOr => Some(nm.bits(OrB, a, b))
    case BitXor => Some(nm.bits(XorB, a, b))
    case LeftShift => Some(nm.bits(ShlB, a, b))
    case RightShift => Some(nm.bits(ShrB, a, b))
    case UnsignedRightShift => Some(nm.bits(UshrB, a, b))
    case _ => None
  }

  lemma ArithmeticOnNumbers(nm: Numerics, bk: Backend, op: BinaryOp, a: Num, b: Num)
    requires OnNumbers(nm, op, a, b).Some?
    ensures Operate(nm, bk, op, Number(a), Number(b)) == Some(Ok(Number(OnNumbers(nm, op, a, b).value)))
  {
    hide Compare, AbstractEq, StrictEq, BigIntOp;
  }

  /** Compiled code takes every operand that is no BigInt for the number unary plus makes of it, `+` with a text
      aside. */
  lemma OperandsAreConverted(nm: Numerics, op: BinaryOp, a: Value, b: Value)
    requires OnNumbers(nm, op, 0, 0).Some? && !a.Big? && !b.Big? && (op.Add? ==> !a.Str? && !b.Str?)
    ensures var x, y := UnaryResult(nm, Compiled, Plus, a), UnaryResult(nm, Compiled, Plus, b);
            x.Ok? && y.Ok? && Operate(nm, Compiled, op, a, b) == Operate(nm, Compiled, op, x.value, y.value)
  {
    var x, y := ToNumber(nm, a), ToNumber(nm, b);
    Calculated(nm, op, a, b);
    Calculated(nm, op, Number(x), Number(y));
    hide Operate, OnNumbers;
  }

  lemma Calculated(nm: Numerics, op: BinaryOp, a: Value, b: Value)
    requires OnNumbers(nm, op, 0, 0).Some? && !a.Big? && !b.Big? && (op.Add? ==> !a.Str? && !b.Str?)
    ensures OnNumbers(nm, op, ToNumber(nm, a), ToNumber(nm, b)).Some?
    ensures Operate(nm, Compiled, op, a, b)
         == Some(Ok(Number(OnNumbers(nm, op, ToNumber(nm, a), ToNumber(nm, b)).value)))
  {
    FormCalculated(nm, VmForm(op).value, op, a, b);
    hide ApplyBinary, OnNumbers, ToNumber;
  }

  lemma FormCalculated(nm: Numerics, form: VmBinary, op: BinaryOp, a: Value, b: Value)
    requires VmForm(op) == Some(form) && OnNumbers(nm, op, 0, 0).Some?
    requires !a.Big? && !b.Big? && (op.Add? ==> !a.Str? && !b.Str?)
    ensures OnNumbers(nm, op, ToNumber(nm, a), ToNumber(nm, b)).Some?
    ensures ApplyBinary(nm, form, a, b) == Ok(Number(OnNumbers(nm, op, ToNumber(nm, a), ToNumber(nm, b)).value))
  {
    hide Compare, AbstractEq, StrictEq, BigIntOp, ToNumber, ToEcmaString, HasBigForm;
  }

  lemma Conversions(nm: Numerics, n: Num, s: string)
    ensures UnaryResult(nm, Compiled, Plus, Number(n)) == Ok(Number(n))
    ensures UnaryResult(nm, Compiled, Plus, Str(s)) == Ok(Number(nm.parse(s)))
    ensures UnaryResult(nm, Compiled, Plus, Bool(true)) == Ok(Number(nm.one))
    ensures UnaryResult(nm, Compiled, Plus, Bool(false)) == UnaryResult(nm, Compiled, Plus, Null) == Ok(Number(nm.zero))
    ensures UnaryResult(nm, Compiled, Plus, Undefined) == Ok(Number(nm.nan))
  {
  }

  /** With a text on either side `+` joins the texts of both; a BigInt goes with BigInts alone. */
  lemma TextsAreJoined(nm: Numerics, bk: Backend, s: string, v: Value)
    ensures !v.Big? ==> Operate(nm, bk, Add, Str(s), v) == Some(Ok(Str(s + ToEcmaString(nm, v))))
    ensures !v.Big? ==> Operate(nm, bk, Add, v, Str(s)) == Some(Ok(Str(ToEcmaString(nm, v) + s)))
    ensures ToEcmaString(nm, Str(s)) == s
  {
  }

  lemma TextsOfConstants(nm: Numerics, bk: Backend)
    ensures Operate(nm, bk, Add, Str(""), Bool(true)) == Some(Ok(Str("true")))
    ensures Operate(nm, bk, Add, Str(""), Bool(false)) == Some(Ok(Str("false")))
    ensures Operate(nm, bk, Add, Str(""), Null) == Some(Ok(Str("null")))
    ensures Operate(nm, bk, Add, Str(""), Undefined) == Some(Ok(Str("undefined")))
  {
    TextsAreJoined(nm, bk, "", Bool(true));
    TextsAreJoined(nm, bk, "", Bool(false));
    TextsAreJoined(nm, bk, "", Null);
    TextsAreJoined(nm, bk, "", Undefined);
    assert "" + "true" == "true" && "" + "false" == "false" && "" + "null" == "null" && "" + "undefined" == "undefined";
    hide Operate;
  }

  /** Negating a BigInt is taking it from zero, and twice negated is unchanged unless it is the least; a BigInt has no
      unary plus. */
  lemma NegatedBigInt(nm: Numerics, bk: Backend, i: int)
    requires InI128(i)
    ensures UnaryResult(nm, bk, Minus, Big(i)) == BigIntOp(SubOp, 0, i)
    ensures i > I128_MIN ==>
              var r := UnaryResult(nm, bk, Minus, Big(i)); r.Ok? && UnaryResult(nm, bk, Minus, r.value) == Ok(Big(i))
    ensures UnaryResult(nm, bk, Plus, Big(i)) == Err(UnaryPlusOnBigInt)
  {
    assert 0 - i == -i;
  }

  predicate OverflowChecked(op: BinaryOp) {
    op in {Add, Sub, Mul, Div, Mod, Exp, Less, Greater, LessOrEqual, GreaterOrEqual}
  }

  lemma BigIntsStayApart(nm: Numerics, bk: Backend, op: BinaryOp, i: int, v: Value)
    requires OverflowChecked(op) && !v.Big?
    ensures Operate(nm, bk, op, Big(i), v) == Operate(nm, bk, op, v, Big(i)) == Some(Err(MixedBigInt))
  {
  }

  /** Turning a comparison round exchanges `<` with `>` and `<=` with `>=`. */
  lemma ComparisonsFlip(nm: Numerics, bk: Backend, a: Value, b: Value)
    requires Lawful(nm)
    ensures Operate(nm, bk, Less, a, b) == Operate(nm, bk, Greater, b, a)
    ensures Operate(nm, bk, LessOrEqual, a, b) == Operate(nm, bk, GreaterOrEqual, b, a)
  {
    ComparedBack(nm, a, b);
    hide Lawful, Compare;
    Compared(nm, bk, Less, LtOp, a, b);
    Compared(nm, bk, Greater, GtOp, b, a);
    Compared(nm, bk, LessOrEqual, LeOp, a, b);
    Compared(nm, bk, GreaterOrEqual, GeOp, b, a);
    hide Operate;
  }

  lemma Compared(nm: Numerics, bk: Backend, op: BinaryOp, form: VmBinary, a: Value, b: Value)
    requires ComparesAs(op, form)
    ensures Operate(nm, bk, op, a, b)
         == Some(if a.Big? && b.Big? then BigIntOp(form, a.i, b.i)
                 else if a.Big? || b.Big? then Err(MixedBigInt)
                 else Ok(Bool(Compare(nm, form, a, b))))
  {
    hide Compare, AbstractEq, StrictEq, AddValues;
  }

  /** The answer of a comparison is yes. */
  predicate Holds(nm: Numerics, bk: Backend, op: BinaryOp, a: Value, b: Value) {
    Operate(nm, bk, op, a, b) == Some(Ok(Bool(true)))
  }

  /** `<` is the order of numbers, texts and BigInts; `<=` is the opposite of `>` where every two values are ordered,
      and `<` or equality on numbers. */
  lemma Comparisons(nm: Numerics, bk: Backend, m: Num, n: Num, s: string, t: string, i: int, j: int)
    ensures Holds(nm, bk, Less, Number(m), Number(n)) <==> nm.partialCmp(m, n) == Some(LessThan)
    ensures Holds(nm, bk, LessOrEqual, Number(m), Number(n))
       <==> Holds(nm, bk, Less, Number(m), Number(n)) || nm.NumEq(m, n)
    ensures Holds(nm, bk, Less, Str(s), Str(t)) <==> nm.byteOrder(s, t) == LessThan
    ensures Holds(nm, bk, LessOrEqual, Str(s), Str(t)) <==> !Holds(nm, bk, Greater, Str(s), Str(t))
    ensures Holds(nm, bk, Less, Big(i), Big(j)) <==> i < j
    ensures Holds(nm, bk, LessOrEqual, Big(i), Big(j)) <==> !Holds(nm, bk, Greater, Big(i), Big(j))
  {
    AllCompared(nm, bk, Number(m), Number(n));
    AllCompared(nm, bk, Str(s), Str(t));
    AllCompared(nm, bk, Big(i), Big(j));
    hide Operate;
  }

  lemma AllCompared(nm: Numerics, bk: Backend, a: Value, b: Value)
    requires a.Big? <==> b.Big?
    ensures forall op, form :: ComparesAs(op, form) ==>
              Operate(nm, bk, op, a, b)
              == Some(if a.Big? then BigIntOp(form, a.i, b.i) else Ok(Bool(Compare(nm, form, a, b))))
  {
    hide Operate, Compare, BigIntOp;
    forall op, form | ComparesAs(op, form)
      ensures Operate(nm, bk, op, a, b)
           == Some(if a.Big? then BigIntOp(form, a.i, b.i) else Ok(Bool(Compare(nm, form, a, b))))
    {
      Compared(nm, bk, op, form, a, b);
    }
  }

  predicate ComparesAs(op: BinaryOp, form: VmBinary) {
    VmForm(op) == Some(form) && (form.LtOp? || form.GtOp? || form.LeOp? || form.GeOp?)
  }

  lemma ComparedBack(nm: Numerics, a: Value, b: Value)
    requires Lawful(nm)
    ensures Compare(nm, LtOp, a, b) <==> Compare(nm, GtOp, b, a)
    ensures Compare(nm, LeOp, a, b) <==> Compare(nm, GeOp, b, a)
  {
    if a.Str? && b.Str? {
      assert Some(nm.byteOrder(a.s, b.s)) == Flipped(Some(nm.byteOrder(b.s, a.s)));
    } else {
      var x, y := ToNumber(nm, a), ToNumber(nm, b);
      assert nm.partialCmp(x, y) == Flipped(nm.partialCmp(y, x));
    }
  }

  /** Sums, differences and products of BigInts are exact or refused, and refused only when they leave 128 bits. */
  lemma BigIntsAreExact(a: int, b: int)
    ensures var r := BigIntOp(AddOp, a, b); if InI128(a + b) then r == Ok(Big(a + b)) else r == Err(BigIntOverflow)
    ensures var r := BigIntOp(SubOp, a, b); if InI128(a - b) then r == Ok(Big(a - b)) else r == Err(BigIntOverflow)
    ensures var r := BigIntOp(MulOp, a, b); if InI128(a * b) then r == Ok(Big(a * b)) else r == Err(BigIntOverflow)
  {
  }

  /** Quotient and remainder of BigInts fit together, the remainder has the dividend's sign, and only the least number
      divided by -1 overflows. */
  lemma BigDivision(a: int, b: int)
    requires InI128(a) && InI128(b) && b != 0
    ensures var q, r := BigIntOp(DivOp, a, b), BigIntOp(ModOp, a, b);
            if a == I128_MIN && b == -1 then q == r == Err(BigIntOverflow)
            else
              && q.Ok? && r.Ok? && q.value.Big? && r.value.Big?
              && a == b * q.value.i + r.value.i
              && (if b > 0 then -b < r.value.i < b else b < r.value.i < -b)
              && (if a >= 0 then r.value.i >= 0 else r.value.i <= 0)
  {
    TruncatedParts(a, b);
    hide TruncDiv;
  }

  lemma TruncatedParts(a: int, b: int)
    requires InI128(a) && InI128(b) && b != 0
    ensures var q := TruncDiv(a, b);
            var r := a - b * q;
            && (if b > 0 then -b < r < b else b < r < -b)
            && (if a >= 0 then r >= 0 else r <= 0)
            && (InI128(q) <==> !(a == I128_MIN && b == -1)) && InI128(r)
  {
    var m, n := if a >= 0 then a else -a, if b > 0 then b else -b;
    Quotient(m, n);
    ProductSigns(a, b, m / n);
    var q := TruncDiv(a, b);
    assert q == if (a >= 0) == (b > 0) then m / n else -(m / n);
    hide TruncDiv;
    if n == 1 {
      assert m / n == m;
    }
  }

  lemma ProductSigns(a: int, b: int, q: int)
    ensures var n := if b > 0 then b else -b;
            b * (if (a >= 0) == (b > 0) then q else -q) == if a >= 0 then n * q else -(n * q)
  {
  }

  lemma Quotient(m: nat, n: nat)
    requires n > 0
    ensures m == n * (m / n) + m % n && m % n < n
    ensures 0 <= m / n <= m && (n > 1 && m > 0 ==> m / n < m)
  {
    var q := m / n;
    Doubled(n, q);
  }

  lemma Doubled(n: nat, q: nat)
    ensures n > 0 ==> n * q >= q
    ensures n > 1 ==> n * q >= 2 * q
  {
  }

  /** Powers of BigInts multiply as exponents add; a negative exponent is refused, and so is a result beyond 128
      bits. */
  lemma {:induction false} BigPower(a: int, m: nat, n: nat)
    ensures Power(a, m + n) == Power(a, m) * Power(a, n) && Power(a, 0) == 1 && Power(a, 1) == a
    ensures m <= U32_MAX ==> BigIntOp(PowOp, a, m) == Checked(Power(a, m))
    ensures n > 0 ==> BigIntOp(PowOp, a, 0 - n) == Err(NegativeExponent)
    decreases m
  {
    assert Power(a, 1) == a * Power(a, 0);
    if m > 0 {
      BigPower(a, m - 1, n);
      var p, q := Power(a, m - 1), Power(a, n);
      assert Power(a, m + n) == a * Power(a, m - 1 + n) == a * (p * q);
      assert a * (p * q) == (a * p) * q;
    }
  }

  // ---- Literals ----

  lemma {:induction false} DigitsJoin(s: string, t: string)
    ensures RemoveUnderscores(s + t) == RemoveUnderscores(s) + RemoveUnderscores(t)
  {
    hide RemoveUnderscores;
    if s == "" {
      NoDigits();
      assert s + t == t;
    } else {
      DigitUnfold(s);
      DigitUnfold(s + t);
      assert (s + t)[1..] == s[1..] + t;
      DigitsJoin(s[1..], t);
      Associative(FirstDigit(s), RemoveUnderscores(s[1..]), RemoveUnderscores(t));
    }
  }

  lemma NoDigits()
    ensures RemoveUnderscores("") == ""
  {
  }

  lemma Associative(a: string, b: string, c: string)
    ensures a + (b + c) == a + b + c
  {
  }

  function FirstDigit(s: string): string
    requires s != ""
  {
    if s[0] == '_' then "" else [s[0]]
  }

  lemma DigitUnfold(s: string)
    requires s != ""
    ensures RemoveUnderscores(s) == FirstDigit(s) + RemoveUnderscores(s[1..])
  {
  }

  /** Reading a number's digits passes over underscores and nothing else. */
  lemma {:induction false} UnderscoresAreSkipped(s: string, t: string)
    ensures RemoveUnderscores(s + "_" + t) == RemoveUnderscores(s + t)
    ensures '_' !in s ==> RemoveUnderscores(s) == s
    decreases |s|
  {
    DigitsJoin(s, "_" + t);
    DigitsJoin(s, t);
    assert s + "_" + t == s + ("_" + t) && ("_" + t)[1..] == t;
    if s != "" {
      UnderscoresAreSkipped(s[1..], t);
      assert '_' !in s ==> [s[0]] + s[1..] == s;
    }
  }

  /** Different literals are different values, numbers that read alike aside; a truth value is what it says, and the
      texts and BigInts of two literals add up to one. */
  lemma LiteralsDiffer(nm: Numerics, a: Literal, b: Literal)
    ensures LiteralValue(nm, a) == LiteralValue(nm, b) <==>
      || a == b
      || (a.NumberLit? && b.NumberLit?
          && nm.parse(RemoveUnderscores(a.raw)) == nm.parse(RemoveUnderscores(b.raw)))
  {
    match a
    case NumberLit(_) =>
    case BigIntLit(_) =>
    case TextLit(_) =>
    case BoolLit(_) =>
    case NullLit =>
    case UndefinedLit =>
  }

  lemma LiteralsAddUp(nm: Numerics, bk: Backend, s: string, t: string, i: int, j: int, b: bool, env: Env)
    requires InI128(i + j)
    ensures Eval(nm, bk, Binary(Add, Lit(TextLit(s)), Lit(TextLit(t))), env) == Eval(nm, bk, Lit(TextLit(s + t)), env)
    ensures Eval(nm, bk, Binary(Add, Lit(BigIntLit(i)), Lit(BigIntLit(j))), env)
         == Eval(nm, bk, Lit(BigIntLit(i + j)), env)
    ensures IsTruthy(nm, LiteralValue(nm, BoolLit(b))) <==> b
    ensures IsTruthy(nm, LiteralValue(nm, TextLit(s))) <==> s != ""
  {
    TextsAreJoined(nm, bk, s, Str(t));
    BigIntsAreExact(i, j);
    AddedLiterals(nm, bk, TextLit(s), TextLit(t), env);
    AddedLiterals(nm, bk, BigIntLit(i), BigIntLit(j), env);
  }

  lemma AddedLiterals(nm: Numerics, bk: Backend, a: Literal, b: Literal, env: Env)
    requires !a.NumberLit? && !b.NumberLit?
    ensures Operate(nm, bk, Add, LiteralValue(nm, a), LiteralValue(nm, b)).Some?
    ensures Eval(nm, bk, Binary(Add, Lit(a), Lit(b)), env)
         == OfResult(Operate(nm, bk, Add, LiteralValue(nm, a), LiteralValue(nm, b)).value, env)
  {
    hide LiteralValue, BinaryStep;
    LeftComesFirst(nm, bk, Add, Lit(a), Lit(b), env);
  }

  // ---- Loops ----

  /** `do s while (c)` is `s` and then `while (c) s`. */
  lemma {:induction false} DoIsBodyThenWhile(nm: Numerics, bk: Backend, s: Stmt, c: Expr, tag: Option<Name>, env: Env,
                                             fuel: nat)
    requires var first := AfterBody(Exec(nm, bk, s, None, env, fuel + 1), tag);
             first.Again? ==> Exec(nm, bk, While(c, s), tag, first.env, fuel) != OutOfFuel
    ensures var first := AfterBody(Exec(nm, bk, s, None, env, fuel + 1), tag);
            Exec(nm, bk, DoWhile(s, c), tag, env, fuel + 1)
            == if first.Stop? then first.outcome else Exec(nm, bk, While(c, s), tag, first.env, fuel)
    decreases fuel
  {
    hide *;
    var first := AfterBody(Exec(nm, bk, s, None, env, fuel + 1), tag);
    DoWhileUnfold(nm, bk, s, c, tag, env, fuel + 1);
    if first.Again? {
      WhileUnfold(nm, bk, s, c, tag, first.env, fuel);
      var test := Eval(nm, bk, c, first.env);
      if fuel > 0 && test.Val? && IsTruthy(nm, test.value) {
        DoIsBodyThenWhile(nm, bk, s, c, tag, test.env, fuel - 1);
      }
    }
  }

  lemma DoWhileUnfold(nm: Numerics, bk: Backend, s: Stmt, c: Expr, tag: Option<Name>, env: Env, fuel: nat)
    requires fuel > 0
    ensures var first := AfterBody(Exec(nm, bk, s, None, env, fuel), tag);
            Exec(nm, bk, DoWhile(s, c), tag, env, fuel)
            == if first.Stop? then first.outcome
               else
                 var test := Eval(nm, bk, c, first.env);
                 if test.Fail? then Failed(test.error, test.globals)
                 else if IsTruthy(nm, test.value) then Exec(nm, bk, DoWhile(s, c), tag, test.env, fuel - 1)
                 else Normal(test.env)
  {
    hide IsTruthy, Eval;
  }

  lemma WhileUnfold(nm: Numerics, bk: Backend, s: Stmt, c: Expr, tag: Option<Name>, env: Env, fuel: nat)
    ensures Exec(nm, bk, While(c, s), tag, env, fuel)
         == if fuel == 0 then OutOfFuel
            else
              var test := Eval(nm, bk, c, env);
              if test.Fail? then Failed(test.error, test.globals)
              else if !IsTruthy(nm, test.value) then Normal(test.env)
              else
                var first := AfterBody(Exec(nm, bk, s, None, test.env, fuel), tag);
                if first.Stop? then first.outcome else Exec(nm, bk, While(c, s), tag, first.env, fuel - 1)
  {
    hide IsTruthy, Eval;
  }

  /** A body that only continues is an empty body, in every kind of loop. */
  lemma {:induction false} OnlyContinues(nm: Numerics, bk: Backend, c: Expr, tag: Option<Name>, env: Env, fuel: nat)
    ensures Exec(nm, bk, While(c, Continue(None)), tag, env, fuel) == Exec(nm, bk, While(c, Empty), tag, env, fuel)
    ensures Exec(nm, bk, DoWhile(Continue(None), c), tag, env, fuel) == Exec(nm, bk, DoWhile(Empty, c), tag, env, fuel)
    decreases fuel
  {
    hide Eval;
    WhileUnfold(nm, bk, Continue(None), c, tag, env, fuel);
    WhileUnfold(nm, bk, Empty, c, tag, env, fuel);
    if fuel > 0 {
      DoWhileUnfold(nm, bk, Continue(None), c, tag, env, fuel);
      DoWhileUnfold(nm, bk, Empty, c, tag, env, fuel);
      assert AfterBody(Continued(None, env), tag) == AfterBody(Normal(env), tag) == Again(env);
      var test := Eval(nm, bk, c, env);
      if test.Val? {
        OnlyContinues(nm, bk, c, tag, test.env, fuel - 1);
      }
    }
  }

  lemma {:induction false} ForOnlyContinues(nm: Numerics, bk: Backend, c: Option<Expr>, u: Option<Expr>,
                                            tag: Option<Name>, env: Env, fuel: nat)
    ensures ExecFor(nm, bk, c, u, Continue(None), tag, env, fuel) == ExecFor(nm, bk, c, u, Empty, tag, env, fuel)
    decreases fuel
  {
    hide Eval;
    if fuel > 0 {
      var test := if c.Some? then Eval(nm, bk, c.value, env) else Val(Bool(true), env);
      if test.Val? {
        assert AfterBody(Continued(None, test.env), tag) == AfterBody(Normal(test.env), tag) == Again(test.env);
        var step := if u.Some? then Eval(nm, bk, u.value, test.env) else Val(Undefined, test.env);
        if step.Val? {
          ForOnlyContinues(nm, bk, c, u, tag, step.env, fuel - 1);
        }
      }
    }
  }

  /** A body that only breaks runs at most once. */
  lemma OnlyBreaks(nm: Numerics, bk: Backend, c: Expr, u: Option<Expr>, tag: Option<Name>, env: Env, fuel: nat)
    requires fuel > 0
    ensures Exec(nm, bk, While(c, Break(None)), tag, env, fuel) == Exec(nm, bk, If(c, Empty, None), None, env, fuel)
    ensures Exec(nm, bk, DoWhile(Break(None), c), tag, env, fuel) == Normal(env)
    ensures ExecFor(nm, bk, Some(c), u, Break(None), tag, env, fuel)
              == Exec(nm, bk, If(c, Empty, None), None, env, fuel)
  {
    hide Eval;
    WhileUnfold(nm, bk, Break(None), c, tag, env, fuel);
    DoWhileUnfold(nm, bk, Break(None), c, tag, env, fuel);
    assert forall e :: AfterBody(Broke(None, e), tag) == Stop(Normal(e));
  }

  // ---- Switch ----

  lemma {:induction false} SelectLater(nm: Numerics, bk: Backend, v: Value, c: SwitchCase, rest: seq<SwitchCase>,
                                       i: nat, env: Env)
    requires i <= |rest|
    ensures var r := Select(nm, bk, v, rest, i, env);
            Select(nm, bk, v, [c] + rest, i + 1, env) == if r.Chosen? then Chosen(r.index + 1, r.env) else r
    decreases |rest| - i
  {
    hide Eval, StrictEq;
    if i < |rest| {
      assert ([c] + rest)[i + 1] == rest[i];
      var r := Eval(nm, bk, rest[i].value, env);
      if r.Val? && !StrictEq(nm, v, r.value) {
        SelectLater(nm, bk, v, c, rest, i + 1, r.env);
      }
    }
  }

  /** The first case is taken if `===` holds of its value, and then its block alone runs; otherwise the `switch` is the
      one without it. */
  lemma SwitchTriesInOrder(nm: Numerics, bk: Backend, e: Expr, v: Value, c: SwitchCase, u: Value, rest: seq<SwitchCase>,
                           d: Option<Block>, tag: Option<Name>, env: Env, fuel: nat)
    requires Eval(nm, bk, e, env) == Val(v, env) && Eval(nm, bk, c.value, EnterScope(env)) == Val(u, EnterScope(env))
    ensures Exec(nm, bk, Switch(e, [c] + rest, d), tag, env, fuel)
         == if Operate(nm, bk, StrictEquals, v, u) == Some(Ok(Bool(true))) then
              LeaveScope(ExecBlock(nm, bk, c.body, EnterScope(env), fuel))
            else Exec(nm, bk, Switch(e, rest, d), tag, env, fuel)
  {
    StrictlyEqual(nm, bk, v, u);
    SelectLater(nm, bk, v, c, rest, 0, EnterScope(env));
    SwitchUnfold(nm, bk, e, v, [c] + rest, d, tag, env, fuel);
    SwitchUnfold(nm, bk, e, v, rest, d, tag, env, fuel);
    SelectFirst(nm, bk, v, c, u, rest, EnterScope(env));
    hide *;
    assert ([c] + rest)[0] == c;
    var r := Select(nm, bk, v, rest, 0, EnterScope(env));
    if r.Chosen? {
      assert ([c] + rest)[r.index + 1] == rest[r.index];
    }
  }

  lemma SelectFirst(nm: Numerics, bk: Backend, v: Value, c: SwitchCase, u: Value, rest: seq<SwitchCase>, env: Env)
    requires Eval(nm, bk, c.value, env) == Val(u, env)
    ensures Select(nm, bk, v, [c] + rest, 0, env)
         == if StrictEq(nm, v, u) then Chosen(0, env) else Select(nm, bk, v, [c] + rest, 1, env)
  {
    hide Eval, StrictEq;
    assert ([c] + rest)[0] == c;
  }

  lemma StrictlyEqual(nm: Numerics, bk: Backend, v: Value, u: Value)
    ensures Operate(nm, bk, StrictEquals, v, u) == Some(Ok(Bool(StrictEq(nm, v, u))))
  {
    hide AbstractEq, Compare;
  }

  lemma SwitchUnfold(nm: Numerics, bk: Backend, e: Expr, v: Value, cases: seq<SwitchCase>, d: Option<Block>,
                     tag: Option<Name>, env: Env, fuel: nat)
    requires Eval(nm, bk, e, env) == Val(v, env)
    ensures var r := Select(nm, bk, v, cases, 0, EnterScope(env));
            Exec(nm, bk, Switch(e, cases, d), tag, env, fuel)
            == LeaveScope(if r.Raised? then Failed(r.error, r.globals)
                          else if r.Chosen? then ExecBlock(nm, bk, cases[r.index].body, r.env, fuel)
                          else if d.None? then Normal(r.env)
                          else ExecBlock(nm, bk, d.value, r.env, fuel))
  {
    hide Eval, Select;
  }
}
