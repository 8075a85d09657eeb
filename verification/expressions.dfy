/**
 The expression compiler: block expressions turned into Python terms in which a value that is not ready
 is an exception, and the meaning the expression evaluator gives them, which those terms should keep.
 */
module Expressions {
  import opened Common

  // ------------------------------------------------------------------ expressions and their meaning

  datatype Op = Add | Sub | Mul

  datatype Cmp = Gt | Gte | Lt | Lte | Eq | Ne

  /** An indicator, a position field or any other read that may not be ready is a `Read`. */
  datatype Expr =
    | Number(x: real)
    | Flag(b: bool)
    | Param(name: string)
    | Cash
    | Equity
    | Read(name: string)
    | Arith(op: Op, args: Exprs)
    | Div(args: Exprs)
    | Compare(cmp: Cmp, args: Exprs)
    | All(args: Exprs)
    | Any(args: Exprs)
    | Not(arg: Expr)
    | If(cond: Expr, then_: Expr, else_: Expr)
    | Cases(arms: Arms, default_: Expr)

  datatype Exprs = Nil | Cons(head: Expr, tail: Exprs)

  datatype Arms = NoArms | Arm(cond: Expr, value: Expr, rest: Arms)

  /** A truth value counts as one or zero in arithmetic. */
  datatype Value = Num(x: real) | Truth(b: bool)

  datatype Env = Env(params: map<string, real>, cash: real, equity: real, leaves: string -> Option<Value>)

  function AsNumber(v: Value): real { if v.Num? then v.x else if v.b then 1.0 else 0.0 }

  predicate Truthy(v: Value) { if v.Num? then v.x != 0.0 else v.b }

  function Apply(op: Op, a: real, b: real): real {
    match op case Add => a + b case Sub => a - b case Mul => a * b
  }

  predicate Holds(cmp: Cmp, a: real, b: real) {
    match cmp
    case Gt => a > b case Gte => a >= b case Lt => a < b case Lte => a <= b case Eq => a == b case Ne => a != b
  }

  function FoldLeft(op: Op, first: real, rest: seq<real>): real {
    if rest == [] then first else Apply(op, FoldLeft(op, first, rest[..|rest| - 1]), rest[|rest| - 1])
  }

  /** The numbers of all operands, if every one is ready. */
  function Numbers(args: Exprs, env: Env): Option<seq<real>>
    decreases args, 0
  {
    match args
    case Nil => Some([])
    case Cons(e, rest) =>
      var v, vs := Meaning(e, env), Numbers(rest, env);
      if v.None? || vs.None? then None else Some([AsNumber(v.value)] + vs.value)
  }

  /** Ready and true. */
  predicate Met(cond: Expr, env: Env)
    decreases cond, 1
  {
    Meaning(cond, env).Some? && Truthy(Meaning(cond, env).value)
  }

  predicate EveryMet(args: Exprs, env: Env)
    decreases args, 0
  {
    args.Nil? || (Met(args.head, env) && EveryMet(args.tail, env))
  }

  predicate SomeMet(args: Exprs, env: Env)
    decreases args, 0
  {
    args.Cons? && (Met(args.head, env) || SomeMet(args.tail, env))
  }

  function FirstMet(arms: Arms, otherwise: Option<Value>, env: Env): Option<Value>
    decreases arms, 0
  {
    match arms
    case NoArms => otherwise
    case Arm(cond, value, rest) => if Met(cond, env) then Meaning(value, env) else FirstMet(rest, otherwise, env)
  }

  /** `a / b / c`; a zero divisor makes the whole division not ready. */
  function Quotient(first: real, rest: seq<real>): Option<real> {
    if rest == [] then Some(first)
    else
      var q, d := Quotient(first, rest[..|rest| - 1]), rest[|rest| - 1];
      if q.None? || d == 0.0 then None else Some(q.value / d)
  }

  /** What the evaluator makes of an expression: arithmetic needs every operand, division by zero is not
      ready, a comparison over anything not ready is false, and wherever a truth is asked for, in `all`,
      `any`, `not`, a branch or a case, a value that is not ready counts as false. */
  function Meaning(e: Expr, env: Env): Option<Value>
    decreases e, 0
  {
    match e
    case Number(x) => Some(Num(x))
    case Flag(b) => Some(Truth(b))
    case Param(name) => if name in env.params then Some(Num(env.params[name])) else None
    case Cash => Some(Num(env.cash))
    case Equity => Some(Num(env.equity))
    case Read(name) => env.leaves(name)
    case Arith(op, args) =>
      var ns := Numbers(args, env);
      if args.Cons? && args.tail.Nil? then Meaning(args.head, env) // a single operand is itself
      else if ns.None? || ns.value == [] then None else Some(Num(FoldLeft(op, ns.value[0], ns.value[1..])))
    case Div(args) =>
      var ns := Numbers(args, env);
      if args.Cons? && args.tail.Nil? then Meaning(args.head, env)
      else if ns.None? || ns.value == [] then None
      else
        var q := Quotient(ns.value[0], ns.value[1..]);
        if q.None? then None else Some(Num(q.value))
    case Compare(cmp, args) =>
      var ns := Numbers(args, env);
      Some(Truth(ns.Some? && |ns.value| == 2 && Holds(cmp, ns.value[0], ns.value[1])))
    case All(args) => Some(Truth(EveryMet(args, env)))
    case Any(args) => Some(Truth(SomeMet(args, env)))
    case Not(a) => Some(Truth(!Met(a, env)))
    case If(c, t, f) => if Met(c, env) then Meaning(t, env) else Meaning(f, env)
    case Cases(arms, d) => FirstMet(arms, Meaning(d, env), env)
  }

  // ------------------------------------------------------------------ terms and how Python runs them

  datatype Term =
    | Lit(v: Value)
    | SelfParam(name: string)
    | SelfCash
    | SelfEquity
    | Call(name: string)
    | Bin(op: Op, a: Term, b: Term)
    | DivCall(args: Terms)
    | CmpCall(f: Term)
    | Order(cmp: Cmp, a: Term, b: Term)
    | And(a: Term, b: Term)
    | Or(a: Term, b: Term)
    | NotTerm(a: Term)
    | Cond(test: Term, then_: Term, else_: Term)
    | EmptyTuple

  datatype Terms = TNil | TCons(head: Term, tail: Terms)

  /** A run ends in a value, in the NotReady exception, or in any other error; the empty tuple is what an
      empty list of operands is printed as, and arithmetic on it counts as an error. */
  datatype Outcome = Done(v: Value) | Tuple | NotReady | Crash

  predicate TrueOutcome(o: Outcome) { o.Done? && Truthy(o.v) }

  /** Both operands, left first; an exception on either side wins. */
  function Both(a: Outcome, b: Outcome, f: (real, real) -> Value): Outcome {
    if a.NotReady? || a.Crash? then a
    else if b.NotReady? || b.Crash? then b
    else if a.Tuple? || b.Tuple? then Crash
    else Done(f(AsNumber(a.v), AsNumber(b.v)))
  }

  function Run(t: Term, env: Env): Outcome
    decreases t, 0
  {
    match t
    case Lit(v) => Done(v)
    case SelfParam(name) => if name in env.params then Done(Num(env.params[name])) else Crash
    case SelfCash => Done(Num(env.cash))
    case SelfEquity => Done(Num(env.equity))
    case Call(name) => if env.leaves(name).Some? then Done(env.leaves(name).value) else NotReady
    case Bin(op, a, b) => Both(Run(a, env), Run(b, env), (x, y) => Num(Apply(op, x, y)))
    case Order(cmp, a, b) => Both(Run(a, env), Run(b, env), (x, y) => Truth(Holds(cmp, x, y)))
    case DivCall(args) => RunDiv(args, env)
    case CmpCall(f) =>
      var o := Run(f, env);
      if o.NotReady? then Done(Truth(false)) else if o.Crash? then Crash else Done(Truth(TrueOutcome(o)))
    case And(a, b) =>
      var o := Run(a, env);
      if o.NotReady? || o.Crash? || !TrueOutcome(o) then o else Run(b, env)
    case Or(a, b) =>
      var o := Run(a, env);
      if o.NotReady? || o.Crash? || TrueOutcome(o) then o else Run(b, env)
    case NotTerm(a) =>
      var o := Run(a, env);
      if o.NotReady? || o.Crash? then o else Done(Truth(!TrueOutcome(o)))
    case Cond(test, a, b) =>
      var o := Run(test, env);
      if o.NotReady? || o.Crash? then o else if TrueOutcome(o) then Run(a, env) else Run(b, env)
    case EmptyTuple => Tuple
  }

  /** The first of the arguments that raises. */
  function FirstRaised(args: Terms, env: Env): Option<Outcome>
    decreases args, 0
  {
    match args
    case TNil => None
    case TCons(t, rest) =>
      var o := Run(t, env);
      if o.NotReady? || o.Crash? then Some(o) else FirstRaised(rest, env)
  }

  /** The helper takes two arguments, all of those given being evaluated first, and raises NotReady on a
      zero divisor. */
  function RunDiv(args: Terms, env: Env): Outcome
    decreases args, 1
  {
    var raised := FirstRaised(args, env);
    if raised.Some? then raised.value
    else
      match args
      case TCons(a, TCons(b, TNil)) =>
        var x, y := Run(a, env), Run(b, env);
        if !y.Done? then Crash
        else if AsNumber(y.v) == 0.0 then NotReady
        else if !x.Done? then Crash
        else Done(Num(AsNumber(x.v) / AsNumber(y.v)))
      case _ => Crash
  }

  // ------------------------------------------------------------------ the compiler

  datatype Compiled<T> = Ok(term: T) | Unsupported

  /** `a op b op c`, which Python reads from the left. */
  function Chain(op: Op, acc: Term, rest: Terms): Term
    decreases rest
  {
    match rest case TNil => acc case TCons(t, more) => Chain(op, Bin(op, acc, t), more)
  }

  function Joined(args: Terms, and_: bool): Term {
    match args
    case TNil => EmptyTuple
    case TCons(t, TNil) => t
    case TCons(t, more) => if and_ then And(t, Joined(more, and_)) else Or(t, Joined(more, and_))
  }

  /** Conditions and values, one pair per case. */
  function Nested(arms: seq<(Term, Term)>, out: Term): Term {
    if arms == [] then out else Cond(CmpCall(arms[0].0), arms[0].1, Nested(arms[1..], out))
  }

  /** The cases are nested from the last one outwards. */
  method NestCases(arms: seq<(Term, Term)>, default_: Term) returns (out: Term)
    ensures out == Nested(arms, default_)
  {
    out := default_;
    for i := |arms| downto 0
      invariant out == Nested(arms[i..], default_)
    {
      CutAt(arms, i);
      out := Cond(CmpCall(arms[i].0), arms[i].1, out);
    }
    CutAt(arms, 0);
  }

  function Compile(e: Expr, known: set<string>): Compiled<Term> {
    match e
    case Number(x) => Ok(Lit(Num(x)))
    case Flag(b) => Ok(Lit(Truth(b)))
    case Param(name) => if name in known then Ok(SelfParam(name)) else Unsupported
    case Cash => Ok(SelfCash)
    case Equity => Ok(SelfEquity)
    case Read(name) => Ok(Call(name))
    case Arith(op, args) =>
      var ts := CompileAll(args, known);
      if ts.Unsupported? then Unsupported
      else (match ts.term case TNil => Ok(EmptyTuple) case TCons(t, rest) => Ok(Chain(op, t, rest)))
    case Div(args) =>
      var ts := CompileAll(args, known);
      if ts.Unsupported? then Unsupported else Ok(DivCall(ts.term))
    case Compare(cmp, args) =>
      var ts := CompileAll(args, known);
      if ts.Unsupported? then Unsupported
      else (match ts.term
            case TCons(a, TCons(b, TNil)) => Ok(CmpCall(Order(cmp, a, b)))
            case _ => Unsupported)
    case All(args) =>
      var ts := CompileAll(args, known);
      if ts.Unsupported? then Unsupported else Ok(Joined(ts.term, true))
    case Any(args) =>
      var ts := CompileAll(args, known);
      if ts.Unsupported? then Unsupported else Ok(Joined(ts.term, false))
    case Not(a) =>
      var t := Compile(a, known);
      if t.Unsupported? then Unsupported else Ok(NotTerm(t.term))
    case If(c, a, b) =>
      var tc, ta, tb := Compile(c, known), Compile(a, known), Compile(b, known);
      if tc.Unsupported? || ta.Unsupported? || tb.Unsupported? then Unsupported
      else Ok(Cond(CmpCall(tc.term), ta.term, tb.term))
    case Cases(arms, d) =>
      var ts, td := CompileArms(arms, known), Compile(d, known);
      if ts.Unsupported? || td.Unsupported? then Unsupported else Ok(Nested(ts.term, td.term))
  }

  function CompileAll(args: Exprs, known: set<string>): Compiled<Terms> {
    match args
    case Nil => Ok(TNil)
    case Cons(e, rest) =>
      var t, ts := Compile(e, known), CompileAll(rest, known);
      if t.Unsupported? || ts.Unsupported? then Unsupported else Ok(TCons(t.term, ts.term))
  }

  function CompileArms(arms: Arms, known: set<string>): Compiled<seq<(Term, Term)>> {
    match arms
    case NoArms => Ok([])
    case Arm(c, v, rest) =>
      var tc, tv, ts := Compile(c, known), Compile(v, known), CompileArms(rest, known);
      if tc.Unsupported? || tv.Unsupported? || ts.Unsupported? then Unsupported
      else Ok([(tc.term, tv.term)] + ts.term)
  }

  // ------------------------------------------------------------------ well-formed expressions

  predicate IsPair(args: Exprs) { args.Cons? && args.tail.Cons? && args.tail.tail.Nil? }

  predicate WellFormed(e: Expr) {
    match e
    case Arith(_, args) => args.Cons? && AllWellFormed(args)
    case Div(args) => args.Cons? && AllWellFormed(args)
    case Compare(_, args) => IsPair(args) && AllWellFormed(args)
    case All(args) => AllWellFormed(args)
    case Any(args) => AllWellFormed(args)
    case Not(a) => WellFormed(a)
    case If(c, a, b) => WellFormed(c) && WellFormed(a) && WellFormed(b)
    case Cases(arms, d) => ArmsWellFormed(arms) && WellFormed(d)
    case _ => true
  }

  predicate AllWellFormed(args: Exprs) { args.Nil? || (WellFormed(args.head) && AllWellFormed(args.tail)) }

  predicate ArmsWellFormed(arms: Arms) {
    arms.NoArms? || (WellFormed(arms.cond) && WellFormed(arms.value) && ArmsWellFormed(arms.rest))
  }

  /** The parameters an expression names. */
  function Params(e: Expr): set<string> {
    match e
    case Param(name) => {name}
    case Arith(_, args) => ParamsOf(args)
    case Div(args) => ParamsOf(args)
    case Compare(_, args) => ParamsOf(args)
    case All(args) => ParamsOf(args)
    case Any(args) => ParamsOf(args)
    case Not(a) => Params(a)
    case If(c, a, b) => Params(c) + Params(a) + Params(b)
    case Cases(arms, d) => ParamsOfArms(arms) + Params(d)
    case _ => {}
  }

  function ParamsOf(args: Exprs): set<string> { if args.Nil? then {} else Params(args.head) + ParamsOf(args.tail) }

  function ParamsOfArms(arms: Arms): set<string> {
    if arms.NoArms? then {} else Params(arms.cond) + Params(arms.value) + ParamsOfArms(arms.rest)
  }

  /** A well-formed expression compiles exactly when every parameter it names is known. */
  lemma {:induction false} CompilesIffParamsKnown(e: Expr, known: set<string>)
    requires WellFormed(e)
    ensures Compile(e, known).Ok? <==> Params(e) <= known
  {
    match e
    case Arith(_, args) => AllCompileIffKnown(args, known);
    case Div(args) => AllCompileIffKnown(args, known);
    case Compare(_, args) =>
      AllCompileIffKnown(args, known);
      if CompileAll(args, known).Ok? { PairCompiles(args, known); }
    case All(args) => AllCompileIffKnown(args, known);
    case Any(args) => AllCompileIffKnown(args, known);
    case Not(a) => CompilesIffParamsKnown(a, known);
    case If(c, a, b) =>
      CompilesIffParamsKnown(c, known);
      CompilesIffParamsKnown(a, known);
      CompilesIffParamsKnown(b, known);
    case Cases(arms, d) =>
      ArmsCompileIffKnown(arms, known);
      CompilesIffParamsKnown(d, known);
    case _ =>
  }

  lemma {:induction false} AllCompileIffKnown(args: Exprs, known: set<string>)
    requires AllWellFormed(args)
    ensures CompileAll(args, known).Ok? <==> ParamsOf(args) <= known
  {
    if args.Cons? {
      CompilesIffParamsKnown(args.head, known);
      AllCompileIffKnown(args.tail, known);
    }
  }

  lemma PairCompiles(args: Exprs, known: set<string>)
    requires IsPair(args) && CompileAll(args, known).Ok?
    ensures var ts := CompileAll(args, known).term; ts.TCons? && ts.tail.TCons? && ts.tail.tail.TNil?
  {
    assert CompileAll(args.tail.tail, known) == Ok(TNil);
  }

  lemma {:induction false} ArmsCompileIffKnown(arms: Arms, known: set<string>)
    requires ArmsWellFormed(arms)
    ensures CompileArms(arms, known).Ok? <==> ParamsOfArms(arms) <= known
  {
    if arms.Arm? {
      CompilesIffParamsKnown(arms.cond, known);
      CompilesIffParamsKnown(arms.value, known);
      ArmsCompileIffKnown(arms.rest, known);
    }
  }

  // ------------------------------------------------------------------ when the meaning is preserved

  /** The run ends as the expression's meaning says: NotReady for not ready, and otherwise in a value that
      Python cannot tell from it in any arithmetic, comparison or test. */
  predicate Same(o: Outcome, m: Option<Value>) {
    if m.None? then o.NotReady? else o.Done? && AsNumber(o.v) == AsNumber(m.value)
  }

  predicate IsBit(v: Value) { AsNumber(v) == 0.0 || AsNumber(v) == 1.0 }

  /** The operand at which a run from the left ends. */
  predicate EndsAt(v: Option<Value>, deciding: bool) { v.None? || Truthy(v.value) == deciding }

  /** Every operand up to the one that decides, or else the last, is ready, and that one is 0 or 1. */
  predicate Settles(args: Exprs, env: Env, deciding: bool) {
    && args.Cons?
    && var v := Meaning(args.head, env);
       && v.Some?
       && (if EndsAt(v, deciding) || args.tail.Nil? then IsBit(v.value) else Settles(args.tail, env, deciding))
  }

  /** No operand that is not ready stands in front of the first true one. */
  predicate ReadyUpToTrue(args: Exprs, env: Env) {
    args.Cons? ==>
      var v := Meaning(args.head, env);
      if v.None? then !SomeMet(args.tail, env) else Truthy(v.value) || ReadyUpToTrue(args.tail, env)
  }

  /** What a node asks of the values of its operands to keep its own value. */
  predicate KeepsValue(e: Expr, env: Env) {
    match e
    case All(args) => Settles(args, env, false)
    case Any(args) => Settles(args, env, true)
    case Not(a) => Meaning(a, env).Some?
    case Div(args) => IsPair(args) || Numbers(args, env).None?
    case _ => true
  }

  /** What it asks to keep its truth where a truth is asked for. */
  predicate KeepsTruth(e: Expr, env: Env) {
    match e
    case All(args) => args.Cons?
    case Any(args) => ReadyUpToTrue(args, env)
    case _ => KeepsValue(e, env)
  }

  /** Every node the run of `e` evaluates below `e` itself keeps what is asked of it. */
  predicate Reached(e: Expr, env: Env)
    decreases e, 0
  {
    match e
    case Arith(_, args) => AllKept(args, env)
    case Div(args) => AllKept(args, env)
    case Compare(_, args) => AllKept(args, env)
    case All(args) => KeptOnTheWay(args, env, false)
    case Any(args) => KeptOnTheWay(args, env, true)
    case Not(a) => Kept(a, env)
    case If(c, t, f) => KeptAsTest(c, env) && (if Met(c, env) then Kept(t, env) else Kept(f, env))
    case Cases(arms, d) => ArmsKept(arms, env) && (NoneMet(arms, env) ==> Kept(d, env))
    case _ => true
  }

  predicate Kept(e: Expr, env: Env)
    decreases e, 1
  {
    Reached(e, env) && KeepsValue(e, env)
  }

  predicate KeptAsTest(e: Expr, env: Env)
    decreases e, 1
  {
    Reached(e, env) && KeepsTruth(e, env)
  }

  predicate AllKept(args: Exprs, env: Env)
    decreases args, 0
  {
    args.Nil? || (Kept(args.head, env) && AllKept(args.tail, env))
  }

  predicate KeptOnTheWay(args: Exprs, env: Env, deciding: bool)
    decreases args, 0
  {
    args.Nil? ||
    (Kept(args.head, env) && (EndsAt(Meaning(args.head, env), deciding) || KeptOnTheWay(args.tail, env, deciding)))
  }

  predicate ArmsKept(arms: Arms, env: Env)
    decreases arms, 0
  {
    arms.NoArms? ||
    (KeptAsTest(arms.cond, env) && (if Met(arms.cond, env) then Kept(arms.value, env) else ArmsKept(arms.rest, env)))
  }

  predicate NoneMet(arms: Arms, env: Env) { arms.NoArms? || (!Met(arms.cond, env) && NoneMet(arms.rest, env)) }

  // ------------------------------------------------------------------ arithmetic and comparisons

  /** Each term runs to the meaning of its operand. */
  predicate Agree(args: Exprs, ts: Terms, env: Env) {
    match args
    case Nil => ts.TNil?
    case Cons(e, rest) => ts.TCons? && Same(Run(ts.head, env), Meaning(e, env)) && Agree(rest, ts.tail, env)
  }

  lemma ChainRaises(op: Op, acc: Term, rest: Terms, env: Env)
    requires Run(acc, env).NotReady?
    ensures Run(Chain(op, acc, rest), env).NotReady?
    decreases rest
  {
    if rest.TCons? { ChainRaises(op, Bin(op, acc, rest.head), rest.tail, env); }
  }

  lemma FoldFirst(op: Op, a: real, b: real, rest: seq<real>)
    ensures FoldLeft(op, a, [b] + rest) == FoldLeft(op, Apply(op, a, b), rest)
  {
    if rest == [] {
      assert ([b] + rest)[..0] == [];
    } else {
      FoldFirst(op, a, b, rest[..|rest| - 1]);
      LastSplits([b], rest);
      assert ([b] + rest)[..|rest|] == [b] + rest[..|rest| - 1];
    }
  }

  lemma {:induction false} ChainPreserves(op: Op, acc: Term, x: real, args: Exprs, ts: Terms, env: Env)
    requires Run(acc, env).Done? && AsNumber(Run(acc, env).v) == x && Agree(args, ts, env)
    ensures var ns := Numbers(args, env);
            Same(Run(Chain(op, acc, ts), env), if ns.None? then None else Some(Num(FoldLeft(op, x, ns.value))))
    decreases args
  {
    match args
    case Nil =>
    case Cons(e, rest) =>
      var v := Meaning(e, env);
      var next := Bin(op, acc, ts.head);
      if v.None? {
        ChainRaises(op, next, ts.tail, env);
      } else {
        ChainPreserves(op, next, Apply(op, x, AsNumber(v.value)), rest, ts.tail, env);
        if Numbers(rest, env).Some? { FoldFirst(op, x, AsNumber(v.value), Numbers(rest, env).value); }
      }
  }

  lemma ArithPreserves(op: Op, args: Exprs, ts: Terms, env: Env)
    requires args.Cons? && Agree(args, ts, env)
    ensures Same(Run(Chain(op, ts.head, ts.tail), env), Meaning(Arith(op, args), env))
  {
    var v := Meaning(args.head, env);
    assert Agree(args.tail, ts.tail, env);
    if v.None? {
      assert Numbers(args, env) == None;
      ChainRaises(op, ts.head, ts.tail, env);
    } else if args.tail.Cons? {
      ChainPreserves(op, ts.head, AsNumber(v.value), args.tail, ts.tail, env);
      var rest := Numbers(args.tail, env);
      if rest.Some? {
        assert Numbers(args, env) == Some([AsNumber(v.value)] + rest.value);
        assert ([AsNumber(v.value)] + rest.value)[1..] == rest.value;
      } else {
        assert Numbers(args, env) == None;
      }
    }
  }

  lemma PairPreserves(args: Exprs, ts: Terms, env: Env)
    requires IsPair(args) && Agree(args, ts, env)
    ensures ts.TCons? && ts.tail.TCons? && ts.tail.tail.TNil?
    ensures var a, b := Meaning(args.head, env), Meaning(args.tail.head, env);
            && Same(Run(ts.head, env), a) && Same(Run(ts.tail.head, env), b)
            && Numbers(args, env) == if a.None? || b.None? then None else Some([AsNumber(a.value), AsNumber(b.value)])
  {
    assert Agree(args.tail, ts.tail, env);
    assert Agree(args.tail.tail, ts.tail.tail, env);
    assert Numbers(args.tail.tail, env) == Some([]);
    var a, b := Meaning(args.head, env), Meaning(args.tail.head, env);
    if b.Some? {
      assert [AsNumber(b.value)] + [] == [AsNumber(b.value)];
      assert Numbers(args.tail, env) == Some([AsNumber(b.value)]);
      if a.Some? { assert [AsNumber(a.value)] + [AsNumber(b.value)] == [AsNumber(a.value), AsNumber(b.value)]; }
    } else {
      assert Numbers(args.tail, env) == None;
    }
  }

  lemma {:induction false} RaisesIffUnready(args: Exprs, ts: Terms, env: Env)
    requires Agree(args, ts, env)
    ensures FirstRaised(ts, env) == if Numbers(args, env).None? then Some(NotReady) else None
    decreases args
  {
    if args.Cons? { RaisesIffUnready(args.tail, ts.tail, env); }
  }

  lemma QuotientOfTwo(a: real, b: real)
    ensures Quotient(a, [b]) == if b == 0.0 then None else Some(a / b)
  {
    assert [b][..0] == [];
  }

  lemma ManyDiv(args: Exprs, ts: Terms, env: Env)
    requires args.Cons? && Agree(args, ts, env) && !IsPair(args)
    ensures Run(DivCall(ts), env) == if Numbers(args, env).None? then NotReady else Crash
  {
    RaisesIffUnready(args, ts, env);
    if args.tail.Cons? { assert Agree(args.tail.tail, ts.tail.tail, env); }
  }

  lemma DivPreservesExactly(args: Exprs, ts: Terms, env: Env)
    requires args.Cons? && Agree(args, ts, env)
    ensures Same(Run(DivCall(ts), env), Meaning(Div(args), env)) <==> KeepsValue(Div(args), env)
  {
    RaisesIffUnready(args, ts, env);
    if IsPair(args) {
      PairPreserves(args, ts, env);
      var a, b := Meaning(args.head, env), Meaning(args.tail.head, env);
      if a.Some? && b.Some? {
        assert [AsNumber(a.value), AsNumber(b.value)][1..] == [AsNumber(b.value)];
        QuotientOfTwo(AsNumber(a.value), AsNumber(b.value));
      }
    } else {
      ManyDiv(args, ts, env);
    }
  }

  lemma ComparePreserves(cmp: Cmp, args: Exprs, ts: Terms, env: Env)
    requires IsPair(args) && Agree(args, ts, env)
    ensures ts.TCons? && ts.tail.TCons? && ts.tail.tail.TNil?
    ensures Same(Run(CmpCall(Order(cmp, ts.head, ts.tail.head)), env), Meaning(Compare(cmp, args), env))
  {
    PairPreserves(args, ts, env);
  }

  // ------------------------------------------------------------------ all, any, not and branches

  /** Each term runs to the meaning of its operand, as far as a run from the left gets. */
  predicate AgreeOnTheWay(args: Exprs, ts: Terms, env: Env, deciding: bool) {
    match args
    case Nil => ts.TNil?
    case Cons(e, rest) =>
      ts.TCons? && Same(Run(ts.head, env), Meaning(e, env))
      && (EndsAt(Meaning(e, env), deciding) || AgreeOnTheWay(rest, ts.tail, env, deciding))
  }

  /** What a chain of `and` or `or` runs to: the evaluator's truth as a value exactly when the operands settle
      it, and as a test exactly when no unready operand hides a true one. */
  lemma {:induction false} JoinedPreservesExactly(args: Exprs, ts: Terms, env: Env, and_: bool)
    requires args.Cons? && AgreeOnTheWay(args, ts, env, !and_)
    ensures var o := Run(Joined(ts, and_), env);
            var truth := if and_ then EveryMet(args, env) else SomeMet(args, env);
            && (o.Done? || o.NotReady?)
            && (Same(o, Some(Truth(truth))) <==> Settles(args, env, !and_))
            && (TrueOutcome(o) == truth <==> and_ || ReadyUpToTrue(args, env))
    decreases args
  {
    if !EndsAt(Meaning(args.head, env), !and_) && args.tail.Cons? {
      JoinedPreservesExactly(args.tail, ts.tail, env, and_);
    }
  }

  /** The same for the two nodes, an empty list of operands included. */
  lemma JoinedExactly(args: Exprs, ts: Terms, env: Env, and_: bool)
    requires AgreeOnTheWay(args, ts, env, !and_)
    ensures var t, e := Joined(ts, and_), if and_ then All(args) else Any(args);
            && (Same(Run(t, env), Meaning(e, env)) <==> KeepsValue(e, env))
            && (Run(CmpCall(t), env) == Done(Truth(Met(e, env))) <==> KeepsTruth(e, env))
  {
    if args.Cons? {
      JoinedPreservesExactly(args, ts, env, and_);
    } else {
      assert Joined(ts, and_) == EmptyTuple;
    }
  }

  lemma {:induction false} OnTheWayAgree(args: Exprs, known: set<string>, env: Env, deciding: bool)
    requires AllWellFormed(args) && CompileAll(args, known).Ok? && known <= env.params.Keys
    requires KeptOnTheWay(args, env, deciding)
    ensures AgreeOnTheWay(args, CompileAll(args, known).term, env, deciding)
    decreases args, 0
  {
    if args.Cons? {
      CompilePreservesExactly(args.head, known, env);
      if !EndsAt(Meaning(args.head, env), deciding) { OnTheWayAgree(args.tail, known, env, deciding); }
    }
  }

  lemma {:induction false} AllAgree(args: Exprs, known: set<string>, env: Env)
    requires AllWellFormed(args) && CompileAll(args, known).Ok? && known <= env.params.Keys && AllKept(args, env)
    ensures Agree(args, CompileAll(args, known).term, env)
    decreases args, 0
  {
    if args.Cons? {
      CompilePreservesExactly(args.head, known, env);
      AllAgree(args.tail, known, env);
    }
  }

  /** The first arm, given what the rest of them runs to. */
  lemma FirstArmPreserves(arms: Arms, otherwise: Option<Value>, c: Term, v: Term, rest: Term, env: Env)
    requires arms.Arm? && Run(CmpCall(c), env) == Done(Truth(Met(arms.cond, env)))
    requires if Met(arms.cond, env) then Same(Run(v, env), Meaning(arms.value, env))
             else Same(Run(rest, env), FirstMet(arms.rest, otherwise, env))
    ensures Same(Run(Cond(CmpCall(c), v, rest), env), FirstMet(arms, otherwise, env))
  {}

  lemma {:induction false} ArmsPreserve(arms: Arms, otherwise: Option<Value>, out: Term, known: set<string>, env: Env)
    requires ArmsWellFormed(arms) && known <= env.params.Keys && CompileArms(arms, known).Ok? && ArmsKept(arms, env)
    requires NoneMet(arms, env) ==> Same(Run(out, env), otherwise)
    ensures Same(Run(Nested(CompileArms(arms, known).term, out), env), FirstMet(arms, otherwise, env))
    decreases arms, 0
  {
    if arms.Arm? {
      var ts := CompileArms(arms, known).term;
      TestPreservesExactly(arms.cond, known, env);
      if Met(arms.cond, env) {
        CompilePreservesExactly(arms.value, known, env);
      } else {
        ArmsPreserve(arms.rest, otherwise, out, known, env);
      }
      assert ts[1..] == CompileArms(arms.rest, known).term;
      FirstArmPreserves(arms, otherwise, ts[0].0, ts[0].1, Nested(ts[1..], out), env);
    }
  }

  /** Where everything below is kept, the compiled node runs to the evaluator's value if and only if its
      operands meet the condition of `KeepsValue`: for `not` that its operand is ready, for `all` and `any`
      that every operand up to the deciding one is ready and that one is 0 or 1, for a division that it has
      two operands. Every other node keeps its value. */
  lemma {:induction false} CompilePreservesExactly(e: Expr, known: set<string>, env: Env)
    requires WellFormed(e) && Compile(e, known).Ok? && known <= env.params.Keys && Reached(e, env)
    ensures Same(Run(Compile(e, known).term, env), Meaning(e, env)) <==> KeepsValue(e, env)
    decreases e, 0
  {
    match e
    case Arith(op, args) =>
      AllAgree(args, known, env);
      ArithPreserves(op, args, CompileAll(args, known).term, env);
    case Div(args) =>
      AllAgree(args, known, env);
      DivPreservesExactly(args, CompileAll(args, known).term, env);
    case Compare(cmp, args) =>
      AllAgree(args, known, env);
      ComparePreserves(cmp, args, CompileAll(args, known).term, env);
    case All(args) =>
      OnTheWayAgree(args, known, env, false);
      JoinedExactly(args, CompileAll(args, known).term, env, true);
    case Any(args) =>
      OnTheWayAgree(args, known, env, true);
      JoinedExactly(args, CompileAll(args, known).term, env, false);
    case Not(a) =>
      CompilePreservesExactly(a, known, env);
    case If(c, a, b) =>
      TestPreservesExactly(c, known, env);
      CompilePreservesExactly(if Met(c, env) then a else b, known, env);
    case Cases(arms, d) =>
      if NoneMet(arms, env) { CompilePreservesExactly(d, known, env); }
      ArmsPreserve(arms, Meaning(d, env), Compile(d, known).term, known, env);
    case _ =>
  }

  /** The same where only the truth of the node is asked for, as in a branch, a case or a rule: `all` then
      needs no more than an operand, and `any` that no unready operand stands in front of a true one. */
  lemma {:induction false} TestPreservesExactly(e: Expr, known: set<string>, env: Env)
    requires WellFormed(e) && Compile(e, known).Ok? && known <= env.params.Keys && Reached(e, env)
    ensures Run(CmpCall(Compile(e, known).term), env) == Done(Truth(Met(e, env))) <==> KeepsTruth(e, env)
    decreases e, 1
  {
    match e
    case All(args) =>
      OnTheWayAgree(args, known, env, false);
      JoinedExactly(args, CompileAll(args, known).term, env, true);
    case Any(args) =>
      OnTheWayAgree(args, known, env, true);
      JoinedExactly(args, CompileAll(args, known).term, env, false);
    case Not(a) =>
      CompilePreservesExactly(a, known, env);
      NotAsTest(a, Compile(a, known).term, env);
    case Div(args) =>
      AllAgree(args, known, env);
      ManyOrTwo(args, CompileAll(args, known).term, env);
    case _ =>
      CompilePreservesExactly(e, known, env);
  }

  lemma NotAsTest(a: Expr, t: Term, env: Env)
    requires Same(Run(t, env), Meaning(a, env))
    ensures Run(CmpCall(NotTerm(t)), env) == Done(Truth(Met(Not(a), env))) <==> Meaning(a, env).Some?
  {
    assert Met(Not(a), env) == !Met(a, env);
  }

  lemma ManyOrTwo(args: Exprs, ts: Terms, env: Env)
    requires args.Cons? && Agree(args, ts, env)
    ensures Run(CmpCall(DivCall(ts)), env) == Done(Truth(Met(Div(args), env))) <==> KeepsTruth(Div(args), env)
  {
    DivPreservesExactly(args, ts, env);
    if !IsPair(args) { ManyDiv(args, ts, env); }
  }

  /** The condition on the nodes below cannot be dropped, nor turned round: what one of them loses can cancel
      out above it. `not` of an unready read is lost below both of these comparisons; below the second it
      makes no difference. */
  lemma UnkeptMayCancel(r: string, known: set<string>, env: Env)
    requires env.leaves(r).None?
    ensures !Kept(Not(Read(r)), env)
    ensures var e := Compare(Gt, Cons(Not(Read(r)), Cons(Number(0.0), Nil)));
            Compile(e, known).Ok? && !Same(Run(Compile(e, known).term, env), Meaning(e, env))
    ensures var e := Compare(Lt, Cons(Not(Read(r)), Cons(Number(0.0), Nil)));
            Compile(e, known).Ok? && Same(Run(Compile(e, known).term, env), Meaning(e, env))
  {
    var args := Cons(Not(Read(r)), Cons(Number(0.0), Nil));
    assert Meaning(Not(Read(r)), env) == Some(Truth(true)) by { assert !Met(Read(r), env); }
    assert Numbers(Nil, env) == Some([]) && Numbers(args.tail, env) == Some([0.0] + []);
    assert Numbers(args, env) == Some([1.0, 0.0]) by { assert [1.0] + ([0.0] + []) == [1.0, 0.0]; }
    var a, b := NotTerm(Call(r)), Lit(Num(0.0));
    assert CompileAll(args, known) == Ok(TCons(a, TCons(b, TNil))) by {
      assert CompileAll(args.tail, known) == Ok(TCons(b, TNil)) by { assert CompileAll(Nil, known) == Ok(TNil); }
      assert Compile(Not(Read(r)), known) == Ok(a) by { assert Compile(Read(r), known) == Ok(Call(r)); }
    }
    assert Run(a, env).NotReady? by { assert Run(Call(r), env).NotReady?; }
    ComparesFalse(Gt, a, b, env);
    ComparesFalse(Lt, a, b, env);
  }

  lemma ComparesFalse(cmp: Cmp, a: Term, b: Term, env: Env)
    requires Run(a, env).NotReady?
    ensures Run(CmpCall(Order(cmp, a, b)), env) == Done(Truth(false))
  {}

  // ------------------------------------------------------------------ strategies that are always preserved

  /** Comparisons and what is built from them. */
  predicate IsCondition(e: Expr) {
    match e
    case Flag(_) => true
    case Compare(_, _) => true
    case All(args) => args.Cons? && AllConditions(args)
    case Any(args) => args.Cons? && AllConditions(args)
    case Not(a) => IsCondition(a)
    case _ => false
  }

  predicate AllConditions(args: Exprs) { args.Nil? || (IsCondition(args.head) && AllConditions(args.tail)) }

  /** Every `all`, `any` and `not` is over conditions, and every division has two operands. */
  predicate Disciplined(e: Expr) {
    match e
    case Arith(_, args) => AllDisciplined(args)
    case Div(args) => IsPair(args) && AllDisciplined(args)
    case Compare(_, args) => AllDisciplined(args)
    case All(args) => args.Cons? && AllConditions(args) && AllDisciplined(args)
    case Any(args) => args.Cons? && AllConditions(args) && AllDisciplined(args)
    case Not(a) => IsCondition(a) && Disciplined(a)
    case If(c, t, f) => Disciplined(c) && Disciplined(t) && Disciplined(f)
    case Cases(arms, d) => ArmsDisciplined(arms) && Disciplined(d)
    case _ => true
  }

  predicate AllDisciplined(args: Exprs) { args.Nil? || (Disciplined(args.head) && AllDisciplined(args.tail)) }

  predicate ArmsDisciplined(arms: Arms) {
    arms.NoArms? || (Disciplined(arms.cond) && Disciplined(arms.value) && ArmsDisciplined(arms.rest))
  }

  lemma ConditionsAreBits(e: Expr, env: Env)
    requires IsCondition(e)
    ensures Meaning(e, env).Some? && IsBit(Meaning(e, env).value)
  {}

  lemma {:induction false} ConditionsSettle(args: Exprs, env: Env, deciding: bool)
    requires args.Cons? && AllConditions(args)
    ensures Settles(args, env, deciding) && ReadyUpToTrue(args, env)
  {
    ConditionsAreBits(args.head, env);
    if args.tail.Cons? { ConditionsSettle(args.tail, env, deciding); }
  }

  lemma {:induction false} DisciplinedIsKept(e: Expr, env: Env)
    requires Disciplined(e)
    ensures Kept(e, env) && KeptAsTest(e, env)
    decreases e, 1
  {
    match e
    case Arith(_, args) => AllDisciplinedKept(args, env, false);
    case Div(args) => AllDisciplinedKept(args, env, false);
    case Compare(_, args) => AllDisciplinedKept(args, env, false);
    case All(args) =>
      AllDisciplinedKept(args, env, false);
      ConditionsSettle(args, env, false);
    case Any(args) =>
      AllDisciplinedKept(args, env, true);
      ConditionsSettle(args, env, true);
    case Not(a) =>
      DisciplinedIsKept(a, env);
      ConditionsAreBits(a, env);
    case If(c, t, f) =>
      DisciplinedIsKept(c, env);
      DisciplinedIsKept(t, env);
      DisciplinedIsKept(f, env);
    case Cases(arms, d) =>
      ArmsDisciplinedKept(arms, env);
      DisciplinedIsKept(d, env);
    case _ =>
  }

  lemma {:induction false} AllDisciplinedKept(args: Exprs, env: Env, deciding: bool)
    requires AllDisciplined(args)
    ensures AllKept(args, env) && KeptOnTheWay(args, env, deciding)
    decreases args, 0
  {
    if args.Cons? {
      DisciplinedIsKept(args.head, env);
      AllDisciplinedKept(args.tail, env, deciding);
    }
  }

  lemma {:induction false} ArmsDisciplinedKept(arms: Arms, env: Env)
    requires ArmsDisciplined(arms)
    ensures ArmsKept(arms, env)
    decreases arms, 0
  {
    if arms.Arm? {
      DisciplinedIsKept(arms.cond, env);
      DisciplinedIsKept(arms.value, env);
      ArmsDisciplinedKept(arms.rest, env);
    }
  }

  /** A strategy that asks `all`, `any` and `not` of conditions only keeps its meaning, in every
      environment: as a value, as a test, and without any error but NotReady. */
  lemma CompilePreserves(e: Expr, known: set<string>, env: Env)
    requires WellFormed(e) && Disciplined(e) && Params(e) <= known <= env.params.Keys
    ensures Compile(e, known).Ok? && Same(Run(Compile(e, known).term, env), Meaning(e, env))
    ensures Run(CmpCall(Compile(e, known).term), env) == Done(Truth(Met(e, env)))
  {
    CompilesIffParamsKnown(e, known);
    DisciplinedIsKept(e, env);
    CompilePreservesExactly(e, known, env);
    TestPreservesExactly(e, known, env);
  }

  // ------------------------------------------------------------------ operators and errors

  function Two(a: Expr, b: Expr): Exprs { Cons(a, Cons(b, Nil)) }

  /** The three operations of two numbers, for the evaluator and for the compiled term alike. */
  lemma ArithmeticOfTwo(x: real, y: real, env: Env)
    ensures Meaning(Arith(Add, Two(Number(x), Number(y))), env) == Some(Num(x + y))
    ensures Meaning(Arith(Sub, Two(Number(x), Number(y))), env) == Some(Num(x - y))
    ensures Meaning(Arith(Mul, Two(Number(x), Number(y))), env) == Some(Num(x * y))
    ensures Run(Bin(Add, Lit(Num(x)), Lit(Num(y))), env) == Done(Num(x + y))
    ensures Run(Bin(Sub, Lit(Num(x)), Lit(Num(y))), env) == Done(Num(x - y))
    ensures Run(Bin(Mul, Lit(Num(x)), Lit(Num(y))), env) == Done(Num(x * y))
  {
    OperationOnTwo(Add, x, y, env);
    OperationOnTwo(Sub, x, y, env);
    OperationOnTwo(Mul, x, y, env);
  }

  lemma OperationOnTwo(op: Op, x: real, y: real, env: Env)
    ensures Meaning(Arith(op, Two(Number(x), Number(y))), env) == Some(Num(Apply(op, x, y)))
    ensures Run(Bin(op, Lit(Num(x)), Lit(Num(y))), env) == Done(Num(Apply(op, x, y)))
  {
    var ns := [x, y];
    NumbersOfTwo(x, y, env);
    assert ns[0] == x && ns[1..] == [y] && [y][..0] == [];
    assert FoldLeft(op, x, []) == x;
    assert FoldLeft(op, x, [y]) == Apply(op, x, y);
  }

  lemma NumbersOfTwo(x: real, y: real, env: Env)
    ensures Numbers(Two(Number(x), Number(y)), env) == Some([x, y])
  {
    assert Numbers(Nil, env) == Some([]);
    assert Numbers(Cons(Number(y), Nil), env) == Some([y]) by { assert [y] + [] == [y]; }
    assert [x] + [y] == [x, y];
  }

  /** The six comparisons. */
  lemma ComparisonOfTwo(x: real, y: real, env: Env)
    ensures Meaning(Compare(Gt, Two(Number(x), Number(y))), env) == Some(Truth(x > y))
    ensures Meaning(Compare(Gte, Two(Number(x), Number(y))), env) == Some(Truth(x >= y))
    ensures Meaning(Compare(Lt, Two(Number(x), Number(y))), env) == Some(Truth(x < y))
    ensures Meaning(Compare(Lte, Two(Number(x), Number(y))), env) == Some(Truth(x <= y))
    ensures Meaning(Compare(Eq, Two(Number(x), Number(y))), env) == Some(Truth(x == y))
    ensures Meaning(Compare(Ne, Two(Number(x), Number(y))), env) == Some(Truth(x != y))
  {
    NumbersOfTwo(x, y, env);
  }

  /** Any other error than NotReady is caught nowhere: a term that runs into it on its way ends in it. */
  lemma ErrorsAreCaughtNowhere(t: Term, u: Term, v: Term, op: Op, cmp: Cmp, env: Env)
    requires Run(t, env).Crash?
    ensures Run(Bin(op, t, u), env).Crash? && Run(Order(cmp, t, u), env).Crash?
    ensures Run(And(t, u), env).Crash? && Run(Or(t, u), env).Crash? && Run(NotTerm(t), env).Crash?
    ensures Run(CmpCall(t), env).Crash? && Run(Cond(t, u, v), env).Crash?
  {}

  lemma ErrorsOnTheRight(t: Term, u: Term, op: Op, cmp: Cmp, env: Env)
    requires Run(t, env).Crash? && !Run(u, env).NotReady?
    ensures Run(Bin(op, u, t), env).Crash? && Run(Order(cmp, u, t), env).Crash?
  {}

  lemma ErrorsInDivisions(t: Term, more: Terms, env: Env)
    requires Run(t, env).Crash?
    ensures Run(DivCall(TCons(t, more)), env).Crash?
  {
    assert FirstRaised(TCons(t, more), env) == Some(Crash);
  }

  lemma ErrorsInDivisors(t: Term, u: Term, env: Env)
    requires Run(t, env).Crash? && !Run(u, env).NotReady?
    ensures RunDiv(TCons(u, TCons(t, TNil)), env).Crash?
  {
    var divisor := TCons(t, TNil);
    assert FirstRaised(divisor, env) == Some(Crash);
  }

  /** And NotReady is caught only by a comparison or a branch. */
  lemma NotReadyIsCaughtByTests(t: Term, u: Term, v: Term, op: Op, cmp: Cmp, env: Env)
    requires Run(t, env).NotReady?
    ensures Run(Bin(op, t, u), env).NotReady? && Run(Order(cmp, t, u), env).NotReady?
    ensures Run(And(t, u), env).NotReady? && Run(Or(t, u), env).NotReady? && Run(NotTerm(t), env).NotReady?
    ensures Run(CmpCall(t), env) == Done(Truth(false)) && Run(Cond(t, u, v), env).NotReady?
  {}

  // ------------------------------------------------------------------ where the compiled strategy differs

  /** `not` of a read that is not ready is true for the evaluator; compiled it raises, so a rule on it does
      not fire, and a branch on it goes the other way. */
  lemma NotOfUnreadyDiffers(r: string, a: Expr, b: Expr, known: set<string>, env: Env)
    requires env.leaves(r).None? && Compile(a, known).Ok? && Compile(b, known).Ok?
    ensures Met(Not(Read(r)), env) && Compile(Not(Read(r)), known) == Ok(NotTerm(Call(r)))
    ensures Run(NotTerm(Call(r)), env).NotReady?
    ensures var branch := If(Not(Read(r)), a, b);
            && Meaning(branch, env) == Meaning(a, env) && Compile(branch, known).Ok?
            && Run(Compile(branch, known).term, env) == Run(Compile(b, known).term, env)
  {
    var ta, tb := Compile(a, known).term, Compile(b, known).term;
    assert Compile(Read(r), known) == Ok(Call(r));
    assert Compile(If(Not(Read(r)), a, b), known) == Ok(Cond(CmpCall(NotTerm(Call(r))), ta, tb));
    assert !Met(Read(r), env);
    assert Meaning(Not(Read(r)), env) == Some(Truth(true));
    assert Run(NotTerm(Call(r)), env).NotReady? by { assert Run(Call(r), env).NotReady?; }
    assert Run(CmpCall(NotTerm(Call(r))), env) == Done(Truth(false));
  }

  /** `any` goes on past what is not ready; compiled it stops there, so a rule that holds does not fire. */
  lemma AnyPastUnreadyDiffers(r: string, known: set<string>, env: Env)
    requires env.leaves(r).None?
    ensures var e, t := Any(Two(Read(r), Flag(true))), Or(Call(r), Lit(Truth(true)));
            && Met(e, env) && Compile(e, known) == Ok(t)
            && Run(t, env).NotReady? && Run(CmpCall(t), env) == Done(Truth(false))
  {
    var t := Or(Call(r), Lit(Truth(true)));
    TwoCompile(Read(r), Flag(true), known);
    assert SomeMet(Cons(Flag(true), Nil), env);
    assert Joined(TCons(Lit(Truth(true)), TNil), false) == Lit(Truth(true));
    assert Run(t, env).NotReady?;
  }

  lemma TwoCompile(a: Expr, b: Expr, known: set<string>)
    requires Compile(a, known).Ok? && Compile(b, known).Ok?
    ensures CompileAll(Two(a, b), known) == Ok(TCons(Compile(a, known).term, TCons(Compile(b, known).term, TNil)))
  {
    assert CompileAll(Nil, known) == Ok(TNil);
    assert CompileAll(Cons(b, Nil), known) == Ok(TCons(Compile(b, known).term, TNil));
  }

  /** `all` over a read that is not ready is false for the evaluator, and as a test it is in both; as a
      value the compiled one raises. */
  lemma AllOfUnreadyDiffers(r: string, rest: Exprs, known: set<string>, env: Env)
    requires env.leaves(r).None? && CompileAll(rest, known).Ok?
    ensures var e := All(Cons(Read(r), rest));
            && Meaning(e, env) == Some(Truth(false))
            && Compile(e, known).Ok? && Run(Compile(e, known).term, env).NotReady?
            && Run(CmpCall(Compile(e, known).term), env) == Done(Truth(false))
  {
    var ts := TCons(Call(r), CompileAll(rest, known).term);
    assert !Met(Read(r), env);
    assert CompileAll(Cons(Read(r), rest), known) == Ok(ts) by { assert Compile(Read(r), known) == Ok(Call(r)); }
    assert Run(Call(r), env).NotReady? && Run(Joined(ts, true), env).NotReady?;
    assert Compile(All(Cons(Read(r), rest)), known) == Ok(Joined(ts, true));
  }

  /** `any` over a price of 250 is true for the evaluator and 250 when compiled: in arithmetic 1 and 250. */
  lemma AnyOfNumberDiffers(r: string, known: set<string>, env: Env)
    requires env.leaves(r) == Some(Num(250.0))
    ensures var e := Any(Cons(Read(r), Nil));
            && Meaning(e, env) == Some(Truth(true)) && Compile(e, known) == Ok(Call(r))
            && Run(Call(r), env) == Done(Num(250.0))
  {
    assert Met(Read(r), env);
    assert CompileAll(Cons(Read(r), Nil), known) == Ok(TCons(Call(r), TNil)) by {
      assert CompileAll(Nil, known) == Ok(TNil) && Compile(Read(r), known) == Ok(Call(r));
    }
    assert Joined(TCons(Call(r), TNil), false) == Call(r);
  }

  /** An empty `all` holds for the evaluator; it is printed as an empty tuple, which is false. An empty `any`
      is false for both. */
  lemma EmptyAllIsFalse(known: set<string>, env: Env)
    ensures Met(All(Nil), env) && !Met(Any(Nil), env)
    ensures Compile(All(Nil), known) == Ok(EmptyTuple) && Compile(Any(Nil), known) == Ok(EmptyTuple)
    ensures Run(CmpCall(EmptyTuple), env) == Done(Truth(false))
  {
    assert CompileAll(Nil, known) == Ok(TNil);
    assert Joined(TNil, true) == EmptyTuple && Joined(TNil, false) == EmptyTuple;
  }

  /** A division of three ready operands has a value for the evaluator; the compiled helper takes two
      arguments and fails. */
  lemma LongDivisionDiffers(known: set<string>, env: Env)
    ensures var e := Div(Cons(Number(8.0), Two(Number(2.0), Number(2.0))));
            && Meaning(e, env) == Some(Num(2.0)) && Compile(e, known).Ok? && Run(Compile(e, known).term, env).Crash?
  {
    var two := Lit(Num(2.0));
    var args := Cons(Number(8.0), Two(Number(2.0), Number(2.0)));
    var ts := TCons(Lit(Num(8.0)), TCons(two, TCons(two, TNil)));
    EightByTwoByTwo(env);
    TwoCompile(Number(2.0), Number(2.0), known);
    assert CompileAll(args, known) == Ok(ts) by { assert Compile(Number(8.0), known) == Ok(Lit(Num(8.0))); }
    assert FirstRaised(TNil, env) == None;
    assert FirstRaised(TCons(two, TNil), env) == None;
    assert FirstRaised(ts.tail, env) == None;
    assert FirstRaised(ts, env) == None;
    assert Compile(Div(args), known) == Ok(DivCall(ts));
  }

  lemma EightByTwoByTwo(env: Env)
    ensures Meaning(Div(Cons(Number(8.0), Two(Number(2.0), Number(2.0)))), env) == Some(Num(2.0))
  {
    var args := Cons(Number(8.0), Two(Number(2.0), Number(2.0)));
    assert Numbers(Nil, env) == Some([]);
    assert Numbers(Cons(Number(2.0), Nil), env) == Some([2.0]) by { assert [2.0] + [] == [2.0]; }
    assert Numbers(args.tail, env) == Some([2.0, 2.0]) by { assert [2.0] + [2.0] == [2.0, 2.0]; }
    assert Numbers(args, env) == Some([8.0, 2.0, 2.0]) by { assert [8.0] + [2.0, 2.0] == [8.0, 2.0, 2.0]; }
    assert [8.0, 2.0, 2.0][1..] == [2.0, 2.0] && [2.0, 2.0][..1] == [2.0];
    QuotientOfTwo(8.0, 2.0);
    assert Quotient(8.0, [2.0, 2.0]) == Some(2.0);
  }

  // ------------------------------------------------------------------ compiled conditions never raise

  /** Nothing but a value or NotReady can come of it: no empty `all` or `any`, and divisions of two. */
  predicate Sturdy(e: Expr) {
    match e
    case Arith(_, args) => AllSturdy(args)
    case Div(args) => IsPair(args) && AllSturdy(args)
    case Compare(_, args) => AllSturdy(args)
    case All(args) => args.Cons? && AllSturdy(args)
    case Any(args) => args.Cons? && AllSturdy(args)
    case Not(a) => Sturdy(a)
    case If(c, t, f) => Sturdy(c) && Sturdy(t) && Sturdy(f)
    case Cases(arms, d) => ArmsSturdy(arms) && Sturdy(d)
    case _ => true
  }

  predicate AllSturdy(args: Exprs) { args.Nil? || (Sturdy(args.head) && AllSturdy(args.tail)) }

  predicate ArmsSturdy(arms: Arms) {
    arms.NoArms? || (Sturdy(arms.cond) && Sturdy(arms.value) && ArmsSturdy(arms.rest))
  }

  predicate Clean(t: Term, env: Env) { Run(t, env).Done? || Run(t, env).NotReady? }

  predicate AllClean(ts: Terms, env: Env) { ts.TNil? || (Clean(ts.head, env) && AllClean(ts.tail, env)) }

  lemma {:induction false} ChainClean(op: Op, acc: Term, rest: Terms, env: Env)
    requires Clean(acc, env) && AllClean(rest, env)
    ensures Clean(Chain(op, acc, rest), env)
    decreases rest
  {
    if rest.TCons? { ChainClean(op, Bin(op, acc, rest.head), rest.tail, env); }
  }

  lemma {:induction false} JoinedClean(ts: Terms, and_: bool, env: Env)
    requires ts.TCons? && AllClean(ts, env)
    ensures Clean(Joined(ts, and_), env)
  {
    if ts.tail.TCons? { JoinedClean(ts.tail, and_, env); }
  }

  lemma DivClean(args: Exprs, known: set<string>, env: Env)
    requires IsPair(args) && CompileAll(args, known).Ok? && AllClean(CompileAll(args, known).term, env)
    ensures Clean(DivCall(CompileAll(args, known).term), env)
  {
    PairCompiles(args, known);
    var ts := CompileAll(args, known).term;
    assert AllClean(ts.tail, env);
    assert FirstRaised(TNil, env) == None;
    assert FirstRaised(ts.tail, env) == if Run(ts.tail.head, env).Done? then None else Some(NotReady);
    assert FirstRaised(ts, env) == if Run(ts.head, env).Done? then FirstRaised(ts.tail, env) else Some(NotReady);
  }

  lemma CompareClean(cmp: Cmp, args: Exprs, known: set<string>, env: Env)
    requires IsPair(args) && CompileAll(args, known).Ok? && AllClean(CompileAll(args, known).term, env)
    ensures Compile(Compare(cmp, args), known).Ok? && Clean(Compile(Compare(cmp, args), known).term, env)
  {
    PairCompiles(args, known);
    var ts := CompileAll(args, known).term;
    assert AllClean(ts.tail, env);
    OrderClean(cmp, ts.head, ts.tail.head, env);
  }

  lemma OrderClean(cmp: Cmp, a: Term, b: Term, env: Env)
    requires Clean(a, env) && Clean(b, env)
    ensures Clean(CmpCall(Order(cmp, a, b)), env)
  {}

  lemma CondClean(c: Term, a: Term, b: Term, env: Env)
    requires Clean(c, env) && Clean(a, env) && Clean(b, env)
    ensures Clean(Cond(CmpCall(c), a, b), env)
  {}

  lemma {:induction false} SturdyAllClean(args: Exprs, known: set<string>, env: Env)
    requires AllWellFormed(args) && AllSturdy(args) && CompileAll(args, known).Ok? && known <= env.params.Keys
    ensures AllClean(CompileAll(args, known).term, env) && (args.Cons? ==> CompileAll(args, known).term.TCons?)
    decreases args, 0
  {
    if args.Cons? {
      NoErrorButNotReady(args.head, known, env);
      SturdyAllClean(args.tail, known, env);
    }
  }

  lemma {:induction false} ArmsClean(arms: Arms, out: Term, known: set<string>, env: Env)
    requires ArmsWellFormed(arms) && ArmsSturdy(arms) && CompileArms(arms, known).Ok? && known <= env.params.Keys
    requires Clean(out, env)
    ensures Clean(Nested(CompileArms(arms, known).term, out), env)
    decreases arms, 0
  {
    if arms.Arm? {
      NoErrorButNotReady(arms.cond, known, env);
      NoErrorButNotReady(arms.value, known, env);
      ArmsClean(arms.rest, out, known, env);
      var ts := CompileArms(arms, known).term;
      assert ts[1..] == CompileArms(arms.rest, known).term;
      CondClean(ts[0].0, ts[0].1, Nested(ts[1..], out), env);
    }
  }

  /** Kept or not, a compiled expression of this kind ends in a value or in NotReady. */
  lemma {:induction false} NoErrorButNotReady(e: Expr, known: set<string>, env: Env)
    requires WellFormed(e) && Sturdy(e) && Compile(e, known).Ok? && known <= env.params.Keys
    ensures Clean(Compile(e, known).term, env)
    decreases e, 1
  {
    match e
    case Arith(op, args) =>
      SturdyAllClean(args, known, env);
      ChainClean(op, CompileAll(args, known).term.head, CompileAll(args, known).term.tail, env);
    case Div(args) =>
      SturdyAllClean(args, known, env);
      DivClean(args, known, env);
    case Compare(cmp, args) =>
      SturdyAllClean(args, known, env);
      CompareClean(cmp, args, known, env);
    case All(args) =>
      SturdyAllClean(args, known, env);
      JoinedClean(CompileAll(args, known).term, true, env);
    case Any(args) =>
      SturdyAllClean(args, known, env);
      JoinedClean(CompileAll(args, known).term, false, env);
    case Not(a) => NoErrorButNotReady(a, known, env);
    case If(c, t, f) =>
      NoErrorButNotReady(c, known, env);
      NoErrorButNotReady(t, known, env);
      NoErrorButNotReady(f, known, env);
      CondClean(Compile(c, known).term, Compile(t, known).term, Compile(f, known).term, env);
    case Cases(arms, d) =>
      NoErrorButNotReady(d, known, env);
      ArmsClean(arms, Compile(d, known).term, known, env);
    case _ =>
  }

  predicate AllDone(ts: Terms, env: Env) { ts.TNil? || (Run(ts.head, env).Done? && AllDone(ts.tail, env)) }

  lemma {:induction false} JoinedDone(ts: Terms, and_: bool, env: Env)
    requires ts.TCons? && AllDone(ts, env)
    ensures Run(Joined(ts, and_), env).Done?
  {
    if ts.tail.TCons? { JoinedDone(ts.tail, and_, env); }
  }

  lemma {:induction false} ConditionsDone(args: Exprs, known: set<string>, env: Env)
    requires AllWellFormed(args) && AllSturdy(args) && AllConditions(args)
    requires CompileAll(args, known).Ok? && known <= env.params.Keys
    ensures AllDone(CompileAll(args, known).term, env) && (args.Cons? ==> CompileAll(args, known).term.TCons?)
    decreases args, 0
  {
    if args.Cons? {
      CompiledConditionsNeverRaise(args.head, known, env);
      ConditionsDone(args.tail, known, env);
    }
  }

  /** A compiled condition never raises, whatever the comparisons in it are waiting for. */
  lemma {:induction false} CompiledConditionsNeverRaise(e: Expr, known: set<string>, env: Env)
    requires WellFormed(e) && Sturdy(e) && IsCondition(e) && Compile(e, known).Ok? && known <= env.params.Keys
    ensures Run(Compile(e, known).term, env).Done?
    decreases e, 1
  {
    NoErrorButNotReady(e, known, env);
    match e
    case Compare(_, args) => PairCompiles(args, known);
    case All(args) =>
      ConditionsDone(args, known, env);
      JoinedDone(CompileAll(args, known).term, true, env);
    case Any(args) =>
      ConditionsDone(args, known, env);
      JoinedDone(CompileAll(args, known).term, false, env);
    case Not(a) => CompiledConditionsNeverRaise(a, known, env);
    case _ =>
  }
}
