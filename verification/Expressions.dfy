/** Logical expressions as messages, and back. */
module Expressions {
  import opened Plans
  import opened ArrowTypes
  import opened Scalars

  datatype BinaryOp =
    | OpAnd | OpOr | OpEq | OpNotEq | OpLtEq | OpLt | OpGt | OpGtEq | OpPlus | OpMinus | OpMultiply | OpDivide | OpLike
    | OpModulus | OpNotLike

  datatype AggregateFunction = Min | Max | Sum | Avg | Count

  /** Expressions without scalar functions. */
  datatype Expr =
    | Column(name: string)
    | Alias(expr: Expr, alias: string)
    | Literal(scalar: ScalarValue)
    | BinaryExpr(left: Expr, op: BinaryOp, right: Expr)
    | Not(expr: Expr) | IsNotNull(expr: Expr) | IsNull(expr: Expr) | Negative(expr: Expr)
    | Between(expr: Expr, negated: bool, low: Expr, high: Expr)
    | Case(subject: Option<Expr>, whenThen: seq<WhenThen>, otherwise: Option<Expr>)
    | Cast(expr: Expr, dataType: DataType)
    | Sort(expr: Expr, asc: bool, nullsFirst: bool)
    | Aggregate(fun: AggregateFunction, args: seq<Expr>, distinct: bool)
    | InList(expr: Expr, list: seq<Expr>, negated: bool)
    | Wildcard
    | ScalarVariable | ScalarUdf | AggregateUdf

  datatype WhenThen = WhenThen(condition: Expr, result: Expr)

  // ---- Messages ----

  datatype ExprNode = ExprNode(exprType: Option<ExprType>)

  datatype ExprType =
    | PbColumnName(name: string)
    | PbAlias(expr: Option<ExprNode>, alias: string)
    | PbLiteral(scalar: PbScalar)
    | PbBinaryExpr(l: Option<ExprNode>, r: Option<ExprNode>, op: string)
    | PbNot(expr: Option<ExprNode>) | PbNegative(expr: Option<ExprNode>)
    | PbIsNotNull(expr: Option<ExprNode>) | PbIsNull(expr: Option<ExprNode>)
    | PbBetween(expr: Option<ExprNode>, negated: bool, low: Option<ExprNode>, high: Option<ExprNode>)
    | PbCase(subject: Option<ExprNode>, whenThen: seq<PbWhenThen>, otherwise: Option<ExprNode>)
    | PbCast(expr: Option<ExprNode>, arrowType: Option<ArrowType>)
    | PbSort(expr: Option<ExprNode>, asc: bool, nullsFirst: bool)
    | PbAggregate(aggrFunction: int, expr: Option<ExprNode>)
    | PbInList(expr: Option<ExprNode>, list: seq<ExprNode>, negated: bool)
    | PbWildcard(star: bool)

  datatype PbWhenThen = PbWhenThen(condition: Option<ExprNode>, result: Option<ExprNode>)

  // ---- Operators and aggregate functions ----

  /** `format!("{:?}", op)`. */
  function OpName(op: BinaryOp): string {
    match op
    case OpAnd => "And"
    case OpOr => "Or"
    case OpEq => "Eq"
    case OpNotEq => "NotEq"
    case OpLtEq => "LtEq"
    case OpLt => "Lt"
    case OpGt => "Gt"
    case OpGtEq => "GtEq"
    case OpPlus => "Plus"
    case OpMinus => "Minus"
    case OpMultiply => "Multiply"
    case OpDivide => "Divide"
    case OpLike => "Like"
    case OpModulus => "Modulus"
    case OpNotLike => "NotLike"
  }

  /** `from_proto_binary_op`. */
  function FromOpName(name: string): Option<BinaryOp> {
    if name == "And" then Some(OpAnd)
    else if name == "Or" then Some(OpOr)
    else if name == "Eq" then Some(OpEq)
    else if name == "NotEq" then Some(OpNotEq)
    else if name == "LtEq" then Some(OpLtEq)
    else if name == "Lt" then Some(OpLt)
    else if name == "Gt" then Some(OpGt)
    else if name == "GtEq" then Some(OpGtEq)
    else if name == "Plus" then Some(OpPlus)
    else if name == "Minus" then Some(OpMinus)
    else if name == "Multiply" then Some(OpMultiply)
    else if name == "Divide" then Some(OpDivide)
    else if name == "Like" then Some(OpLike)
    else None
  }

  function EncodeAggregate(f: AggregateFunction): int {
    match f
    case Min => 0
    case Max => 1
    case Sum => 2
    case Avg => 3
    case Count => 4
  }

  function DecodeAggregate(n: int): Option<AggregateFunction> {
    match n
    case 0 => Some(Min)
    case 1 => Some(Max)
    case 2 => Some(Sum)
    case 3 => Some(Avg)
    case 4 => Some(Count)
    case _ => None
  }

  /** The operators whose names the decoder knows. */
  lemma OperatorsComeBack(op: BinaryOp)
    ensures FromOpName(OpName(op)) == if op.OpModulus? || op.OpNotLike? then None else Some(op)
  {
    assert |OpName(op)| == match op
      case OpAnd => 3 case OpOr => 2 case OpEq => 2 case OpNotEq => 5 case OpLtEq => 4 case OpLt => 2 case OpGt => 2
      case OpGtEq => 4 case OpPlus => 4 case OpMinus => 5 case OpMultiply => 8 case OpDivide => 6 case OpLike => 4
      case OpModulus => 7 case OpNotLike => 7;
    assert OpName(op)[0] == match op
      case OpAnd => 'A' case OpOr => 'O' case OpEq => 'E' case OpNotEq => 'N' case OpLtEq => 'L' case OpLt => 'L'
      case OpGt => 'G' case OpGtEq => 'G' case OpPlus => 'P' case OpMinus => 'M' case OpMultiply => 'M'
      case OpDivide => 'D' case OpLike => 'L' case OpModulus => 'M' case OpNotLike => 'N';
    assert "LtEq"[1] == 't' && "Like"[1] == 'i';
  }

  // ---- Encoding ----

  function Node(t: ExprType): Outcome<ExprNode> {
    Ok(ExprNode(Some(t)))
  }

  function EncodeExpr(e: Expr): Outcome<ExprNode>
    decreases e, 1
  {
    match e
    case Column(name) => Node(PbColumnName(name))
    case Alias(x, alias) => (var p :- EncodeRequired(x); Node(PbAlias(p, alias)))
    case Literal(v) => (var p :- EncodeScalar(v); Node(PbLiteral(p)))
    case BinaryExpr(l, op, r) =>
      (var p :- EncodeRequired(l); var q :- EncodeRequired(r); Node(PbBinaryExpr(p, q, OpName(op))))
    case Not(x) => (var p :- EncodeRequired(x); Node(PbNot(p)))
    case IsNotNull(x) => (var p :- EncodeRequired(x); Node(PbIsNotNull(p)))
    case IsNull(x) => (var p :- EncodeRequired(x); Node(PbIsNull(p)))
    case Negative(x) => (var p :- EncodeRequired(x); Node(PbNegative(p)))
    case Between(x, negated, low, high) =>
      (var p :- EncodeRequired(x); var l :- EncodeRequired(low); var h :- EncodeRequired(high);
       Node(PbBetween(p, negated, l, h)))
    case Case(subject, ws, otherwise) =>
      (var qs :- EncodeCases(ws); var p :- EncodeOptional(subject); var q :- EncodeOptional(otherwise);
       Node(PbCase(p, qs, q)))
    case Cast(x, t) => (var p :- EncodeRequired(x); Node(PbCast(p, Some(EncodeType(t)))))
    case Sort(x, asc, nullsFirst) => (var p :- EncodeRequired(x); Node(PbSort(p, asc, nullsFirst)))
    case Aggregate(f, args, _) =>
      if args == [] then Panic else (var p :- EncodeRequired(args[0]); Node(PbAggregate(EncodeAggregate(f), p)))
    case InList(x, es, negated) => (var p :- EncodeRequired(x); var ps :- EncodeAll(es); Node(PbInList(p, ps, negated)))
    case Wildcard => Node(PbWildcard(true))
    case ScalarVariable => Panic
    case ScalarUdf => Panic
    case AggregateUdf => Panic
  }

  /** `Some(Box::new(expr.try_into()?))`. */
  function EncodeRequired(e: Expr): Outcome<Option<ExprNode>>
    decreases e, 2
  {
    var p :- EncodeExpr(e); Ok(Some(p))
  }

  function EncodeOptional(e: Option<Expr>): Outcome<Option<ExprNode>>
    decreases e, 3
  {
    if e.None? then Ok(None) else EncodeRequired(e.value)
  }

  function EncodeAll(es: seq<Expr>): Outcome<seq<ExprNode>>
    decreases es, 0
  {
    if es == [] then Ok([])
    else
      var ps :- EncodeAll(es[..|es| - 1]);
      var p :- EncodeExpr(es[|es| - 1]);
      Ok(ps + [p])
  }

  function EncodeCases(ws: seq<WhenThen>): Outcome<seq<PbWhenThen>>
    decreases ws, 0
  {
    if ws == [] then Ok([])
    else
      var qs :- EncodeCases(ws[..|ws| - 1]);
      var q :- EncodeCase(ws[|ws| - 1]);
      Ok(qs + [q])
  }

  function EncodeCase(w: WhenThen): Outcome<PbWhenThen>
    decreases w, 0
  {
    var condition :- EncodeRequired(w.condition);
    var result :- EncodeRequired(w.result);
    Ok(PbWhenThen(condition, result))
  }

  // ---- Decoding ----

  function DecodeExpr(p: ExprNode): Option<Expr>
    decreases p, 0
  {
    if p.exprType.None? then None
    else
      match p.exprType.value
      case PbBinaryExpr(l, r, name) =>
        (var left :- DecodeRequired(l); var op :- FromOpName(name); var right :- DecodeRequired(r);
         Some(BinaryExpr(left, op, right)))
      case PbColumnName(name) => Some(Column(name))
      case PbLiteral(s) => (var v :- DecodeScalar(s); Some(Literal(v)))
      case PbAggregate(n, x) =>
        (var f :- DecodeAggregate(n); var e :- DecodeRequired(x); Some(Aggregate(f, [e], false)))
      case PbAlias(x, alias) => (var e :- DecodeRequired(x); Some(Alias(e, alias)))
      case PbIsNull(x) => (var e :- DecodeRequired(x); Some(IsNull(e)))
      case PbIsNotNull(x) => (var e :- DecodeRequired(x); Some(IsNotNull(e)))
      case PbNot(x) => (var e :- DecodeRequired(x); Some(Not(e)))
      case PbBetween(x, negated, l, h) =>
        (var e :- DecodeRequired(x); var low :- DecodeRequired(l); var high :- DecodeRequired(h);
         Some(Between(e, negated, low, high)))
      case PbCase(x, qs, y) =>
        (var ws :- DecodeCases(qs); var subject :- DecodeOptional(x); var otherwise :- DecodeOptional(y);
         Some(Case(subject, ws, otherwise)))
      case PbCast(x, a) => (var e :- DecodeRequired(x); var t :- DecodePart(a); Some(Cast(e, t)))
      case PbSort(x, asc, nullsFirst) => (var e :- DecodeRequired(x); Some(Sort(e, asc, nullsFirst)))
      case PbNegative(x) => (var e :- DecodeRequired(x); Some(Negative(e)))
      case PbInList(x, ps, negated) =>
        (var e :- DecodeRequired(x); var es :- DecodeAll(ps); Some(InList(e, es, negated)))
      case PbWildcard(_) => Some(Wildcard)
  }

  /** `parse_required_expr`. */
  function DecodeRequired(p: Option<ExprNode>): Option<Expr>
    decreases p, 1
  {
    if p.None? then None else DecodeExpr(p.value)
  }

  /** `parse_optional_expr`. */
  function DecodeOptional(p: Option<ExprNode>): Option<Option<Expr>>
    decreases p, 1
  {
    if p.None? then Some(None) else var e :- DecodeExpr(p.value); Some(Some(e))
  }

  function DecodeAll(ps: seq<ExprNode>): Option<seq<Expr>>
    decreases ps, 0
  {
    if ps == [] then Some([])
    else
      var es :- DecodeAll(ps[..|ps| - 1]);
      var e :- DecodeExpr(ps[|ps| - 1]);
      Some(es + [e])
  }

  function DecodeCases(qs: seq<PbWhenThen>): Option<seq<WhenThen>>
    decreases qs, 0
  {
    if qs == [] then Some([])
    else
      var ws :- DecodeCases(qs[..|qs| - 1]);
      var w :- DecodeCase(qs[|qs| - 1]);
      Some(ws + [w])
  }

  function DecodeCase(q: PbWhenThen): Option<WhenThen>
    decreases q, 0
  {
    var condition :- DecodeRequired(q.condition);
    var result :- DecodeRequired(q.result);
    Some(WhenThen(condition, result))
  }

  // ---- What can be encoded ----

  /** No variable, no user-defined function, no aggregate without arguments, and only scalars that can be encoded. */
  predicate Encodable(e: Expr)
    decreases e, 1
  {
    match e
    case Column(_) => true
    case Alias(x, _) => Encodable(x)
    case Literal(v) => ValidScalar(v)
    case BinaryExpr(l, _, r) => Encodable(l) && Encodable(r)
    case Not(x) => Encodable(x)
    case IsNotNull(x) => Encodable(x)
    case IsNull(x) => Encodable(x)
    case Negative(x) => Encodable(x)
    case Between(x, _, low, high) => Encodable(x) && Encodable(low) && Encodable(high)
    case Case(subject, ws, otherwise) =>
      EncodableOptional(subject) && EncodableCases(ws) && EncodableOptional(otherwise)
    case Cast(x, _) => Encodable(x)
    case Sort(x, _, _) => Encodable(x)
    case Aggregate(_, args, _) => args != [] && Encodable(args[0])
    case InList(x, es, _) => Encodable(x) && EncodableAll(es)
    case Wildcard => true
    case ScalarVariable => false
    case ScalarUdf => false
    case AggregateUdf => false
  }

  predicate EncodableOptional(e: Option<Expr>)
    decreases e, 2
  {
    e.Some? ==> Encodable(e.value)
  }

  predicate EncodableAll(es: seq<Expr>)
    decreases es, 0
  {
    es != [] ==> EncodableAll(es[..|es| - 1]) && Encodable(es[|es| - 1])
  }

  predicate EncodableCases(ws: seq<WhenThen>)
    decreases ws, 0
  {
    ws != [] ==> EncodableCases(ws[..|ws| - 1]) && EncodableCase(ws[|ws| - 1])
  }

  predicate EncodableCase(w: WhenThen)
    decreases w, 0
  {
    Encodable(w.condition) && Encodable(w.result)
  }

  /** The first part, in the order of encoding, that cannot be encoded is one the encoder does not handle: a variable, a
      user-defined function, an aggregate without arguments, or a list of items under a type that is no list. */
  predicate Panics(e: Expr)
    decreases e, 1
  {
    match e
    case Alias(x, _) => Panics(x)
    case Literal(v) => Unhandled(v)
    case BinaryExpr(l, _, r) => Panics(l) || (Encodable(l) && Panics(r))
    case Not(x) => Panics(x)
    case IsNotNull(x) => Panics(x)
    case IsNull(x) => Panics(x)
    case Negative(x) => Panics(x)
    case Between(x, _, low, high) =>
      Panics(x) || (Encodable(x) && (Panics(low) || (Encodable(low) && Panics(high))))
    case Case(subject, ws, otherwise) =>
      || PanicsInCases(ws)
      || (EncodableCases(ws)
          && (PanicsInOptional(subject) || (EncodableOptional(subject) && PanicsInOptional(otherwise))))
    case Cast(x, _) => Panics(x)
    case Sort(x, _, _) => Panics(x)
    case Aggregate(_, args, _) => args == [] || Panics(args[0])
    case InList(x, es, _) => Panics(x) || (Encodable(x) && PanicsInAll(es))
    case ScalarVariable => true
    case ScalarUdf => true
    case AggregateUdf => true
    case _ => false
  }

  predicate PanicsInOptional(e: Option<Expr>)
    decreases e, 2
  {
    e.Some? && Panics(e.value)
  }

  predicate PanicsInAll(es: seq<Expr>)
    decreases es, 0
  {
    es != [] && (PanicsInAll(es[..|es| - 1]) || (EncodableAll(es[..|es| - 1]) && Panics(es[|es| - 1])))
  }

  predicate PanicsInCases(ws: seq<WhenThen>)
    decreases ws, 0
  {
    ws != [] && (PanicsInCases(ws[..|ws| - 1]) || (EncodableCases(ws[..|ws| - 1]) && PanicsInCase(ws[|ws| - 1])))
  }

  predicate PanicsInCase(w: WhenThen)
    decreases w, 0
  {
    Panics(w.condition) || (Encodable(w.condition) && Panics(w.result))
  }

  /** Encoding succeeds exactly on encodable expressions, and panics exactly on those. */
  lemma {:induction false} EncodesExactly(e: Expr)
    ensures EncodeExpr(e).Ok? <==> Encodable(e)
    ensures EncodeExpr(e).Panic? <==> Panics(e)
    decreases e, 1
  {
    hide PanicsInOptional, PanicsInAll, PanicsInCases, Unhandled;
    hide EncodeRequired, EncodeOptional, EncodeAll, EncodeCases, EncodeScalar, EncodeType, OpName;
    hide EncodableOptional, EncodableAll, EncodableCases, ValidScalar;
    match e
    case Literal(v) => ScalarEncodesExactly(v);
    case Alias(x, _) => PartEncodes(x);
    case BinaryExpr(l, _, r) =>
      PartEncodes(l);
      PartEncodes(r);
    case Not(x) => PartEncodes(x);
    case IsNotNull(x) => PartEncodes(x);
    case IsNull(x) => PartEncodes(x);
    case Negative(x) => PartEncodes(x);
    case Between(x, _, low, high) =>
      PartEncodes(x);
      PartEncodes(low);
      PartEncodes(high);
    case Case(subject, ws, otherwise) =>
      OptionalEncodes(subject);
      CasesEncode(ws);
      OptionalEncodes(otherwise);
    case Cast(x, _) => PartEncodes(x);
    case Sort(x, _, _) => PartEncodes(x);
    case Aggregate(_, args, _) =>
      if args != [] {
        PartEncodes(args[0]);
      }
    case InList(x, es, _) =>
      PartEncodes(x);
      AllEncode(es);
    case _ =>
  }

  lemma {:induction false} PartEncodes(e: Expr)
    ensures EncodeRequired(e).Ok? <==> Encodable(e)
    ensures EncodeRequired(e).Panic? <==> Panics(e)
    decreases e, 2
  {
    hide EncodeExpr, Encodable, Panics;
    EncodesExactly(e);
  }

  lemma {:induction false} OptionalEncodes(e: Option<Expr>)
    ensures EncodeOptional(e).Ok? <==> EncodableOptional(e)
    ensures EncodeOptional(e).Panic? <==> PanicsInOptional(e)
    decreases e, 3
  {
    hide EncodeRequired, Encodable, Panics;
    if e.Some? {
      PartEncodes(e.value);
    }
  }

  lemma {:induction false} AllEncode(es: seq<Expr>)
    ensures EncodeAll(es).Ok? <==> EncodableAll(es)
    ensures EncodeAll(es).Panic? <==> PanicsInAll(es)
    decreases es, 0
  {
    hide EncodeExpr, Encodable, Panics;
    if es != [] {
      AllEncode(es[..|es| - 1]);
      EncodesExactly(es[|es| - 1]);
    }
  }

  lemma {:induction false} CasesEncode(ws: seq<WhenThen>)
    ensures EncodeCases(ws).Ok? <==> EncodableCases(ws)
    ensures EncodeCases(ws).Panic? <==> PanicsInCases(ws)
    decreases ws, 0
  {
    hide EncodeCase, EncodableCase, PanicsInCase;
    if ws != [] {
      CasesEncode(ws[..|ws| - 1]);
      CaseEncodes(ws[|ws| - 1]);
    }
  }

  lemma {:induction false} CaseEncodes(w: WhenThen)
    ensures EncodeCase(w).Ok? <==> EncodableCase(w)
    ensures EncodeCase(w).Panic? <==> PanicsInCase(w)
    decreases w, 0
  {
    hide EncodeRequired, Encodable, Panics;
    PartEncodes(w.condition);
    PartEncodes(w.result);
  }

  // ---- What can be decoded ----

  /** The names of operators the decoder knows. */
  predicate KnownName(name: string) {
    name in {"And", "Or", "Eq", "NotEq", "LtEq", "Lt", "Gt", "GtEq", "Plus", "Minus", "Multiply", "Divide", "Like"}
  }

  lemma NamesDecodeExactly(name: string)
    ensures FromOpName(name).Some? <==> KnownName(name)
  {
  }

  /** All required parts are there, operators and functions are known, and so on in all parts. */
  predicate WellFormedExpr(p: ExprNode)
    decreases p, 0
  {
    && p.exprType.Some?
    && match p.exprType.value
       case PbBinaryExpr(l, r, name) => WellFormedPart(l) && WellFormedPart(r) && KnownName(name)
       case PbColumnName(_) => true
       case PbLiteral(s) => WellFormedScalar(s)
       case PbAggregate(n, x) => 0 <= n < 5 && WellFormedPart(x)
       case PbAlias(x, _) => WellFormedPart(x)
       case PbIsNull(x) => WellFormedPart(x)
       case PbIsNotNull(x) => WellFormedPart(x)
       case PbNot(x) => WellFormedPart(x)
       case PbBetween(x, _, l, h) => WellFormedPart(x) && WellFormedPart(l) && WellFormedPart(h)
       case PbCase(x, qs, y) =>
         && (forall q <- qs :: WellFormedCase(q))
         && (x.Some? ==> WellFormedPart(x)) && (y.Some? ==> WellFormedPart(y))
       case PbCast(x, a) => WellFormedPart(x) && a.Some? && WellFormed(a.value)
       case PbSort(x, _, _) => WellFormedPart(x)
       case PbNegative(x) => WellFormedPart(x)
       case PbInList(x, ps, _) => WellFormedPart(x) && forall q <- ps :: WellFormedExpr(q)
       case PbWildcard(_) => true
  }

  predicate WellFormedPart(p: Option<ExprNode>)
    decreases p, 1
  {
    p.Some? && WellFormedExpr(p.value)
  }

  predicate WellFormedCase(q: PbWhenThen)
    decreases q, 0
  {
    WellFormedPart(q.condition) && WellFormedPart(q.result)
  }

  /** Decoding succeeds exactly on these messages. */
  lemma {:induction false} DecodesExactly(p: ExprNode)
    ensures DecodeExpr(p).Some? <==> WellFormedExpr(p)
    decreases p, 0
  {
    hide DecodeRequired, DecodeOptional, DecodeAll, DecodeCases, DecodeScalar, DecodePart, FromOpName, DecodeAggregate;
    hide WellFormedPart, WellFormedCase, WellFormedScalar, WellFormed, KnownName;
    if p.exprType.Some? {
      match p.exprType.value
      case PbBinaryExpr(l, r, name) =>
        PartDecodes(l);
        PartDecodes(r);
        NamesDecodeExactly(name);
      case PbLiteral(s) => ScalarDecodesExactly(s);
      case PbAggregate(n, x) =>
        PartDecodes(x);
        AggregateDecodes(n);
      case PbAlias(x, _) => PartDecodes(x);
      case PbIsNull(x) => PartDecodes(x);
      case PbIsNotNull(x) => PartDecodes(x);
      case PbNot(x) => PartDecodes(x);
      case PbBetween(x, _, l, h) =>
        PartDecodes(x);
        PartDecodes(l);
        PartDecodes(h);
      case PbCase(x, qs, y) =>
        OptionalDecodes(x);
        CasesDecode(qs);
        OptionalDecodes(y);
      case PbCast(x, a) =>
        PartDecodes(x);
        TypePartDecodes(a);
      case PbSort(x, _, _) => PartDecodes(x);
      case PbNegative(x) => PartDecodes(x);
      case PbInList(x, ps, _) =>
        PartDecodes(x);
        AllDecode(ps);
      case _ =>
    }
  }

  lemma AggregateDecodes(n: int)
    ensures DecodeAggregate(n).Some? <==> 0 <= n < 5
  {
  }

  lemma TypePartDecodes(a: Option<ArrowType>)
    ensures DecodePart(a).Some? <==> a.Some? && WellFormed(a.value)
  {
    hide DecodeType, WellFormed;
    if a.Some? {
      TypeDecodesExactly(a.value);
    }
  }

  lemma {:induction false} PartDecodes(p: Option<ExprNode>)
    ensures DecodeRequired(p).Some? <==> WellFormedPart(p)
    decreases p, 1
  {
    hide DecodeExpr, WellFormedExpr;
    if p.Some? {
      DecodesExactly(p.value);
    }
  }

  lemma {:induction false} OptionalDecodes(p: Option<ExprNode>)
    ensures DecodeOptional(p).Some? <==> (p.Some? ==> WellFormedPart(p))
    decreases p, 1
  {
    hide DecodeExpr, WellFormedExpr;
    if p.Some? {
      DecodesExactly(p.value);
    }
  }

  lemma {:induction false} AllDecode(ps: seq<ExprNode>)
    ensures DecodeAll(ps).Some? <==> forall p <- ps :: WellFormedExpr(p)
    decreases ps, 0
  {
    hide DecodeExpr, WellFormedExpr;
    if ps != [] {
      var init, last := ps[..|ps| - 1], ps[|ps| - 1];
      assert ps == init + [last];
      AllDecode(init);
      DecodesExactly(last);
    }
  }

  lemma {:induction false} CasesDecode(qs: seq<PbWhenThen>)
    ensures DecodeCases(qs).Some? <==> forall q <- qs :: WellFormedCase(q)
    decreases qs, 0
  {
    hide DecodeCase, WellFormedCase;
    if qs != [] {
      var init, last := qs[..|qs| - 1], qs[|qs| - 1];
      assert qs == init + [last];
      CasesDecode(init);
      CaseDecodes(last);
    }
  }

  lemma {:induction false} CaseDecodes(q: PbWhenThen)
    ensures DecodeCase(q).Some? <==> WellFormedCase(q)
    decreases q, 0
  {
    hide DecodeRequired, WellFormedPart;
    PartDecodes(q.condition);
    PartDecodes(q.result);
  }

  // ---- Round trip ----

  /** What comes back: aggregates with their first argument only and not distinct, scalars and types in normal form. */
  function NormalExpr(e: Expr): Expr
    decreases e, 1
  {
    match e
    case Alias(x, alias) => Alias(NormalExpr(x), alias)
    case Literal(v) => Literal(NormalScalar(v))
    case BinaryExpr(l, op, r) => BinaryExpr(NormalExpr(l), op, NormalExpr(r))
    case Not(x) => Not(NormalExpr(x))
    case IsNotNull(x) => IsNotNull(NormalExpr(x))
    case IsNull(x) => IsNull(NormalExpr(x))
    case Negative(x) => Negative(NormalExpr(x))
    case Between(x, negated, low, high) => Between(NormalExpr(x), negated, NormalExpr(low), NormalExpr(high))
    case Case(subject, ws, otherwise) => Case(NormalOptional(subject), NormalCases(ws), NormalOptional(otherwise))
    case Cast(x, t) => Cast(NormalExpr(x), Normal(t))
    case Sort(x, asc, nullsFirst) => Sort(NormalExpr(x), asc, nullsFirst)
    case Aggregate(f, args, _) => if args == [] then e else Aggregate(f, [NormalExpr(args[0])], false)
    case InList(x, es, negated) => InList(NormalExpr(x), NormalAll(es), negated)
    case _ => e
  }

  function NormalOptional(e: Option<Expr>): Option<Expr>
    decreases e, 2
  {
    if e.None? then None else Some(NormalExpr(e.value))
  }

  function NormalAll(es: seq<Expr>): seq<Expr>
    decreases es, 0
  {
    if es == [] then [] else NormalAll(es[..|es| - 1]) + [NormalExpr(es[|es| - 1])]
  }

  function NormalCases(ws: seq<WhenThen>): seq<WhenThen>
    decreases ws, 0
  {
    if ws == [] then [] else NormalCases(ws[..|ws| - 1]) + [NormalCase(ws[|ws| - 1])]
  }

  function NormalCase(w: WhenThen): WhenThen
    decreases w, 0
  {
    WhenThen(NormalExpr(w.condition), NormalExpr(w.result))
  }

  /** No operator the decoder does not know, in what gets encoded. */
  predicate KnownOps(e: Expr)
    decreases e, 1
  {
    match e
    case Alias(x, _) => KnownOps(x)
    case BinaryExpr(l, op, r) => !op.OpModulus? && !op.OpNotLike? && KnownOps(l) && KnownOps(r)
    case Not(x) => KnownOps(x)
    case IsNotNull(x) => KnownOps(x)
    case IsNull(x) => KnownOps(x)
    case Negative(x) => KnownOps(x)
    case Between(x, _, low, high) => KnownOps(x) && KnownOps(low) && KnownOps(high)
    case Case(subject, ws, otherwise) => KnownOptional(subject) && KnownCases(ws) && KnownOptional(otherwise)
    case Cast(x, _) => KnownOps(x)
    case Sort(x, _, _) => KnownOps(x)
    case Aggregate(_, args, _) => args != [] ==> KnownOps(args[0])
    case InList(x, es, _) => KnownOps(x) && KnownAll(es)
    case _ => true
  }

  predicate KnownOptional(e: Option<Expr>)
    decreases e, 2
  {
    e.Some? ==> KnownOps(e.value)
  }

  predicate KnownAll(es: seq<Expr>)
    decreases es, 0
  {
    es != [] ==> KnownAll(es[..|es| - 1]) && KnownOps(es[|es| - 1])
  }

  predicate KnownCases(ws: seq<WhenThen>)
    decreases ws, 0
  {
    ws != [] ==> KnownCases(ws[..|ws| - 1]) && KnownCase(ws[|ws| - 1])
  }

  predicate KnownCase(w: WhenThen)
    decreases w, 0
  {
    KnownOps(w.condition) && KnownOps(w.result)
  }

  /** What decoding an encoded expression should give. */
  function Expected(e: Expr): Option<Expr> {
    if KnownOps(e) then Some(NormalExpr(e)) else None
  }

  /** The expression can be encoded, and decoding it gives what is expected. */
  ghost predicate Back(e: Expr) {
    EncodeExpr(e).Ok? && DecodeExpr(EncodeExpr(e).value) == Expected(e)
  }

  ghost predicate PartBack(e: Expr) {
    EncodeRequired(e).Ok? && DecodeRequired(EncodeRequired(e).value) == Expected(e)
  }

  ghost predicate OptionalBack(e: Option<Expr>) {
    && EncodeOptional(e).Ok?
    && DecodeOptional(EncodeOptional(e).value) == if KnownOptional(e) then Some(NormalOptional(e)) else None
  }

  ghost predicate AllBack(es: seq<Expr>) {
    EncodeAll(es).Ok? && DecodeAll(EncodeAll(es).value) == if KnownAll(es) then Some(NormalAll(es)) else None
  }

  ghost predicate CasesBack(ws: seq<WhenThen>) {
    EncodeCases(ws).Ok? && DecodeCases(EncodeCases(ws).value) == if KnownCases(ws) then Some(NormalCases(ws)) else None
  }

  lemma AliasBack(x: Expr, alias: string)
    requires PartBack(x)
    ensures Back(Alias(x, alias))
  {
    hide EncodeRequired, DecodeRequired;
  }

  lemma NotBack(x: Expr)
    requires PartBack(x)
    ensures Back(Not(x))
  {
    hide EncodeRequired, DecodeRequired;
  }

  lemma IsNotNullBack(x: Expr)
    requires PartBack(x)
    ensures Back(IsNotNull(x))
  {
    hide EncodeRequired, DecodeRequired;
  }

  lemma IsNullBack(x: Expr)
    requires PartBack(x)
    ensures Back(IsNull(x))
  {
    hide EncodeRequired, DecodeRequired;
  }

  lemma NegativeBack(x: Expr)
    requires PartBack(x)
    ensures Back(Negative(x))
  {
    hide EncodeRequired, DecodeRequired;
  }

  lemma SortBack(x: Expr, asc: bool, nullsFirst: bool)
    requires PartBack(x)
    ensures Back(Sort(x, asc, nullsFirst))
  {
    hide EncodeRequired, DecodeRequired;
  }

  lemma CastBack(x: Expr, t: DataType)
    requires PartBack(x)
    ensures Back(Cast(x, t))
  {
    hide EncodeRequired, DecodeRequired, EncodeType, DecodeType, Normal;
    TypeRoundTrip(t);
  }

  lemma LiteralBack(v: ScalarValue)
    requires ValidScalar(v)
    ensures Back(Literal(v))
  {
    hide EncodeScalar, DecodeScalar, NormalScalar, ValidScalar;
    ScalarRoundTrip(v);
  }

  lemma BinaryBack(l: Expr, op: BinaryOp, r: Expr)
    requires PartBack(l) && PartBack(r)
    ensures Back(BinaryExpr(l, op, r))
  {
    hide EncodeRequired, DecodeRequired, OpName, FromOpName;
    OperatorsComeBack(op);
  }

  lemma BetweenEncodes(x: Expr, negated: bool, low: Expr, high: Expr)
    requires EncodeRequired(x).Ok? && EncodeRequired(low).Ok? && EncodeRequired(high).Ok?
    ensures EncodeExpr(Between(x, negated, low, high))
         == Node(PbBetween(EncodeRequired(x).value, negated, EncodeRequired(low).value, EncodeRequired(high).value))
  {
    hide EncodeRequired;
  }

  lemma BetweenExpected(x: Expr, negated: bool, low: Expr, high: Expr)
    ensures
      var e := Between(x, negated, low, high);
      && (KnownOps(e) <==> KnownOps(x) && KnownOps(low) && KnownOps(high))
      && NormalExpr(e) == Between(NormalExpr(x), negated, NormalExpr(low), NormalExpr(high))
  {
  }

  lemma BetweenBack(x: Expr, negated: bool, low: Expr, high: Expr)
    requires PartBack(x) && PartBack(low) && PartBack(high)
    ensures Back(Between(x, negated, low, high))
  {
    hide EncodeExpr, EncodeRequired, DecodeRequired, KnownOps, NormalExpr;
    BetweenEncodes(x, negated, low, high);
    BetweenExpected(x, negated, low, high);
  }

  lemma AggregateBack(f: AggregateFunction, args: seq<Expr>, distinct: bool)
    requires args != [] && PartBack(args[0])
    ensures Back(Aggregate(f, args, distinct))
  {
    hide EncodeRequired, DecodeRequired;
  }

  lemma InListBack(x: Expr, es: seq<Expr>, negated: bool)
    requires PartBack(x) && AllBack(es)
    ensures Back(InList(x, es, negated))
  {
    hide EncodeRequired, DecodeRequired, EncodeAll, DecodeAll, NormalAll, KnownAll;
  }

  lemma CaseBack(subject: Option<Expr>, ws: seq<WhenThen>, otherwise: Option<Expr>)
    requires OptionalBack(subject) && CasesBack(ws) && OptionalBack(otherwise)
    ensures Back(Case(subject, ws, otherwise))
  {
    hide EncodeOptional, DecodeOptional, NormalOptional, KnownOptional, EncodeCases, DecodeCases, NormalCases;
    hide KnownCases;
  }

  lemma {:induction false} EncodedComesBack(e: Expr)
    requires Encodable(e)
    ensures Back(e)
    decreases e, 1
  {
    hide Back, PartBack, OptionalBack, AllBack, CasesBack, EncodableOptional, EncodableAll, EncodableCases;
    hide EncodeScalar;
    match e
    case Column(name) => ColumnBack(name);
    case Alias(x, alias) =>
      PartComesBack(x);
      AliasBack(x, alias);
    case Literal(v) => LiteralBack(v);
    case BinaryExpr(l, op, r) =>
      PartComesBack(l);
      PartComesBack(r);
      BinaryBack(l, op, r);
    case Not(x) =>
      PartComesBack(x);
      NotBack(x);
    case IsNotNull(x) =>
      PartComesBack(x);
      IsNotNullBack(x);
    case IsNull(x) =>
      PartComesBack(x);
      IsNullBack(x);
    case Negative(x) =>
      PartComesBack(x);
      NegativeBack(x);
    case Between(x, negated, low, high) =>
      PartComesBack(x);
      PartComesBack(low);
      PartComesBack(high);
      BetweenBack(x, negated, low, high);
    case Case(subject, ws, otherwise) =>
      OptionalComesBack(subject);
      CasesComeBack(ws);
      OptionalComesBack(otherwise);
      CaseBack(subject, ws, otherwise);
    case Cast(x, t) =>
      PartComesBack(x);
      CastBack(x, t);
    case Sort(x, asc, nullsFirst) =>
      PartComesBack(x);
      SortBack(x, asc, nullsFirst);
    case Aggregate(f, args, distinct) =>
      PartComesBack(args[0]);
      AggregateBack(f, args, distinct);
    case InList(x, es, negated) =>
      PartComesBack(x);
      AllComeBack(es);
      InListBack(x, es, negated);
    case Wildcard => WildcardBack();
  }

  lemma ColumnBack(name: string)
    ensures Back(Column(name))
  {
  }

  lemma WildcardBack()
    ensures Back(Wildcard)
  {
  }

  lemma {:induction false} PartComesBack(e: Expr)
    requires Encodable(e)
    ensures PartBack(e)
    decreases e, 2
  {
    hide EncodeExpr, DecodeExpr, Expected, Encodable;
    EncodedComesBack(e);
  }

  lemma {:induction false} OptionalComesBack(e: Option<Expr>)
    requires EncodableOptional(e)
    ensures OptionalBack(e)
    decreases e, 3
  {
    hide EncodeExpr, DecodeExpr, NormalExpr, KnownOps, Encodable;
    if e.Some? {
      EncodedComesBack(e.value);
      assert EncodeRequired(e.value) == Ok(Some(EncodeExpr(e.value).value));
      assert KnownOptional(e) <==> KnownOps(e.value);
      assert NormalOptional(e) == Some(NormalExpr(e.value));
    }
  }

  lemma {:induction false} AllComeBack(es: seq<Expr>)
    requires EncodableAll(es)
    ensures AllBack(es)
    decreases es, 0
  {
    hide EncodeExpr, DecodeExpr, NormalExpr, KnownOps, Encodable;
    if es != [] {
      AllComeBack(es[..|es| - 1]);
      EncodedComesBack(es[|es| - 1]);
      var ps := EncodeAll(es).value;
      assert ps[..|ps| - 1] == EncodeAll(es[..|es| - 1]).value;
    }
  }

  ghost predicate OneCaseBack(w: WhenThen) {
    EncodeCase(w).Ok? && DecodeCase(EncodeCase(w).value) == if KnownCase(w) then Some(NormalCase(w)) else None
  }

  lemma {:induction false} CasesComeBack(ws: seq<WhenThen>)
    requires EncodableCases(ws)
    ensures CasesBack(ws)
    decreases ws, 0
  {
    hide EncodeCase, DecodeCase, NormalCase, KnownCase, EncodableCase;
    if ws != [] {
      CasesComeBack(ws[..|ws| - 1]);
      OneCaseComesBack(ws[|ws| - 1]);
      var qs := EncodeCases(ws).value;
      assert qs[..|qs| - 1] == EncodeCases(ws[..|ws| - 1]).value && qs[|qs| - 1] == EncodeCase(ws[|ws| - 1]).value;
    }
  }

  lemma {:induction false} OneCaseComesBack(w: WhenThen)
    requires EncodableCase(w)
    ensures OneCaseBack(w)
    decreases w, 0
  {
    hide EncodeRequired, DecodeRequired, NormalExpr, KnownOps, Encodable;
    PartComesBack(w.condition);
    PartComesBack(w.result);
  }

  /** Whenever an expression can be encoded, decoding succeeds exactly if the decoder knows all its operators, and then
      gives its normal form. */
  lemma ExprRoundTrip(e: Expr)
    requires EncodeExpr(e).Ok?
    ensures DecodeExpr(EncodeExpr(e).value) == if KnownOps(e) then Some(NormalExpr(e)) else None
  {
    hide EncodeExpr, DecodeExpr, NormalExpr, KnownOps, Encodable;
    EncodesExactly(e);
    EncodedComesBack(e);
  }

  // ---- What comes back as it was ----

  /** Aggregates have one argument and are not distinct, list fields are nullable and timezones not empty. */
  predicate Plain(e: Expr)
    decreases e, 1
  {
    match e
    case Alias(x, _) => Plain(x)
    case Literal(v) => NullableLists(v)
    case BinaryExpr(l, _, r) => Plain(l) && Plain(r)
    case Not(x) => Plain(x)
    case IsNotNull(x) => Plain(x)
    case IsNull(x) => Plain(x)
    case Negative(x) => Plain(x)
    case Between(x, _, low, high) => Plain(x) && Plain(low) && Plain(high)
    case Case(subject, ws, otherwise) => PlainOptional(subject) && PlainCases(ws) && PlainOptional(otherwise)
    case Cast(x, t) => Plain(x) && ProperTimezones(t)
    case Sort(x, _, _) => Plain(x)
    case Aggregate(_, args, distinct) => args != [] ==> |args| == 1 && !distinct && Plain(args[0])
    case InList(x, es, _) => Plain(x) && PlainAll(es)
    case _ => true
  }

  predicate PlainOptional(e: Option<Expr>)
    decreases e, 2
  {
    e.Some? ==> Plain(e.value)
  }

  predicate PlainAll(es: seq<Expr>)
    decreases es, 0
  {
    es != [] ==> PlainAll(es[..|es| - 1]) && Plain(es[|es| - 1])
  }

  predicate PlainCases(ws: seq<WhenThen>)
    decreases ws, 0
  {
    ws != [] ==> PlainCases(ws[..|ws| - 1]) && PlainCase(ws[|ws| - 1])
  }

  predicate PlainCase(w: WhenThen)
    decreases w, 0
  {
    Plain(w.condition) && Plain(w.result)
  }

  lemma {:induction false} NormalIsPlain(e: Expr)
    ensures NormalExpr(e) == e <==> Plain(e)
    decreases e, 1
  {
    hide NormalScalar, NullableLists, Normal, ProperTimezones;
    if e.BinaryExpr? || e.Between? || e.Case? || e.InList? {
      NormalManyIsPlain(e);
    } else {
      hide NormalOptional, NormalAll, NormalCases, PlainOptional, PlainAll, PlainCases;
      match e
      case Alias(x, _) => NormalIsPlain(x);
      case Literal(v) => NormalScalarIsSame(v);
      case Not(x) => NormalIsPlain(x);
      case IsNotNull(x) => NormalIsPlain(x);
      case IsNull(x) => NormalIsPlain(x);
      case Negative(x) => NormalIsPlain(x);
      case Cast(x, t) =>
        NormalIsPlain(x);
        NormalIsSame(t);
      case Sort(x, _, _) => NormalIsPlain(x);
      case Aggregate(_, args, distinct) =>
        if args != [] {
          NormalIsPlain(args[0]);
        }
      case _ =>
    }
  }

  /** The same for expressions of several parts. */
  lemma {:induction false} NormalManyIsPlain(e: Expr)
    requires e.BinaryExpr? || e.Between? || e.Case? || e.InList?
    ensures NormalExpr(e) == e <==> Plain(e)
    decreases e, 0
  {
    hide NormalOptional, NormalAll, NormalCases, PlainOptional, PlainAll, PlainCases;
    if e.BinaryExpr? {
      NormalIsPlain(e.left);
      NormalIsPlain(e.right);
    } else if e.Between? {
      NormalIsPlain(e.expr);
      NormalIsPlain(e.low);
      NormalIsPlain(e.high);
    } else if e.Case? {
      NormalOptionalIsPlain(e.subject);
      NormalCasesArePlain(e.whenThen);
      NormalOptionalIsPlain(e.otherwise);
    } else {
      NormalIsPlain(e.expr);
      NormalAllArePlain(e.list);
    }
  }

  lemma {:induction false} NormalOptionalIsPlain(e: Option<Expr>)
    ensures NormalOptional(e) == e <==> PlainOptional(e)
    decreases e, 2
  {
    hide NormalExpr, Plain;
    if e.Some? {
      NormalIsPlain(e.value);
    }
  }

  lemma {:induction false} NormalAllArePlain(es: seq<Expr>)
    ensures |NormalAll(es)| == |es| && (NormalAll(es) == es <==> PlainAll(es))
    decreases es, 0
  {
    hide NormalExpr, Plain;
    if es != [] {
      var init, last := es[..|es| - 1], es[|es| - 1];
      NormalAllArePlain(init);
      NormalIsPlain(last);
      assert es == init + [last];
      var ns := NormalAll(es);
      assert ns[..|ns| - 1] == NormalAll(init) && ns[|ns| - 1] == NormalExpr(last);
    }
  }

  lemma {:induction false} NormalCasesArePlain(ws: seq<WhenThen>)
    ensures |NormalCases(ws)| == |ws| && (NormalCases(ws) == ws <==> PlainCases(ws))
    decreases ws, 0
  {
    hide NormalCase, PlainCase;
    if ws != [] {
      var init, last := ws[..|ws| - 1], ws[|ws| - 1];
      NormalCasesArePlain(init);
      NormalCaseIsPlain(last);
      assert ws == init + [last];
      var ns := NormalCases(ws);
      assert ns[..|ns| - 1] == NormalCases(init) && ns[|ns| - 1] == NormalCase(last);
    }
  }

  lemma {:induction false} NormalCaseIsPlain(w: WhenThen)
    ensures NormalCase(w) == w <==> PlainCase(w)
    decreases w, 0
  {
    hide NormalExpr, Plain;
    NormalIsPlain(w.condition);
    NormalIsPlain(w.result);
  }

  /** An expression that can be encoded comes back as it was if and only if it has no operator the decoder does not
      know, one argument to each aggregate, none distinct, nullable list fields and no empty timezone. */
  lemma ExprComesBack(e: Expr)
    requires EncodeExpr(e).Ok?
    ensures DecodeExpr(EncodeExpr(e).value) == Some(e) <==> KnownOps(e) && Plain(e)
  {
    hide EncodeExpr, DecodeExpr, NormalExpr, KnownOps, Plain;
    ExprRoundTrip(e);
    NormalIsPlain(e);
  }

  /** `count(distinct x)` comes back as `count(x)`. */
  lemma DistinctIsLost()
    ensures
      var e := Aggregate(Count, [Column("x")], true);
      EncodeExpr(e).Ok? && DecodeExpr(EncodeExpr(e).value) == Some(Aggregate(Count, [Column("x")], false)) != Some(e)
  {
    hide EncodeExpr, DecodeExpr;
    var e := Aggregate(Count, [Column("x")], true);
    assert Encodable(Column("x"));
    EncodesExactly(e);
    ExprRoundTrip(e);
    assert KnownOps(Column("x")) && NormalExpr(Column("x")) == Column("x");
  }
}
