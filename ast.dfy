/**
 * The abstract syntax tree produced by the parser and walked by the evaluator,
 * together with the operator spellings and the precedence ladder.
 * Equality of these datatypes is structural, as the derived `PartialEq` is.
 */
module Ast {
  import opened I64

  datatype Ident = Ident(name: string)

  datatype Literal =
    | Int(value: int64)
    | String(text: string)
    | Bool(flag: bool)
    | Array(elements: seq<Expr>)
    | Hash(pairs: seq<Pair>)   // an ordered list: duplicates and source order are kept

  /** One `key: value` entry of a hash literal. */
  datatype Pair = Pair(key: Expr, value: Expr)

  datatype Prefix = Plus | Minus | Not

  datatype Infix = Plus | Minus | Divide | Multiply | Equal | NotEqual | GTEQ | GT | LTEQ | LT

  /** The optional `else` block of an `if`. */
  datatype Else = NoElse | Else(block: BlockStmt)

  datatype Expr =
    | Literal(lit: Literal)
    | Ident(id: Ident)
    | Prefix(prefix: Prefix, right: Expr)
    | Infix(infix: Infix, left: Expr, right: Expr)
    | Index(target: Expr, index: Expr)
    | While(cond: Expr, consequence: BlockStmt)
    | If(cond: Expr, consequence: BlockStmt, alternative: Else)
    | Function(params: seq<Ident>, body: BlockStmt)
    | Call(func: Expr, args: seq<Expr>)

  datatype Stmt =
    | Let(name: Ident, value: Expr)
    | Const(name: Ident, value: Expr)
    | Break
    | Blank
    | Continue
    | Return(value: Expr)
    | Expr(expr: Expr)
    | ReAssign(name: Ident, value: Expr)

  type BlockStmt = seq<Stmt>

  type Program = BlockStmt

  /** The `Display` text of a prefix operator. */
  function PrefixSymbol(p: Prefix): (s: string)
    ensures |s| == 1
  {
    match p
    case Plus => "+"
    case Minus => "-"
    case Not => "!"
  }

  /** The `Display` text of an infix operator. */
  function InfixSymbol(op: Infix): (s: string)
    ensures 1 <= |s| <= 2
  {
    match op
    case Plus => "+"
    case Minus => "-"
    case Divide => "/"
    case Multiply => "*"
    case Equal => "=="
    case NotEqual => "!="
    case GTEQ => ">="
    case GT => ">"
    case LTEQ => "<="
    case LT => "<"
  }

  /** Distinct prefix operators are displayed distinctly. */
  lemma PrefixSymbolInjective(p: Prefix, q: Prefix)
    ensures PrefixSymbol(p) == PrefixSymbol(q) <==> p == q
  {
  }

  /** Distinct infix operators are displayed distinctly. */
  lemma InfixSymbolInjective(a: Infix, b: Infix)
    ensures InfixSymbol(a) == InfixSymbol(b) <==> a == b
  {
  }

  /** The precedence ladder, lowest first; the derived `PartialOrd` follows declaration order. */
  datatype Precedence = Lowest | Equals | LessGreater | Sum | Product | Prefix | Call | Index

  function Rank(p: Precedence): (r: nat)
    ensures r < 8
  {
    match p
    case Lowest => 0
    case Equals => 1
    case LessGreater => 2
    case Sum => 3
    case Product => 4
    case Prefix => 5
    case Call => 6
    case Index => 7
  }

  /** `p < q` on precedences. */
  predicate Below(p: Precedence, q: Precedence) { Rank(p) < Rank(q) }

  /** `Below` is a strict total order: irreflexive, transitive and total on distinct values. */
  lemma BelowIsStrictTotalOrder(p: Precedence, q: Precedence, r: Precedence)
    ensures !Below(p, p)
    ensures Below(p, q) && Below(q, r) ==> Below(p, r)
    ensures p != q ==> Below(p, q) || Below(q, p)
  {
    if p != q {
      assert Rank(p) != Rank(q);
    }
  }

  /** The ladder in declaration order. */
  lemma PrecedenceLadder()
    ensures Below(Lowest, Equals) && Below(Equals, LessGreater) && Below(LessGreater, Sum)
    ensures Below(Sum, Product) && Below(Product, Precedence.Prefix)
    ensures Below(Precedence.Prefix, Precedence.Call) && Below(Precedence.Call, Precedence.Index)
  {
  }
}
