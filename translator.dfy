/**
  The merge-condition translator of the bulk upsert.

  A caller writes the merge condition as a lambda `(existing, incoming) => ...` over two rows;
  its body reaches this module as an expression tree of three node kinds, and the translator
  prints it as the PostgreSQL boolean text that follows `WHERE` in `ON CONFLICT ... DO UPDATE`.
  A row parameter named exactly `existing` stands for the row already in the table (alias
  `target`); any other parameter stands for the incoming row (alias `EXCLUDED`).
*/
module Translator {
  import opened Wrappers

  /** The node type of a binary node. `Other` is every node type outside the operator
      table (Add, Modulo, Coalesce, ...), carried by name for the error it raises. */
  datatype NodeType =
    | Equal | NotEqual | GreaterThan | GreaterThanOrEqual | LessThan | LessThanOrEqual
    | AndAlso | OrElse
    | Other(name: string)

  /** What a member access is applied to: one of the lambda's parameters, or anything
      else (another member access as in `a.B.C`, a captured variable, a static member). */
  datatype Root = Parameter(name: string) | NonParameter

  datatype Node =
    | Binary(nodeType: NodeType, left: Node, right: Node)
    | Member(root: Root, member: string)
    /** `text` is the constant's value as the host prints it; for a string, the string itself. */
    | Constant(isString: bool, text: string)
    /** A unary node (`Not`, `Convert`, ...): the visitor has no case for it, so the base
        visitor walks into its operand and prints nothing of its own. */
    | Unary(kind: string, operand: Node)
    /** A parameter used on its own, which the base visitor walks past printing nothing. */
    | ParameterRef(name: string)

  /** The NotSupportedException the translator throws, with what its message names. */
  datatype Unsupported = UnsupportedOperation(nodeType: NodeType) | UnsupportedMember(member: string)

  /** The operator table: the token printed between the two operands, if the node type has one. */
  function OperatorToken(t: NodeType): (r: Option<string>)
    ensures r.None? <==> t.Other?
    ensures r.Some? ==> |r.value| >= 3 && r.value[0] == ' ' && r.value[|r.value| - 1] == ' '
  {
    match t
    case Equal => Some(" = ")
    case NotEqual => Some(" <> ")
    case GreaterThan => Some(" > ")
    case GreaterThanOrEqual => Some(" >= ")
    case LessThan => Some(" < ")
    case LessThanOrEqual => Some(" <= ")
    case AndAlso => Some(" AND ")
    case OrElse => Some(" OR ")
    case Other(_) => None
  }

  /** The alias rule: only a parameter named exactly `existing` is the target row. */
  function Alias(parameter: string): string
  {
    if parameter == "existing" then "target" else "EXCLUDED"
  }

  /** The translation as a pure recursive printer: left operand, operator, right operand,
      in that order, so the first unsupported node met in that order is the one reported. */
  function Render(n: Node): Result<string, Unsupported>
  {
    match n
    case Binary(t, l, r) =>
      (match Render(l)
       case Failure(e) => Failure(e)
       case Success(ls) =>
         match OperatorToken(t)
         case None => Failure(UnsupportedOperation(t))
         case Some(token) =>
           match Render(r)
           case Failure(e) => Failure(e)
           case Success(rs) => Success("(" + ls + token + rs + ")"))
    case Member(root, m) =>
      (match root
       case Parameter(p) => Success(Alias(p) + ".\"" + m + "\"")
       case NonParameter => Failure(UnsupportedMember(m)))
    case Constant(isString, text) =>
      Success(if isString then "'" + text + "'" else text)
    case Unary(_, operand) => Render(operand)
    case ParameterRef(_) => Success("")
  }

  /** A binary node that translates is printed whole and in parentheses: its operands'
      translations, in order, around its operator's token. */
  lemma BinaryIsParenthesised(t: NodeType, l: Node, r: Node)
    requires Render(Binary(t, l, r)).Success?
    ensures Render(l).Success? && Render(r).Success? && OperatorToken(t).Some?
    ensures Render(Binary(t, l, r)).value
         == "(" + Render(l).value + OperatorToken(t).value + Render(r).value + ")"
    ensures var s := Render(Binary(t, l, r)).value;
            |s| == |Render(l).value| + |OperatorToken(t).value| + |Render(r).value| + 2
            && s[0] == '(' && s[|s| - 1] == ')'
            && s[1..1 + |Render(l).value|] == Render(l).value
            && s[|s| - 1 - |Render(r).value|..|s| - 1] == Render(r).value
  {
    ParenthesisedParts(Render(l).value, OperatorToken(t).value, Render(r).value);
  }

  lemma ParenthesisedParts(ls: string, op: string, rs: string)
    ensures var s := "(" + ls + op + rs + ")";
            |s| == |ls| + |op| + |rs| + 2 && s[0] == '(' && s[|s| - 1] == ')'
            && s[1..1 + |ls|] == ls && s[|s| - 1 - |rs|..|s| - 1] == rs
  {
    var s := "(" + ls + op + rs + ")";
    assert s[1..1 + |ls|] == ls;
    assert s[|s| - 1 - |rs|..|s| - 1] == rs;
  }

  /** Every unsupported node of a tree, in the order left operand, operator, right operand. */
  function Issues(n: Node): seq<Unsupported>
  {
    match n
    case Binary(t, l, r) =>
      Issues(l) + (if OperatorToken(t).None? then [UnsupportedOperation(t)] else []) + Issues(r)
    case Member(root, m) => if root.NonParameter? then [UnsupportedMember(m)] else []
    case Constant(_, _) => []
    case Unary(_, operand) => Issues(operand)
    case ParameterRef(_) => []
  }

  /** Translation fails exactly when the tree holds an unsupported node, and then it
      reports the first one in left-to-right order. */
  lemma {:induction false} RenderFailsAtFirstIssue(n: Node)
    ensures Render(n).Success? <==> Issues(n) == []
    ensures Render(n).Failure? ==> Issues(n) != [] && Render(n).error == Issues(n)[0]
  {
    match n
    case Binary(t, l, r) =>
      RenderFailsAtFirstIssue(l);
      RenderFailsAtFirstIssue(r);
    case Member(_, _) =>
    case Constant(_, _) =>
    case Unary(_, operand) =>
      RenderFailsAtFirstIssue(operand);
    case ParameterRef(_) =>
  }

  /** Renames every parameter a member access is rooted at. */
  function RenameParameters(n: Node, f: string -> string): Node
  {
    match n
    case Binary(t, l, r) => Binary(t, RenameParameters(l, f), RenameParameters(r, f))
    case Member(root, m) =>
      (match root
       case Parameter(p) => Member(Parameter(f(p)), m)
       case NonParameter => n)
    case Constant(_, _) => n
    case Unary(k, operand) => Unary(k, RenameParameters(operand, f))
    case ParameterRef(p) => ParameterRef(f(p))
  }

  /** Only whether a parameter is named `existing` matters: any renaming that keeps that
      name and no other on `existing` leaves the translation unchanged. */
  lemma {:induction false} RenderIgnoresOtherParameterNames(n: Node, f: string -> string)
    requires forall p :: f(p) == "existing" <==> p == "existing"
    ensures Render(RenameParameters(n, f)) == Render(n)
  {
    match n
    case Binary(t, l, r) =>
      RenderIgnoresOtherParameterNames(l, f);
      RenderIgnoresOtherParameterNames(r, f);
    case Member(root, m) =>
      match root {
        case Parameter(p) =>
          assert Alias(f(p)) == Alias(p);
        case NonParameter =>
      }
    case Constant(_, _) =>
    case Unary(_, operand) =>
      RenderIgnoresOtherParameterNames(operand, f);
    case ParameterRef(_) =>
  }

  /** The translation of the condition `existing.Name == incoming.Name`, and a modulo node
      that is refused rather than printed. */
  lemma ExampleTranslations()
    ensures Render(Binary(Equal, Member(Parameter("existing"), "Name"), Member(Parameter("incoming"), "Name")))
         == Success("(target.\"Name\" = EXCLUDED.\"Name\")")
    ensures Render(Binary(Other("Modulo"), Member(Parameter("existing"), "Age"), Constant(false, "2")))
         == Failure(UnsupportedOperation(Other("Modulo")))
  {
    assert Alias("existing") == "target" && Alias("incoming") == "EXCLUDED";
    assert "target" + ".\"" + "Name" + "\"" == "target.\"Name\"";
    assert "EXCLUDED" + ".\"" + "Name" + "\"" == "EXCLUDED.\"Name\"";
    assert Render(Member(Parameter("existing"), "Name")) == Success("target.\"Name\"");
    assert Render(Member(Parameter("incoming"), "Name")) == Success("EXCLUDED.\"Name\"");
    assert "(" + "target.\"Name\"" + " = " + "EXCLUDED.\"Name\"" + ")" == "(target.\"Name\" = EXCLUDED.\"Name\")";
    assert Render(Member(Parameter("existing"), "Age")).Success?;
  }

  /** With the parameter names `current` and `incoming` (the names the test service uses),
      neither parameter is `existing`, so both sides of the comparison print as `EXCLUDED`. */
  lemma CurrentIncomingBothExcluded(column: string)
    ensures Render(Binary(Equal, Member(Parameter("current"), column), Member(Parameter("incoming"), column)))
         == Success("(EXCLUDED.\"" + column + "\" = EXCLUDED.\"" + column + "\")")
  {
    var side := "EXCLUDED.\"" + column + "\"";
    assert Render(Member(Parameter("current"), column)).value == side;
    assert Render(Member(Parameter("incoming"), column)).value == side;
    assert "(" + side + " = " + side + ")" == "(EXCLUDED.\"" + column + "\" = EXCLUDED.\"" + column + "\")";
  }

  /** String constants are quoted but not escaped: two different trees can print the same
      text once a constant holds a quote, so the text no longer determines the condition. */
  lemma {:induction false} QuotedConstantsAreAmbiguous()
    ensures var a := Binary(Equal, Constant(true, "a' = 'b"), Constant(true, "c"));
            var b := Binary(Equal, Constant(true, "a"), Constant(true, "b' = 'c"));
            a != b && Render(a) == Render(b) && Render(a).Success?
  {
    var a := Binary(Equal, Constant(true, "a' = 'b"), Constant(true, "c"));
    var b := Binary(Equal, Constant(true, "a"), Constant(true, "b' = 'c"));
    assert a.left != b.left;
    assert Render(a).value == "('a' = 'b' = 'c')";
    assert Render(b).value == "('a' = 'b' = 'c')";
  }

  /** A negation is walked through and not printed: the negated condition prints as the
      condition itself, so the update is gated by the opposite of what the caller wrote. */
  lemma NegationIsDropped(condition: Node)
    requires condition.Binary? && Render(condition).Success?
    ensures Render(Unary("Not", condition)) == Render(condition)
    ensures Render(Unary("Not", condition)).value[0] == '('
  {
  }

  /**
    The visitor of the source: a buffer that each visit appends to, in place, while the
    tree is walked. An unsupported node ends the walk with an exception; the visitor is
    then thrown away together with whatever it had appended so far.
  */
  class MergeConditionVisitor {
    var sb: string

    constructor ()
      ensures sb == ""
    {
      sb := "";
    }

    /** The text appended so far. */
    function Condition(): string
      reads this
    {
      sb
    }

    method Visit(node: Node) returns (thrown: Option<Unsupported>)
      modifies this
      decreases node, 1
      ensures Render(node).Success? ==> thrown == None && sb == old(sb) + Render(node).value
      ensures Render(node).Failure? ==> thrown == Some(Render(node).error) && old(sb) <= sb
    {
      match node
      case Binary(_, _, _) => thrown := VisitBinary(node);
      case Member(_, _) => thrown := VisitMember(node);
      case Constant(_, _) => thrown := VisitConstant(node);
      case Unary(_, operand) => thrown := Visit(operand);
      case ParameterRef(_) => thrown := None;
    }

    method VisitBinary(node: Node) returns (thrown: Option<Unsupported>)
      requires node.Binary?
      modifies this
      decreases node, 0
      ensures Render(node).Success? ==> thrown == None && sb == old(sb) + Render(node).value
      ensures Render(node).Failure? ==> thrown == Some(Render(node).error) && old(sb) <= sb
    {
      sb := sb + "(";
      thrown := Visit(node.left);
      if thrown.Some? {
        return;
      }
      var token := OperatorToken(node.nodeType);
      if token.None? {
        thrown := Some(UnsupportedOperation(node.nodeType));
        return;
      }
      sb := sb + token.value;
      thrown := Visit(node.right);
      if thrown.Some? {
        return;
      }
      sb := sb + ")";
    }

    method VisitMember(node: Node) returns (thrown: Option<Unsupported>)
      requires node.Member?
      modifies this
      ensures Render(node).Success? ==> thrown == None && sb == old(sb) + Render(node).value
      ensures Render(node).Failure? ==> thrown == Some(Render(node).error) && sb == old(sb)
    {
      if node.root.Parameter? {
        sb := sb + Alias(node.root.name) + ".\"" + node.member + "\"";
        return None;
      }
      return Some(UnsupportedMember(node.member));
    }

    method VisitConstant(node: Node) returns (thrown: Option<Unsupported>)
      requires node.Constant?
      modifies this
      ensures thrown == None && sb == old(sb) + Render(node).value
    {
      if node.isString {
        sb := sb + "'" + node.text + "'";
      } else {
        sb := sb + node.text;
      }
      return None;
    }
  }

  /** A fresh visitor per call: the result depends on the condition alone. */
  method ConvertConditionToSql(condition: Node) returns (r: Result<string, Unsupported>)
    ensures r == Render(condition)
  {
    var visitor := new MergeConditionVisitor();
    var thrown := visitor.Visit(condition);
    if thrown.Some? {
      return Failure(thrown.value);
    }
    assert "" + Render(condition).value == Render(condition).value;
    return Success(visitor.Condition());
  }
}
