/**
 * The syntax tree of `factorial.py` as `ast.parse` builds it, with the
 * children in the order `ast.iter_child_nodes` yields them, and its
 * statement count.
 */
module FactorialTree {
  import opened Statements

  function Leaf(kind: string): Node
  {
    Node(kind, [])
  }

  /** A variable read: `Name(ctx=Load())`. */
  function Load(): Node
  {
    Node("Name", [Leaf("Load")])
  }

  /** A variable written: `Name(ctx=Store())`. */
  function Store(): Node
  {
    Node("Name", [Leaf("Store")])
  }

  /** The docstring, an expression statement, which is not counted. */
  function Docstring(): Node
  {
    Node("Expr", [Leaf("Constant")])
  }

  /** `i = i + 1` */
  function IncrementI(): Node
  {
    Node("Assign", [Store(), Node("BinOp", [Load(), Leaf("Add"), Leaf("Constant")])])
  }

  /** `F = i * F` */
  function MultiplyF(): Node
  {
    Node("Assign", [Store(), Node("BinOp", [Load(), Leaf("Mult"), Load()])])
  }

  /** `not i < n` */
  function LoopTest(): Node
  {
    Node("UnaryOp", [Leaf("Not"), Node("Compare", [Load(), Leaf("Lt"), Load()])])
  }

  /** `if not i < n: break else: ...` */
  function LoopBody(): Node
  {
    Node("If", [
      LoopTest(),
      Leaf("Break"),
      IncrementI(),
      MultiplyF()])
  }

  /** `if n < 0: return None else: i = 1; F = 1; while True: ...; return F` */
  function Body(): Node
  {
    Node("If", [
      Node("Compare", [Load(), Leaf("Lt"), Leaf("Constant")]),
      Node("Return", [Leaf("Constant")]),
      Node("Assign", [Store(), Leaf("Constant")]),
      Node("Assign", [Store(), Leaf("Constant")]),
      Node("While", [Leaf("Constant"), LoopBody()]),
      Node("Return", [Load()])])
  }

  /** `def factorial(n): ...` */
  function FactorialDef(): Node
  {
    Node("FunctionDef", [Node("arguments", [Leaf("arg")]), Docstring(), Body()])
  }

  /** The whole file. */
  function FactorialModule(): Node
  {
    Node("Module", [FactorialDef()])
  }

  lemma CountOfPair(a: Node, b: Node)
    ensures ChildrenCount([a, b]) == StatementCount(a) + StatementCount(b)
  {
    ChildrenCountSingleton(a);
    assert [a, b][..1] == [a];
  }

  lemma CountOfTriple(a: Node, b: Node, c: Node)
    ensures ChildrenCount([a, b, c]) == StatementCount(a) + StatementCount(b) + StatementCount(c)
  {
    assert [a, b, c][..2] == [a, b];
    CountOfPair(a, b);
  }

  lemma CountOfQuadruple(a: Node, b: Node, c: Node, d: Node)
    ensures ChildrenCount([a, b, c, d]) ==
            StatementCount(a) + StatementCount(b) + StatementCount(c) + StatementCount(d)
  {
    assert [a, b, c, d][..3] == [a, b, c];
    CountOfTriple(a, b, c);
  }

  lemma CountOfSextuple(a: Node, b: Node, c: Node, d: Node, e: Node, f: Node)
    ensures ChildrenCount([a, b, c, d, e, f]) ==
            StatementCount(a) + StatementCount(b) + StatementCount(c) +
            StatementCount(d) + StatementCount(e) + StatementCount(f)
  {
    assert [a, b, c, d, e, f][..5] == [a, b, c, d, e];
    assert [a, b, c, d, e][..4] == [a, b, c, d];
    CountOfQuadruple(a, b, c, d);
  }

  /** Leaves of classes outside the statement list count 0. */
  lemma LeafCounts()
    ensures StatementCount(Leaf("Constant")) == 0 && StatementCount(Leaf("Load")) == 0
    ensures StatementCount(Leaf("Store")) == 0 && StatementCount(Leaf("Lt")) == 0
    ensures StatementCount(Leaf("Add")) == 0 && StatementCount(Leaf("Mult")) == 0
    ensures StatementCount(Leaf("Not")) == 0 && StatementCount(Leaf("arg")) == 0
    ensures StatementCount(Leaf("Break")) == 1
  {
  }

  lemma NameCounts()
    ensures StatementCount(Load()) == 0 && StatementCount(Store()) == 0
  {
    LeafCounts();
    assert !IsStatement("Name");
    assert [Leaf("Load")][..0] == [] && [Leaf("Store")][..0] == [];
  }

  lemma TestCount()
    ensures StatementCount(LoopTest()) == 0
  {
    LeafCounts();
    NameCounts();
    CountOfTriple(Load(), Leaf("Lt"), Load());
    assert !IsStatement("Compare") && !IsStatement("UnaryOp");
    CountOfPair(Leaf("Not"), Node("Compare", [Load(), Leaf("Lt"), Load()]));
  }

  lemma AssignmentCounts()
    ensures StatementCount(IncrementI()) == 1 && StatementCount(MultiplyF()) == 1
  {
    LeafCounts();
    NameCounts();
    assert !IsStatement("BinOp") && IsStatement("Assign");
    CountOfTriple(Load(), Leaf("Add"), Leaf("Constant"));
    CountOfTriple(Load(), Leaf("Mult"), Load());
    CountOfPair(Store(), Node("BinOp", [Load(), Leaf("Add"), Leaf("Constant")]));
    CountOfPair(Store(), Node("BinOp", [Load(), Leaf("Mult"), Load()]));
  }

  lemma LoopBodyCount()
    ensures StatementCount(LoopBody()) == 4
  {
    TestCount();
    LeafCounts();
    AssignmentCounts();
    assert IsStatement("If");
    CountOfQuadruple(LoopTest(), Leaf("Break"), IncrementI(), MultiplyF());
  }

  lemma SingleChildCount(k: string, x: Node)
    ensures StatementCount(Node(k, [x])) == Indicator(k) + StatementCount(x)
  {
    ChildrenCountSingleton(x);
  }

  lemma GuardCount()
    ensures StatementCount(Node("Compare", [Load(), Leaf("Lt"), Leaf("Constant")])) == 0
  {
    LeafCounts();
    NameCounts();
    assert !IsStatement("Compare");
    CountOfTriple(Load(), Leaf("Lt"), Leaf("Constant"));
  }

  lemma ReturnCounts()
    ensures StatementCount(Node("Return", [Leaf("Constant")])) == 1
    ensures StatementCount(Node("Return", [Load()])) == 1
  {
    LeafCounts();
    NameCounts();
    assert IsStatement("Return");
    SingleChildCount("Return", Leaf("Constant"));
    SingleChildCount("Return", Load());
  }

  lemma InitCount()
    ensures StatementCount(Node("Assign", [Store(), Leaf("Constant")])) == 1
  {
    LeafCounts();
    NameCounts();
    assert IsStatement("Assign");
    CountOfPair(Store(), Leaf("Constant"));
  }

  lemma LoopCount()
    ensures StatementCount(Node("While", [Leaf("Constant"), LoopBody()])) == 5
  {
    LeafCounts();
    LoopBodyCount();
    assert IsStatement("While");
    CountOfPair(Leaf("Constant"), LoopBody());
  }

  lemma BodyCount()
    ensures StatementCount(Body()) == 10
  {
    var cmp := Node("Compare", [Load(), Leaf("Lt"), Leaf("Constant")]);
    var ret := Node("Return", [Leaf("Constant")]);
    var assign := Node("Assign", [Store(), Leaf("Constant")]);
    var loop := Node("While", [Leaf("Constant"), LoopBody()]);
    var retF := Node("Return", [Load()]);
    GuardCount();
    ReturnCounts();
    InitCount();
    LoopCount();
    assert IsStatement("If");
    assert Body() == Node("If", [cmp, ret, assign, assign, loop, retF]);
    CountOfSextuple(cmp, ret, assign, assign, loop, retF);
    assert StatementCount(Body()) == 1 + ChildrenCount([cmp, ret, assign, assign, loop, retF]);
  }

  /**
   * The file holds 11 statements: one function definition, two `if`s, two
   * `return`s, four assignments, one `while` and one `break`. Neither the
   * module node nor the docstring adds to the count.
   */
  lemma FactorialStatementCount()
    ensures StatementCount(Docstring()) == 0
    ensures StatementCount(FactorialModule()) == StatementCount(FactorialDef())
    ensures StatementCount(FactorialModule()) == 11
  {
    LeafCounts();
    BodyCount();
    assert !IsStatement("Expr") && !IsStatement("arguments") && !IsStatement("Module");
    assert IsStatement("FunctionDef");
    SingleChildCount("Expr", Leaf("Constant"));
    SingleChildCount("arguments", Leaf("arg"));
    SingleChildCount("Module", FactorialDef());
    var args := Node("arguments", [Leaf("arg")]);
    CountOfTriple(args, Docstring(), Body());
    assert StatementCount(FactorialDef()) == 1 + ChildrenCount([args, Docstring(), Body()]);
  }
}
