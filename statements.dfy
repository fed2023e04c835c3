/**
 * The statement counter: a walk over a Python syntax tree that counts the
 * nodes whose class is one of a fixed list of 23 statement classes.
 */
module Statements {

  /** A syntax-tree node: the name of its `ast` class and its child nodes, in order. */
  datatype Node = Node(kind: string, children: seq<Node>)

  /**
   * The statement classes that are counted. `Expr`, `AsyncFor`, `AsyncWith`,
   * `Module` and every expression class are not among them.
   */
  const StatementKinds: set<string> :=
    {"Assign", "AugAssign", "AnnAssign", "For", "While", "If", "With", "Try",
     "ExceptHandler", "FunctionDef", "AsyncFunctionDef", "ClassDef", "Return",
     "Delete", "Raise", "Assert", "Import", "ImportFrom", "Global", "Nonlocal",
     "Pass", "Break", "Continue"}

  predicate IsStatement(kind: string)
  {
    kind in StatementKinds
  }

  /** What a node contributes by itself: 1 for a statement, 0 otherwise. */
  function Indicator(kind: string): nat
  {
    if IsStatement(kind) then 1 else 0
  }

  /** The number of statement nodes in a tree, the root included. */
  function StatementCount(n: Node): nat
    decreases n
  {
    Indicator(n.kind) + ChildrenCount(n.children)
  }

  /** The number of statement nodes in a list of subtrees. */
  function ChildrenCount(cs: seq<Node>): nat
    decreases cs
  {
    if cs == [] then 0 else ChildrenCount(cs[..|cs| - 1]) + StatementCount(cs[|cs| - 1])
  }

  /** The number of nodes in a tree, the root included. */
  function Size(n: Node): nat
    decreases n
  {
    1 + ChildrenSize(n.children)
  }

  function ChildrenSize(cs: seq<Node>): nat
    decreases cs
  {
    if cs == [] then 0 else ChildrenSize(cs[..|cs| - 1]) + Size(cs[|cs| - 1])
  }

  /**
   * `count_statements`: 1 for a statement root, then the count of every
   * child added in turn.
   */
  method CountStatements(node: Node) returns (count: nat)
    ensures count == StatementCount(node)
    decreases node
  {
    count := 0;
    if IsStatement(node.kind) {
      count := count + 1;
    }
    var i := 0;
    while i < |node.children|
      invariant 0 <= i <= |node.children|
      invariant count == Indicator(node.kind) + ChildrenCount(node.children[..i])
    {
      var c := CountStatements(node.children[i]);
      assert node.children[..i + 1][..i] == node.children[..i];
      count := count + c;
      i := i + 1;
    }
    assert node.children[..i] == node.children;
  }

  /** A list of one subtree counts what that subtree counts. */
  lemma ChildrenCountSingleton(x: Node)
    ensures ChildrenCount([x]) == StatementCount(x)
  {
    assert [x][..0] == [];
  }

  /** Counting two lists of subtrees one after the other adds their counts. */
  lemma {:induction false} ChildrenCountAppend(a: seq<Node>, b: seq<Node>)
    ensures ChildrenCount(a + b) == ChildrenCount(a) + ChildrenCount(b)
    decreases |b|
  {
    if b == [] {
      assert a + b == a;
    } else {
      var b' := b[..|b| - 1];
      assert (a + b)[..|a + b| - 1] == a + b';
      ChildrenCountAppend(a, b');
    }
  }

  /** Taking one subtree out of a list takes its count out of the list's count. */
  lemma {:induction false} ChildrenCountRemove(t: seq<Node>, j: nat)
    requires j < |t|
    ensures ChildrenCount(t) == ChildrenCount(t[..j] + t[j + 1..]) + StatementCount(t[j])
    decreases |t|
  {
    var init, last := t[..|t| - 1], t[|t| - 1];
    var rest := t[..j] + t[j + 1..];
    if j == |t| - 1 {
      assert rest == init;
    } else {
      ChildrenCountRemove(init, j);
      assert rest[..|rest| - 1] == init[..j] + init[j + 1..];
      assert rest[|rest| - 1] == last;
    }
  }

  lemma MultisetRemove(t: seq<Node>, j: nat)
    requires j < |t|
    ensures multiset(t[..j] + t[j + 1..]) == multiset(t) - multiset{t[j]}
  {
    assert t == t[..j] + [t[j]] + t[j + 1..];
  }

  /** The count of a list of subtrees does not depend on their order. */
  lemma {:induction false} ChildrenCountPermutation(s: seq<Node>, t: seq<Node>)
    requires multiset(s) == multiset(t)
    ensures ChildrenCount(s) == ChildrenCount(t)
    decreases |s|
  {
    if s == [] {
      assert |t| == |multiset(t)| == 0;
    } else {
      var x := s[|s| - 1];
      var s' := s[..|s| - 1];
      assert s == s' + [x];
      assert x in multiset(t);
      var j :| 0 <= j < |t| && t[j] == x;
      var t' := t[..j] + t[j + 1..];
      MultisetRemove(t, j);
      assert multiset(s) == multiset(s') + multiset{x};
      ChildrenCountPermutation(s', t');
      ChildrenCountRemove(t, j);
    }
  }

  /** Reordering the children of a node leaves its statement count unchanged. */
  lemma CountIndependentOfChildOrder(n: Node, m: Node)
    requires n.kind == m.kind && multiset(n.children) == multiset(m.children)
    ensures StatementCount(n) == StatementCount(m)
  {
    ChildrenCountPermutation(n.children, m.children);
  }

  /** A tree holds no more statements than nodes. */
  lemma {:induction false} CountAtMostSize(n: Node)
    ensures StatementCount(n) <= Size(n)
    decreases n
  {
    ChildrenCountAtMostSize(n.children);
  }

  lemma {:induction false} ChildrenCountAtMostSize(cs: seq<Node>)
    ensures ChildrenCount(cs) <= ChildrenSize(cs)
    decreases cs
  {
    if cs != [] {
      ChildrenCountAtMostSize(cs[..|cs| - 1]);
      CountAtMostSize(cs[|cs| - 1]);
    }
  }
}
