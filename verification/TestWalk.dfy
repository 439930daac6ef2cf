/** Finding the test functions of a file, with the classes that enclose them, and counting their cases. */
module TestWalk {
  import opened Ordering
  import opened Outcomes
  import opened Rounding
  import opened Text

  /** A decorator argument: a list, tuple or set literal with its length, or anything else. */
  datatype Argument = Literal(length: nat) | Opaque

  /** A decorator call, with the attribute it calls if it calls one; other decorators are plain. */
  datatype Decorator = Plain | Call(attribute: Option<string>, arguments: seq<Argument>)

  /** A syntax tree.  Of a class only the body is walked; the children of other nodes are all their child nodes. */
  datatype Node =
    | ClassDef(name: string, body: seq<Node>)
    | FunctionDef(name: string, decorators: seq<Decorator>, children: seq<Node>)
    | Other(children: seq<Node>)

  /** A test function with the names of the classes around it, outermost first. */
  datatype Found = Found(path: seq<string>, test: Node)

  function Children(node: Node): seq<Node> { if node.ClassDef? then node.body else node.children }

  predicate IsTest(node: Node) { node.FunctionDef? && StartsWith(node.name, "test_") }

  // ---------------------------------------------------------------- the walk

  /** What the walk yields below a node, given the enclosing classes as an argument. */
  function TestNodes(node: Node, path: seq<string>): seq<Found>
    decreases node, 0
  {
    match node
    case ClassDef(name, body) => TestNodesIn(body, path + [name])
    case FunctionDef(_, _, children) => (if IsTest(node) then [Found(path, node)] else []) + TestNodesIn(children, path)
    case Other(children) => TestNodesIn(children, path)
  }

  function TestNodesIn(nodes: seq<Node>, path: seq<string>): seq<Found>
    decreases nodes, 1
  {
    if nodes == [] then []
    else TestNodesIn(nodes[..|nodes| - 1], path) + TestNodes(nodes[|nodes| - 1], path)
  }

  lemma ClassNodes(node: Node, path: seq<string>)
    requires node.ClassDef?
    ensures TestNodes(node, path) == TestNodesIn(node.body, path + [node.name])
  {
  }

  lemma OtherNodes(node: Node, path: seq<string>)
    requires !node.ClassDef?
    ensures TestNodes(node, path) ==
            (if IsTest(node) then [Found(path, node)] else []) + TestNodesIn(node.children, path)
  {
    assert [] + TestNodesIn(node.children, path) == TestNodesIn(node.children, path);
  }

  lemma NodesStep(nodes: seq<Node>, i: nat, path: seq<string>)
    requires i < |nodes|
    ensures TestNodesIn(nodes[..i + 1], path) == TestNodesIn(nodes[..i], path) + TestNodes(nodes[i], path)
  {
    Prefix(nodes, i);
  }

  lemma NoNodes(path: seq<string>)
    ensures TestNodesIn([], path) == []
  {
  }

  /** The generator: one stack of class names shared by all recursive calls. */
  class Walker {
    var classStack: seq<string>
    var found: seq<Found>

    constructor ()
      ensures classStack == [] && found == []
    {
      classStack, found := [], [];
    }

    method Walk(node: Node)
      modifies this
      ensures classStack == old(classStack)
      ensures found == old(found) + TestNodes(node, old(classStack))
      decreases node, 0
    {
      hide TestNodes, TestNodesIn, IsTest;
      if node.ClassDef? {
        ClassNodes(node, classStack);
        classStack := classStack + [node.name];
        WalkEach(node.body);
        classStack := classStack[..|classStack| - 1];
        return;
      }
      OtherNodes(node, classStack);
      if IsTest(node) { found := found + [Found(classStack, node)]; }
      WalkEach(node.children);
    }

    /** `for child in nodes: yield from walk(child)` */
    method WalkEach(nodes: seq<Node>)
      modifies this
      ensures classStack == old(classStack)
      ensures found == old(found) + TestNodesIn(nodes, old(classStack))
      decreases nodes, 1
    {
      hide TestNodes, TestNodesIn;
      NoNodes(classStack);
      for i := 0 to |nodes|
        invariant classStack == old(classStack)
        invariant found == old(found) + TestNodesIn(nodes[..i], classStack)
      {
        NodesStep(nodes, i, classStack);
        Walk(nodes[i]);
      }
      assert nodes[..|nodes|] == nodes;
    }
  }

  // ---------------------------------------------------------------- what the walk means

  /** The node reached by following child positions. */
  function At(node: Node, address: seq<nat>): Option<Node>
    decreases |address|
  {
    if address == [] then Some(node)
    else if address[0] < |Children(node)| then At(Children(node)[address[0]], address[1..])
    else None
  }

  /** The names of the classes passed on the way to an address. */
  function ClassesAbove(node: Node, address: seq<nat>): seq<string>
    decreases |address|
  {
    if address == [] || address[0] >= |Children(node)| then []
    else (if node.ClassDef? then [node.name] else []) + ClassesAbove(Children(node)[address[0]], address[1..])
  }

  function Below(node: Node, path: seq<string>): seq<string> { if node.ClassDef? then path + [node.name] else path }

  lemma {:induction false} InNodes(nodes: seq<Node>, path: seq<string>, x: Found)
    ensures x in TestNodesIn(nodes, path) <==> exists i :: 0 <= i < |nodes| && x in TestNodes(nodes[i], path)
  {
    if nodes != [] {
      var front := nodes[..|nodes| - 1];
      InNodes(front, path, x);
      assert forall i :: 0 <= i < |front| ==> front[i] == nodes[i];
    }
  }

  lemma NodeMember(node: Node, path: seq<string>, x: Found)
    ensures x in TestNodes(node, path) <==>
            || (IsTest(node) && x == Found(path, node))
            || x in TestNodesIn(Children(node), Below(node, path))
  {
  }

  lemma StepDown(node: Node, path: seq<string>, address: seq<nat>)
    requires address != [] && address[0] < |Children(node)|
    ensures At(node, address) == At(Children(node)[address[0]], address[1..])
    ensures path + ClassesAbove(node, address) ==
            Below(node, path) + ClassesAbove(Children(node)[address[0]], address[1..])
  {
    var entered := if node.ClassDef? then [node.name] else [];
    Associative(path, entered, ClassesAbove(Children(node)[address[0]], address[1..]));
    assert path + [] == path;
  }

  lemma Associative<T>(a: seq<T>, b: seq<T>, c: seq<T>)
    ensures (a + b) + c == a + (b + c)
  {
  }

  lemma {:induction false} WalkFindsAddress(node: Node, path: seq<string>, x: Found) returns (address: seq<nat>)
    requires x in TestNodes(node, path)
    ensures At(node, address) == Some(x.test) && IsTest(x.test) && x.path == path + ClassesAbove(node, address)
    decreases node
  {
    hide TestNodes, TestNodesIn, IsTest, Below;
    NodeMember(node, path, x);
    if IsTest(node) && x == Found(path, node) {
      address := [];
    } else {
      InNodes(Children(node), Below(node, path), x);
      var i :| 0 <= i < |Children(node)| && x in TestNodes(Children(node)[i], Below(node, path));
      var rest := WalkFindsAddress(Children(node)[i], Below(node, path), x);
      address := [i] + rest;
      assert address[1..] == rest;
      StepDown(node, path, address);
    }
  }

  lemma {:induction false} AddressIsWalked(node: Node, path: seq<string>, address: seq<nat>)
    requires At(node, address).Some? && IsTest(At(node, address).value)
    ensures Found(path + ClassesAbove(node, address), At(node, address).value) in TestNodes(node, path)
    decreases |address|
  {
    hide TestNodes, TestNodesIn, IsTest, Below;
    var x := Found(path + ClassesAbove(node, address), At(node, address).value);
    NodeMember(node, path, x);
    if address == [] {
      assert path + [] == path;
    } else {
      AddressIsWalked(Children(node)[address[0]], Below(node, path), address[1..]);
      StepDown(node, path, address);
      InNodes(Children(node), Below(node, path), x);
    }
  }

  /** The walk yields exactly the test functions of the tree, each with the classes above it. */
  lemma WalkComplete(tree: Node, x: Found)
    ensures x in TestNodes(tree, []) <==>
            exists address: seq<nat> ::
              At(tree, address) == Some(x.test) && IsTest(x.test) && x.path == ClassesAbove(tree, address)
  {
    if x in TestNodes(tree, []) {
      var address := WalkFindsAddress(tree, [], x);
      assert [] + ClassesAbove(tree, address) == ClassesAbove(tree, address);
    }
    if address: seq<nat> :|
      At(tree, address) == Some(x.test) && IsTest(x.test) && x.path == ClassesAbove(tree, address)
    {
      AddressIsWalked(tree, [], address);
      assert [] + ClassesAbove(tree, address) == ClassesAbove(tree, address);
    }
  }

  // ---------------------------------------------------------------- parametrized cases

  /** How many times one decorator multiplies the cases of its test. */
  function Factor(d: Decorator): nat {
    if d.Call? && d.attribute == Some("parametrize") && |d.arguments| >= 2 && d.arguments[1].Literal?
       && d.arguments[1].length > 0
    then d.arguments[1].length else 1
  }

  function Product(s: seq<nat>): nat {
    if s == [] then 1 else Product(s[..|s| - 1]) * s[|s| - 1]
  }

  function Cases(test: Node): nat { if test.FunctionDef? then Product(Map(Factor, test.decorators)) else 1 }

  lemma {:induction false} ProductPositive(s: seq<nat>)
    requires forall i :: 0 <= i < |s| ==> s[i] >= 1
    ensures Product(s) >= 1
  {
    if s != [] { ProductPositive(s[..|s| - 1]); }
  }

  method ParametrizeCases(test: Node) returns (cases: nat)
    ensures cases == Cases(test) && cases >= 1
  {
    if !test.FunctionDef? { return 1; }
    var multiplier: nat := 1;
    for i := 0 to |test.decorators|
      invariant multiplier == Product(Map(Factor, test.decorators[..i]))
    {
      ProductStep(test.decorators, i);
      var d := test.decorators[i];
      if d.Plain? { continue; }
      if d.attribute != Some("parametrize") { continue; }
      if |d.arguments| < 2 { continue; }
      if d.arguments[1].Literal? {
        var count := d.arguments[1].length;
        if count > 0 { multiplier := multiplier * count; }
      }
    }
    assert test.decorators[..|test.decorators|] == test.decorators;
    ProductPositive(Map(Factor, test.decorators));
    cases := AtLeastOne(multiplier);
  }

  lemma ProductStep(decorators: seq<Decorator>, i: nat)
    requires i < |decorators|
    ensures Product(Map(Factor, decorators[..i + 1])) == Product(Map(Factor, decorators[..i])) * Factor(decorators[i])
  {
    Prefix(decorators, i);
    assert Map(Factor, decorators[..i + 1])[..i] == Map(Factor, decorators[..i]);
  }

  /** Each decorator multiplies the cases: by the length of a non-empty second argument that is a literal list when it
      calls an attribute named parametrize, and otherwise not at all. */
  lemma CasesMultiply(name: string, decorators: seq<Decorator>, d: Decorator, children: seq<Node>, n: nat)
    ensures Cases(FunctionDef(name, [], children)) == 1
    ensures d == Plain || d.attribute != Some("parametrize") || |d.arguments| < 2 || !d.arguments[1].Literal? ==>
              Cases(FunctionDef(name, decorators + [d], children)) == Cases(FunctionDef(name, decorators, children))
    ensures d.Call? && d.attribute == Some("parametrize") && |d.arguments| >= 2 && d.arguments[1] == Literal(n) ==>
              Cases(FunctionDef(name, decorators + [d], children)) ==
              Cases(FunctionDef(name, decorators, children)) * if n == 0 then 1 else n
  {
    var more := decorators + [d];
    ProductStep(more, |decorators|);
    assert more[..|decorators| + 1] == more && more[..|decorators|] == decorators;
  }

  /** Test functions are the functions whose name starts with `test_`. */
  lemma TestNameMeans(node: Node)
    ensures IsTest(node) <==> node.FunctionDef? && exists rest :: node.name == "test_" + rest
  {
    if IsTest(node) { assert node.name == "test_" + node.name[5..]; }
  }
}
