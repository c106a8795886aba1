/** `_find_blocks` and `__setitem__` of `pyhtml.py` and `phtml/__init__.py`:
    finding the nodes a name fills, and filling them. */
module Blocks {
  import opened Html

  /** `isinstance(c, Block) and c.name == name`: a Block instance of that
      name, or a tag instance whose class name it is (a Tag is a Block). */
  predicate Matches(c: Child, name: string)
  {
    c.Sub? && c.node.Name() == name
  }

  /** The nodes `_find_blocks(name)` collects from a list of children, in
      order: a match is taken whole, a Tag that does not match is searched,
      and a Block that does not match is passed over. */
  function Found(cs: seq<Child>, name: string): (r: seq<Node>)
    ensures forall i :: 0 <= i < |r| ==> r[i].Name() == name
    decreases cs, 1
  {
    if cs == [] then [] else FoundIn(cs[0], name) + Found(cs[1..], name)
  }

  function FoundIn(c: Child, name: string): (r: seq<Node>)
    ensures forall i :: 0 <= i < |r| ==> r[i].Name() == name
    decreases c, 0
  {
    if Matches(c, name) then [c.node]
    else if c.Sub? && c.node.Tag? then Found(c.node.children, name)
    else []
  }

  lemma {:induction false} FoundAppend(a: seq<Child>, b: seq<Child>, name: string)
    ensures Found(a + b, name) == Found(a, name) + Found(b, name)
  {
    if a == [] {
      assert a + b == b;
    } else {
      assert (a + b)[1..] == a[1..] + b;
      FoundAppend(a[1..], b, name);
    }
  }

  /** The three rules of the search, for the child at any position: a match
      is taken whole without looking inside it, a Tag that does not match
      contributes what its children hold, and anything else contributes
      nothing; what comes before and after is searched in order. */
  lemma FoundSplit(cs: seq<Child>, i: nat, name: string)
    requires i < |cs|
    ensures Matches(cs[i], name) ==>
      Found(cs, name) == Found(cs[..i], name) + [cs[i].node] + Found(cs[i + 1..], name)
    ensures !Matches(cs[i], name) && cs[i].Sub? && cs[i].node.Tag? ==>
      Found(cs, name) == Found(cs[..i], name) + Found(cs[i].node.children, name) + Found(cs[i + 1..], name)
    ensures !Matches(cs[i], name) && !(cs[i].Sub? && cs[i].node.Tag?) ==>
      Found(cs, name) == Found(cs[..i], name) + Found(cs[i + 1..], name)
  {
    FoundAt(cs, i, name);
  }

  lemma FoundAt(cs: seq<Child>, i: nat, name: string)
    requires i < |cs|
    ensures Found(cs, name) == Found(cs[..i], name) + FoundIn(cs[i], name) + Found(cs[i + 1..], name)
  {
    assert cs == cs[..i] + ([cs[i]] + cs[i + 1..]);
    FoundAppend(cs[..i], [cs[i]] + cs[i + 1..], name);
    FoundAppend([cs[i]], cs[i + 1..], name);
    assert Found([cs[i]], name) == FoundIn(cs[i], name) + Found([], name);
  }

  /** A node is reached by the search when it matches and sits among the
      children, or inside a Tag that does not match and is itself reached
      through. */
  ghost predicate Reachable(cs: seq<Child>, name: string, n: Node)
    decreases cs, 1
  {
    exists i :: 0 <= i < |cs| && ReachIn(cs[i], name, n)
  }

  ghost predicate ReachIn(c: Child, name: string, n: Node)
    decreases c, 0
  {
    if Matches(c, name) then c.node == n
    else c.Sub? && c.node.Tag? && Reachable(c.node.children, name, n)
  }

  lemma ReachableCons(cs: seq<Child>, name: string, n: Node)
    requires cs != []
    ensures Reachable(cs, name, n) <==> ReachIn(cs[0], name, n) || Reachable(cs[1..], name, n)
  {
    if Reachable(cs, name, n) && !ReachIn(cs[0], name, n) {
      var i :| 0 <= i < |cs| && ReachIn(cs[i], name, n);
      assert cs[1..][i - 1] == cs[i];
    }
    if Reachable(cs[1..], name, n) {
      var i :| 0 <= i < |cs[1..]| && ReachIn(cs[1..][i], name, n);
      assert cs[i + 1] == cs[1..][i];
    }
  }

  /** The search finds every node it reaches and nothing else. */
  lemma {:induction false} FoundReachable(cs: seq<Child>, name: string, n: Node)
    ensures n in Found(cs, name) <==> Reachable(cs, name, n)
    decreases cs, 1
  {
    if cs != [] {
      FoundInReach(cs[0], name, n);
      FoundReachable(cs[1..], name, n);
      ReachableCons(cs, name, n);
    }
  }

  lemma {:induction false} FoundInReach(c: Child, name: string, n: Node)
    ensures n in FoundIn(c, name) <==> ReachIn(c, name, n)
    decreases c, 0
  {
    if !Matches(c, name) && c.Sub? && c.node.Tag? {
      FoundReachable(c.node.children, name, n);
    }
  }

  /** `node._find_blocks(name)`: a loop over the children that appends each
      match and the result of searching each other Tag. */
  method FindBlocks(n: Node, name: string) returns (blocks: seq<Node>)
    ensures blocks == Found(n.children, name)
    decreases n
  {
    var cs := n.children;
    blocks := [];
    for i := 0 to |cs|
      invariant blocks == Found(cs[..i], name)
    {
      var c := cs[i];
      FoundAppend(cs[..i], [c], name);
      assert cs[..i + 1] == cs[..i] + [c];
      assert Found([c], name) == FoundIn(c, name);
      if c.Sub? && c.node.Name() == name {
        blocks := blocks + [c.node];
      } else if c.Sub? && c.node.Tag? {
        var inner := FindBlocks(c.node, name);
        blocks := blocks + inner;
      }
    }
    assert cs[..|cs|] == cs;
  }

  /** The found nodes after `b(*children)` has run on each of them in turn:
      each takes the new children, until the first self-closing one, whose
      call raises and leaves it and the rest as they were. */
  function CallEach(ns: seq<Node>, x: Child): (r: seq<Node>)
    ensures |r| == |ns|
  {
    if ns == [] then []
    else if ns[0].IsSelfClosing() then ns
    else [ns[0].(children := [x])] + CallEach(ns[1..], x)
  }

  predicate NoneSelfClosing(ns: seq<Node>)
  {
    forall i :: 0 <= i < |ns| ==> !ns[i].IsSelfClosing()
  }

  lemma {:induction false} CallEachAppend(a: seq<Node>, b: seq<Node>, x: Child)
    ensures CallEach(a + b, x) == CallEach(a, x) + (if NoneSelfClosing(a) then CallEach(b, x) else b)
  {
    if a == [] {
      assert a + b == b;
    } else {
      var ab := a + b;
      assert ab[0] == a[0] && ab[1..] == a[1..] + b;
      CallEachAppend(a[1..], b, x);
      NoneSelfClosingCons(a);
      if a[0].IsSelfClosing() {
        assert CallEach(ab, x) == ab && CallEach(a, x) == a;
      } else {
        var h := [a[0].(children := [x])];
        var m := CallEach(a[1..], x);
        var t := if NoneSelfClosing(a[1..]) then CallEach(b, x) else b;
        assert CallEach(ab, x) == h + CallEach(a[1..] + b, x);
        assert CallEach(a, x) == h + m;
        NodesAssoc(h, m, t);
      }
    }
  }

  lemma NodesAssoc(h: seq<Node>, m: seq<Node>, t: seq<Node>)
    ensures h + (m + t) == h + m + t
  {
  }

  lemma NoneSelfClosingCons(a: seq<Node>)
    requires a != []
    ensures NoneSelfClosing(a) <==> !a[0].IsSelfClosing() && NoneSelfClosing(a[1..])
  {
    if !a[0].IsSelfClosing() && NoneSelfClosing(a[1..]) {
      forall i | 0 <= i < |a| ensures !a[i].IsSelfClosing() {
        if i > 0 {
          assert a[i] == a[1..][i - 1];
        }
      }
    }
  }

  /** `self[name] = x` on a list of children: the nodes `_find_blocks` finds
      take the children `[x]`, in the order found; `ok` is false when a
      self-closing one raised, which stops the filling there. */
  function Fill(cs: seq<Child>, name: string, x: Child): (r: (seq<Child>, bool))
    ensures |r.0| == |cs|
    decreases cs, 1
  {
    if cs == [] then ([], true)
    else
      var (c, ok) := FillIn(cs[0], name, x);
      if !ok then ([c] + cs[1..], false)
      else
        var (rest, ok') := Fill(cs[1..], name, x);
        ([c] + rest, ok')
  }

  function FillIn(c: Child, name: string, x: Child): (r: (Child, bool))
    decreases c, 0
  {
    if Matches(c, name) then
      if c.node.IsSelfClosing() then (c, false) else (Sub(c.node.(children := [x])), true)
    else if c.Sub? && c.node.Tag? then
      var (cs, ok) := Fill(c.node.children, name, x);
      (Sub(c.node.(children := cs)), ok)
    else (c, true)
  }

  /** Filling does to the found nodes exactly what calling each of them does,
      and raises exactly when one of them is self-closing. */
  lemma {:induction false} FillCallsEach(cs: seq<Child>, name: string, x: Child)
    ensures Found(Fill(cs, name, x).0, name) == CallEach(Found(cs, name), x)
    ensures Fill(cs, name, x).1 <==> NoneSelfClosing(Found(cs, name))
    decreases cs, 1
  {
    if cs != [] {
      var (c, ok) := FillIn(cs[0], name, x);
      FillInCallsEach(cs[0], name, x);
      var head := FoundIn(cs[0], name);
      var tail := Found(cs[1..], name);
      CallEachAppend(head, tail, x);
      NoneSelfClosingAppend(head, tail);
      if !ok {
        assert ([c] + cs[1..])[1..] == cs[1..];
      } else {
        var (rest, ok') := Fill(cs[1..], name, x);
        FillCallsEach(cs[1..], name, x);
        assert ([c] + rest)[1..] == rest;
      }
    }
  }

  lemma {:induction false} FillInCallsEach(c: Child, name: string, x: Child)
    ensures FoundIn(FillIn(c, name, x).0, name) == CallEach(FoundIn(c, name), x)
    ensures FillIn(c, name, x).1 <==> NoneSelfClosing(FoundIn(c, name))
    decreases c, 0
  {
    if !Matches(c, name) && c.Sub? && c.node.Tag? {
      FillCallsEach(c.node.children, name, x);
    }
  }

  lemma NoneSelfClosingAppend(a: seq<Node>, b: seq<Node>)
    ensures NoneSelfClosing(a + b) <==> NoneSelfClosing(a) && NoneSelfClosing(b)
  {
    if NoneSelfClosing(a) && NoneSelfClosing(b) {
      forall i | 0 <= i < |a + b| ensures !(a + b)[i].IsSelfClosing() {
        if i >= |a| {
          assert (a + b)[i] == b[i - |a|];
        }
      }
    }
    if NoneSelfClosing(a + b) {
      forall i | 0 <= i < |a| ensures !a[i].IsSelfClosing() {
        assert (a + b)[i] == a[i];
      }
      forall i | 0 <= i < |b| ensures !b[i].IsSelfClosing() {
        assert (a + b)[i + |a|] == b[i];
      }
    }
  }

  /** A name nothing answers to fills nothing. */
  lemma {:induction false} FillNothing(cs: seq<Child>, name: string, x: Child)
    requires Found(cs, name) == []
    ensures Fill(cs, name, x) == (cs, true)
    decreases cs, 1
  {
    if cs != [] {
      FoundAppend([cs[0]], cs[1..], name);
      assert [cs[0]] + cs[1..] == cs;
      assert Found([cs[0]], name) == FoundIn(cs[0], name);
      FillInNothing(cs[0], name, x);
      FillNothing(cs[1..], name, x);
    }
  }

  lemma {:induction false} FillInNothing(c: Child, name: string, x: Child)
    requires FoundIn(c, name) == []
    ensures FillIn(c, name, x) == (c, true)
    decreases c, 0
  {
    if c.Sub? && c.node.Tag? && !Matches(c, name) {
      FillNothing(c.node.children, name, x);
    }
  }

  /** Filling the same name with the same value again changes nothing more. */
  lemma {:induction false} FillIdempotent(cs: seq<Child>, name: string, x: Child)
    requires Fill(cs, name, x).1
    ensures Fill(Fill(cs, name, x).0, name, x) == Fill(cs, name, x)
    decreases cs, 1
  {
    if cs != [] {
      var (c, ok) := FillIn(cs[0], name, x);
      FillInIdempotent(cs[0], name, x);
      var (rest, ok') := Fill(cs[1..], name, x);
      FillIdempotent(cs[1..], name, x);
      assert ([c] + rest)[0] == c && ([c] + rest)[1..] == rest;
    }
  }

  lemma {:induction false} FillInIdempotent(c: Child, name: string, x: Child)
    requires FillIn(c, name, x).1
    ensures FillIn(FillIn(c, name, x).0, name, x) == FillIn(c, name, x)
    decreases c, 0
  {
    if !Matches(c, name) && c.Sub? && c.node.Tag? {
      FillIdempotent(c.node.children, name, x);
    }
  }

  /** The tree with the children of every node the search matches taken
      away: what filling must leave as it was. */
  function Erase(cs: seq<Child>, name: string): (r: seq<Child>)
    ensures |r| == |cs|
    decreases cs, 1
  {
    if cs == [] then [] else [EraseIn(cs[0], name)] + Erase(cs[1..], name)
  }

  function EraseIn(c: Child, name: string): (r: Child)
    ensures r.Sub? <==> c.Sub?
    decreases c, 0
  {
    if Matches(c, name) then Sub(c.node.(children := []))
    else if c.Sub? && c.node.Tag? then Sub(c.node.(children := Erase(c.node.children, name)))
    else c
  }

  /** Filling changes nothing but the children of matched nodes, whether or
      not a self-closing one stopped it. */
  lemma {:induction false} FillFrame(cs: seq<Child>, name: string, x: Child)
    ensures Erase(Fill(cs, name, x).0, name) == Erase(cs, name)
    decreases cs, 1
  {
    if cs != [] {
      var (c, ok) := FillIn(cs[0], name, x);
      FillInFrame(cs[0], name, x);
      if !ok {
        assert ([c] + cs[1..])[0] == c && ([c] + cs[1..])[1..] == cs[1..];
      } else {
        var (rest, ok') := Fill(cs[1..], name, x);
        FillFrame(cs[1..], name, x);
        assert ([c] + rest)[0] == c && ([c] + rest)[1..] == rest;
      }
    }
  }

  lemma {:induction false} FillInFrame(c: Child, name: string, x: Child)
    ensures EraseIn(FillIn(c, name, x).0, name) == EraseIn(c, name)
    decreases c, 0
  {
    if !Matches(c, name) && c.Sub? && c.node.Tag? {
      FillFrame(c.node.children, name, x);
    }
  }
}
