/**
 * The document walk GcodeGenerator.get_paths: a pre-order traversal of the SVG
 * element tree that pairs the `d` attribute of every reachable path element
 * with the transform accumulated from the group elements above it.
 */
module Document {
  import opened Wrappers
  import opened Affine

  /**
   * A group's `transform` attribute. Absent stands for a missing attribute;
   * Text holds the attribute's text together with the numbers the two patterns
   * `translate(tx, ty)` and `matrix(a, b, c, d, e, f)` recognise in it (the
   * first match of each), or None where a pattern does not match.
   */
  datatype TransformAttr =
    | Absent
    | Text(text: string, translate: Option<(real, real)>, matrix: Option<Matrix>)

  /** The `d` attribute of an element, missing or its text. */
  type PathData = Option<string>

  /** An element: its qualified tag, `transform` and `d` attributes, and children in document order. */
  datatype Node = Node(tag: string, transform: TransformAttr, d: PathData, children: seq<Node>)

  /** One result of the walk: a path's data and the matrix in force at the path. */
  datatype PathRecord = PathRecord(d: PathData, matrix: Matrix)

  predicate EndsWith(s: string, suffix: string)
  {
    |suffix| <= |s| && s[|s| - |suffix|..] == suffix
  }

  predicate IsSvg(n: Node) { EndsWith(n.tag, "}svg") }
  predicate IsGroup(n: Node) { EndsWith(n.tag, "}g") }
  predicate IsPath(n: Node) { EndsWith(n.tag, "}path") }

  /**
   * The matrix a group attribute contributes, if any. An absent or empty
   * attribute contributes none; otherwise a matrix(...) match wins over a
   * translate(...) match, and with neither there is none.
   */
  function LocalMatrix(attr: TransformAttr): (r: Option<Matrix>)
    ensures attr.Absent? || attr.text == "" ==> r == None
    ensures attr.Text? && attr.text != "" && attr.matrix.Some? ==> r == attr.matrix
    ensures attr.Text? && attr.text != "" && attr.matrix.None? && attr.translate.Some? ==>
              r == Some(Translation(attr.translate.value.0, attr.translate.value.1))
    ensures attr.Text? && attr.matrix.None? && attr.translate.None? ==> r == None
  {
    match attr
    case Absent => None
    case Text(text, translate, matrix) =>
      if text == "" then None
      else if matrix.Some? then matrix
      else if translate.Some? then Some(Translation(translate.value.0, translate.value.1))
      else None
  }

  /** The matrix a group's children are walked with, given the incoming one. */
  function GroupMatrix(attr: TransformAttr, m: Matrix): (r: Matrix)
    ensures LocalMatrix(attr).None? ==> r == m
  {
    match LocalMatrix(attr)
    case None => m
    case Some(local) => Compose(m, local)
  }

  /** The walk, as a function: what get_paths(n, m) returns. */
  function Paths(n: Node, m: Matrix): seq<PathRecord>
    decreases n, 1
  {
    if IsSvg(n) then ChildPaths(n.children, m)
    else if IsGroup(n) then ChildPaths(n.children, GroupMatrix(n.transform, m))
    else if IsPath(n) then [PathRecord(n.d, m)]
    else []
  }

  /** The walks of the children cs, concatenated in document order. */
  function ChildPaths(cs: seq<Node>, m: Matrix): seq<PathRecord>
    decreases cs, 0
  {
    if cs == [] then [] else ChildPaths(cs[..|cs| - 1], m) + Paths(cs[|cs| - 1], m)
  }

  /** get_paths: the result list grows by `+=` for every child and by append for a path. */
  method GetPaths(n: Node, matrix: Matrix) returns (result: seq<PathRecord>)
    ensures result == Paths(n, matrix)
    decreases n
  {
    result := [];
    var m := matrix;
    if IsSvg(n) {
      for i := 0 to |n.children|
        invariant result == ChildPaths(n.children[..i], m)
      {
        assert n.children[..i + 1][..i] == n.children[..i];
        var sub := GetPaths(n.children[i], m);
        result := result + sub;
      }
      assert n.children[..|n.children|] == n.children;
    } else if IsGroup(n) {
      if n.transform.Text? && n.transform.text != "" {
        var nmatrix: Option<Matrix> := None;
        if n.transform.translate.Some? {
          var (tx, ty) := n.transform.translate.value;
          nmatrix := Some(Matrix(1.0, 0.0, 0.0, 1.0, tx, ty));
        }
        if n.transform.matrix.Some? {
          nmatrix := n.transform.matrix;
        }
        if nmatrix.Some? {
          m := Compose(m, nmatrix.value);
        }
      }
      assert m == GroupMatrix(n.transform, matrix);
      for i := 0 to |n.children|
        invariant result == ChildPaths(n.children[..i], m)
      {
        assert n.children[..i + 1][..i] == n.children[..i];
        var sub := GetPaths(n.children[i], m);
        result := result + sub;
      }
      assert n.children[..|n.children|] == n.children;
    } else if IsPath(n) {
      result := result + [PathRecord(n.d, m)];
    }
  }

  // Properties of the walk.

  /** A tag ends with at most one of the three suffixes the walk tests. */
  lemma {:induction false} TagKindsExclusive(n: Node)
    ensures !(IsSvg(n) && IsGroup(n)) && !(IsSvg(n) && IsPath(n)) && !(IsGroup(n) && IsPath(n))
  {
    var t := n.tag;
    if IsSvg(n) {
      assert t[|t| - 2] == 'v';
    }
    if IsPath(n) {
      assert t[|t| - 1] == 'h';
    }
  }

  /** The concatenation of a sequence of record lists. */
  function Concat(parts: seq<seq<PathRecord>>): seq<PathRecord>
  {
    if parts == [] then [] else parts[0] + Concat(parts[1..])
  }

  lemma {:induction false} ConcatAppend(parts: seq<seq<PathRecord>>, last: seq<PathRecord>)
    ensures Concat(parts + [last]) == Concat(parts) + last
  {
    if parts == [] {
      assert [last][1..] == [];
    } else {
      assert (parts + [last])[1..] == parts[1..] + [last];
      ConcatAppend(parts[1..], last);
    }
  }

  /** The walk of a list of siblings is the in-order concatenation of their walks. */
  lemma {:induction false} ChildPathsConcat(cs: seq<Node>, m: Matrix)
    ensures ChildPaths(cs, m) == Concat(seq(|cs|, i requires 0 <= i < |cs| => Paths(cs[i], m)))
  {
    if cs != [] {
      var init := cs[..|cs| - 1];
      ChildPathsConcat(init, m);
      var parts := seq(|cs|, i requires 0 <= i < |cs| => Paths(cs[i], m));
      assert parts == seq(|init|, i requires 0 <= i < |init| => Paths(init[i], m)) + [Paths(cs[|cs| - 1], m)];
      ConcatAppend(seq(|init|, i requires 0 <= i < |init| => Paths(init[i], m)), Paths(cs[|cs| - 1], m));
    }
  }

  lemma {:induction false} ChildPathsAppend(a: seq<Node>, b: seq<Node>, m: Matrix)
    ensures ChildPaths(a + b, m) == ChildPaths(a, m) + ChildPaths(b, m)
    decreases |b|
  {
    if b == [] {
      assert a + b == a;
    } else {
      var init := b[..|b| - 1];
      assert (a + b)[..|a + b| - 1] == a + init;
      ChildPathsAppend(a, init, m);
    }
  }

  /** An svg element walks every child with the matrix it received. */
  lemma SvgPassesMatrix(n: Node, m: Matrix)
    requires IsSvg(n)
    ensures Paths(n, m) == ChildPaths(n.children, m)
  {
  }

  /** A path element yields exactly its own record, whatever its children. */
  lemma PathYieldsOne(n: Node, m: Matrix, cs: seq<Node>)
    requires IsPath(n)
    ensures Paths(n, m) == [PathRecord(n.d, m)]
    ensures Paths(n.(children := cs), m) == Paths(n, m)
  {
    TagKindsExclusive(n);
    TagKindsExclusive(n.(children := cs));
  }

  /** Any other element yields nothing and is not descended into. */
  lemma OtherYieldsNothing(n: Node, m: Matrix)
    requires !IsSvg(n) && !IsGroup(n) && !IsPath(n)
    ensures Paths(n, m) == []
  {
  }

  /** The transform selection of a group, case by case. */
  lemma GroupSelection(attr: TransformAttr, m: Matrix)
    ensures attr.Absent? || attr.text == "" ==> GroupMatrix(attr, m) == m
    ensures attr.Text? && attr.translate.None? && attr.matrix.None? ==> GroupMatrix(attr, m) == m
    ensures attr.Text? && attr.text != "" && attr.matrix.Some? ==> GroupMatrix(attr, m) == Compose(m, attr.matrix.value)
    ensures attr.Text? && attr.text != "" && attr.matrix.None? && attr.translate.Some? ==>
              GroupMatrix(attr, m) == Compose(m, Translation(attr.translate.value.0, attr.translate.value.1))
  {
  }

  /**
   * A child point reaches the incoming frame through the group's own matrix
   * first and the incoming matrix afterwards.
   */
  lemma GroupMatrixApply(attr: TransformAttr, m: Matrix, p: Point)
    requires LocalMatrix(attr).Some?
    ensures Apply(GroupMatrix(attr, m), p) == Apply(m, Apply(LocalMatrix(attr).value, p))
  {
    ApplyCompose(m, LocalMatrix(attr).value, p);
  }

  /** A group whose attribute stands for the identity is walked as if it had none. */
  lemma IdentityAttributeIsTransparent(attr: TransformAttr, m: Matrix)
    requires LocalMatrix(attr) == Some(Identity())
    ensures GroupMatrix(attr, m) == m
  {
    ComposeIdentityRight(m);
  }

  /** The records' matrices, each composed under a parent matrix p. */
  function Under(p: Matrix, rs: seq<PathRecord>): seq<PathRecord>
  {
    seq(|rs|, i requires 0 <= i < |rs| => PathRecord(rs[i].d, Compose(p, rs[i].matrix)))
  }

  lemma GroupMatrixUnder(attr: TransformAttr, p: Matrix, m: Matrix)
    ensures GroupMatrix(attr, Compose(p, m)) == Compose(p, GroupMatrix(attr, m))
  {
    if LocalMatrix(attr).Some? {
      ComposeAssociative(p, m, LocalMatrix(attr).value);
    }
  }

  /**
   * Walking under the matrix p*m is walking under m and then putting p in
   * front of every record's matrix: every record's matrix is the incoming
   * matrix times the product of the group transforms above the path.
   */
  lemma {:induction false} PathsUnder(n: Node, p: Matrix, m: Matrix)
    ensures Paths(n, Compose(p, m)) == Under(p, Paths(n, m))
    decreases n, 1
  {
    if IsSvg(n) {
      ChildPathsUnder(n.children, p, m);
    } else if IsGroup(n) {
      GroupMatrixUnder(n.transform, p, m);
      ChildPathsUnder(n.children, p, GroupMatrix(n.transform, m));
    }
  }

  lemma {:induction false} ChildPathsUnder(cs: seq<Node>, p: Matrix, m: Matrix)
    ensures ChildPaths(cs, Compose(p, m)) == Under(p, ChildPaths(cs, m))
    decreases cs, 0
  {
    if cs != [] {
      ChildPathsUnder(cs[..|cs| - 1], p, m);
      PathsUnder(cs[|cs| - 1], p, m);
      var a, b := ChildPaths(cs[..|cs| - 1], m), Paths(cs[|cs| - 1], m);
      assert Under(p, a + b) == Under(p, a) + Under(p, b);
    }
  }

  /** The path data the walk yields, in order. */
  function DataOf(rs: seq<PathRecord>): seq<PathData>
  {
    seq(|rs|, i requires 0 <= i < |rs| => rs[i].d)
  }

  /** Which paths are found, and in which order, does not depend on the matrices. */
  lemma {:induction false} DataIndependentOfMatrix(n: Node, m1: Matrix, m2: Matrix)
    ensures DataOf(Paths(n, m1)) == DataOf(Paths(n, m2))
    decreases n, 1
  {
    if IsSvg(n) {
      ChildDataIndependentOfMatrix(n.children, m1, m2);
    } else if IsGroup(n) {
      ChildDataIndependentOfMatrix(n.children, GroupMatrix(n.transform, m1), GroupMatrix(n.transform, m2));
    }
  }

  lemma {:induction false} ChildDataIndependentOfMatrix(cs: seq<Node>, m1: Matrix, m2: Matrix)
    ensures DataOf(ChildPaths(cs, m1)) == DataOf(ChildPaths(cs, m2))
    decreases cs, 0
  {
    if cs != [] {
      var init, last := cs[..|cs| - 1], cs[|cs| - 1];
      ChildDataIndependentOfMatrix(init, m1, m2);
      DataIndependentOfMatrix(last, m1, m2);
      var a1, b1 := ChildPaths(init, m1), Paths(last, m1);
      var a2, b2 := ChildPaths(init, m2), Paths(last, m2);
      assert DataOf(a1 + b1) == DataOf(a1) + DataOf(b1);
      assert DataOf(a2 + b2) == DataOf(a2) + DataOf(b2);
    }
  }

  /** No group of the subtree that the walk enters contributes a matrix. */
  predicate Untransformed(n: Node)
    decreases n
  {
    (IsSvg(n) || IsGroup(n)) ==>
      && (IsGroup(n) && !IsSvg(n) ==> LocalMatrix(n.transform).None?)
      && forall i :: 0 <= i < |n.children| ==> Untransformed(n.children[i])
  }

  /** Without effective group transforms every record carries the incoming matrix. */
  lemma {:induction false} UntransformedKeepsMatrix(n: Node, m: Matrix)
    requires Untransformed(n)
    ensures forall r :: r in Paths(n, m) ==> r.matrix == m
    decreases n, 1
  {
    if IsSvg(n) || IsGroup(n) {
      ChildUntransformedKeepsMatrix(n.children, m);
    }
  }

  lemma {:induction false} ChildUntransformedKeepsMatrix(cs: seq<Node>, m: Matrix)
    requires forall i :: 0 <= i < |cs| ==> Untransformed(cs[i])
    ensures forall r :: r in ChildPaths(cs, m) ==> r.matrix == m
    decreases cs, 0
  {
    if cs != [] {
      ChildUntransformedKeepsMatrix(cs[..|cs| - 1], m);
      UntransformedKeepsMatrix(cs[|cs| - 1], m);
    }
  }
}
