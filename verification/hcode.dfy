/** Hierarchy codes of the category tree (services/vishwakarmaService.js):
    a root category's code is its partner id, a child's code is its parent's
    code, a dot, and the child's partner id ("12", "12.7", "12.7.3"). */
module Hcode {
  import opened JsValues

  const Separator: char := '.'

  /** Code of a root category, `String(serviceCategoryId)`. */
  function RootCode(categoryId: nat): string {
    DecimalString(categoryId)
  }

  /** Code of a child node: the parent's code plus one more segment. */
  function ChildCode(parent: string, id: nat): string {
    parent + [Separator] + DecimalString(id)
  }

  /** Code of the node reached by following the partner ids in `path` from
      a root: `path[0]` is the root category id. */
  function PathCode(path: seq<nat>): string
    requires |path| >= 1
  {
    if |path| == 1 then RootCode(path[0])
    else ChildCode(PathCode(path[..|path| - 1]), path[|path| - 1])
  }

  /** Everything before the last separator of a code, or None when the code
      has a single segment (a root). */
  function ParentCode(h: string): Option<string> {
    if |h| == 0 then None
    else if h[|h| - 1] == Separator then Some(h[..|h| - 1])
    else ParentCode(h[..|h| - 1])
  }

  predicate NoSeparator(s: string) {
    forall i :: 0 <= i < |s| ==> s[i] != Separator
  }

  lemma DigitsHaveNoSeparator(s: string)
    requires AllDigits(s)
    ensures NoSeparator(s)
  {
  }

  lemma {:induction false} ParentCodeOfSegment(s: string)
    requires NoSeparator(s)
    ensures ParentCode(s) == None
  {
    if |s| > 0 {
      ParentCodeOfSegment(s[..|s| - 1]);
    }
  }

  lemma {:induction false} ParentCodeAfterSegment(p: string, s: string)
    requires NoSeparator(s)
    ensures ParentCode(p + [Separator] + s) == Some(p)
  {
    var h := p + [Separator] + s;
    if |s| == 0 {
      assert h[..|h| - 1] == p;
    } else {
      assert h[..|h| - 1] == p + [Separator] + s[..|s| - 1];
      ParentCodeAfterSegment(p, s[..|s| - 1]);
    }
  }

  /** A root code has no parent. */
  lemma RootHasNoParent(categoryId: nat)
    ensures ParentCode(RootCode(categoryId)) == None
  {
    DigitsHaveNoSeparator(DecimalString(categoryId));
    ParentCodeOfSegment(DecimalString(categoryId));
  }

  /** Stripping the last segment of a child's code gives back its parent's
      code: a code names its parent. */
  lemma ChildNamesParent(parent: string, id: nat)
    ensures ParentCode(ChildCode(parent, id)) == Some(parent)
  {
    DigitsHaveNoSeparator(DecimalString(id));
    ParentCodeAfterSegment(parent, DecimalString(id));
  }

  /** Two child codes are equal only for the same parent and the same id. */
  lemma ChildCodeInjective(p: string, a: nat, q: string, b: nat)
    requires ChildCode(p, a) == ChildCode(q, b)
    ensures p == q && a == b
  {
    ChildNamesParent(p, a);
    ChildNamesParent(q, b);
    var h := ChildCode(p, a);
    assert h[|p| + 1..] == DecimalString(a);
    assert h[|q| + 1..] == DecimalString(b);
    DecimalStringInjective(a, b);
  }

  /** A code encodes the exact ancestor chain: different id paths never
      share a code. */
  lemma {:induction false} PathCodeInjective(p1: seq<nat>, p2: seq<nat>)
    requires |p1| >= 1 && |p2| >= 1
    requires PathCode(p1) == PathCode(p2)
    ensures p1 == p2
  {
    if |p1| == 1 && |p2| == 1 {
      DecimalStringInjective(p1[0], p2[0]);
    } else if |p1| == 1 {
      RootHasNoParent(p1[0]);
      ChildNamesParent(PathCode(p2[..|p2| - 1]), p2[|p2| - 1]);
    } else if |p2| == 1 {
      RootHasNoParent(p2[0]);
      ChildNamesParent(PathCode(p1[..|p1| - 1]), p1[|p1| - 1]);
    } else {
      ChildCodeInjective(PathCode(p1[..|p1| - 1]), p1[|p1| - 1], PathCode(p2[..|p2| - 1]), p2[|p2| - 1]);
      PathCodeInjective(p1[..|p1| - 1], p2[..|p2| - 1]);
      assert p1 == p1[..|p1| - 1] + [p1[|p1| - 1]];
      assert p2 == p2[..|p2| - 1] + [p2[|p2| - 1]];
    }
  }
}
