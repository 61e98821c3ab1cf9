/** What several of the models share. */
module Basics {

  datatype Option<+T> = None | Some(value: T)

  predicate Distinct<T(==)>(s: seq<T>) {
    forall i, j :: 0 <= i < j < |s| ==> s[i] != s[j]
  }

  lemma {:induction false} SubsetSize<T>(a: set<T>, b: set<T>)
    requires a <= b
    ensures |a| <= |b|
    decreases a
  {
    if x :| x in a {
      SubsetSize(a - {x}, b - {x});
    }
  }

  /** A text that has a part free of the separator, the separator and a rest, gives both back. */
  lemma FirstPart(sep: char, p: string, rest: string, q: string, rest': string)
    requires sep !in p && sep !in q && p + ([sep] + rest) == q + ([sep] + rest')
    ensures p == q && rest == rest'
  {
    var a, b := p + ([sep] + rest), q + ([sep] + rest');
    assert a[|p|] == sep && b[|q|] == sep;
    assert forall k :: 0 <= k < |p| ==> p[k] == a[k] && p[k] in p;
    assert forall k :: 0 <= k < |q| ==> q[k] == b[k] && q[k] in q;
    assert |p| == |q|;
    assert a[..|p|] == p && b[..|q|] == q;
    assert a[|p| + 1..] == rest && b[|q| + 1..] == rest';
  }
}
