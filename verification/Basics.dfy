/** What several modules share. */
module Basics {

  datatype Option<+T> = None | Some(value: T)

  /** Unicode's White_Space, which Rust's `trim` removes. */
  predicate Blank(c: char) {
    || '\t' <= c <= '\r' || c == ' ' || c == '\U{85}' || c == '\U{A0}' || c == '\U{1680}'
    || '\U{2000}' <= c <= '\U{200A}' || c == '\U{2028}' || c == '\U{2029}'
    || c == '\U{202F}' || c == '\U{205F}' || c == '\U{3000}'
  }

  lemma {:induction false} SubsetIsSmaller<T>(a: set<T>, b: set<T>)
    requires a <= b
    ensures |a| <= |b|
  {
    if a != {} {
      var x :| x in a;
      SubsetIsSmaller(a - {x}, b - {x});
    }
  }

  lemma {:induction false} ElementCount<T>(items: seq<T>)
    ensures |set x | x in items| <= |items|
    ensures (forall i, j :: 0 <= i < j < |items| ==> items[i] != items[j]) ==> |set x | x in items| == |items|
  {
    if items != [] {
      ElementCount(items[1..]);
      assert (set x | x in items) == (set x | x in items[1..]) + {items[0]};
    }
  }
}
