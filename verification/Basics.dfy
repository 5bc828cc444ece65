/** Shared value types, and the order of texts. */
module Basics {

  datatype Option<+T> = None | Some(value: T)

  /** The order of texts by their code points, which is that of their UTF-8 bytes. */
  predicate Precedes(a: string, b: string) {
    if b == [] then false
    else if a == [] then true
    else if a[0] != b[0] then a[0] < b[0]
    else Precedes(a[1..], b[1..])
  }

  lemma {:induction false} PrecedesOneWay(a: string, b: string)
    ensures !(Precedes(a, b) && Precedes(b, a))
    ensures a != b ==> Precedes(a, b) || Precedes(b, a)
  {
    if a != [] && b != [] && a[0] == b[0] {
      PrecedesOneWay(a[1..], b[1..]);
      assert a == [a[0]] + a[1..] && b == [b[0]] + b[1..];
    }
  }

  lemma {:induction false} PrecedesBetween(a: string, b: string, c: string)
    requires Precedes(a, c)
    ensures Precedes(a, b) || Precedes(b, c)
  {
    if a != [] && b != [] && c != [] && a[0] == b[0] == c[0] {
      PrecedesBetween(a[1..], b[1..], c[1..]);
    }
  }

  lemma {:induction false} PrecedesOn(a: string, b: string, c: string)
    requires Precedes(a, b) && Precedes(b, c)
    ensures Precedes(a, c)
  {
    PrecedesOneWay(b, c);
    PrecedesBetween(a, c, b);
  }
}
