/** Small things several modules share. */
module Basics {
  datatype Option<+T> = None | Some(value: T)

  /** What goes over a connection. A frame with a type outside the known ones is `Unknown`. */
  datatype Frame =
    | Text(payload: string)
    | Binary(payload: string)
    | Close(code: int, reason: string)
    | Unknown(kind: int)

  ghost predicate Distinct<T>(l: seq<T>) {
    forall i, j :: 0 <= i < j < |l| ==> l[i] != l[j]
  }

  lemma DistinctMore<T>(l: seq<T>, x: T)
    requires Distinct(l) && x !in l
    ensures Distinct(l + [x])
  {}

  /** The keys of a Go map used as a set, in some order. */
  method Listing(s: set<string>) returns (l: seq<string>)
    ensures Distinct(l)
    ensures forall x :: x in l <==> x in s
    ensures |l| == |s|
  {
    l := [];
    var todo := s;
    while todo != {}
      invariant todo <= s
      invariant Distinct(l)
      invariant forall x :: x in l <==> x in s - todo
      invariant |l| + |todo| == |s|
      decreases |todo|
    {
      var x :| x in todo;
      DistinctMore(l, x);
      l := l + [x];
      todo := todo - {x};
    }
  }
}
