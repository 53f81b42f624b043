/** Shared vocabulary of the match engine: coordinates, axes, errors and a few
    facts about distinct sequences used by the sinking proofs. */
module Common {

  datatype Option<T> = None | Some(value: T)

  /** The exceptions the engine throws. */
  datatype Error =
    | InvalidPositionCount  // a ship is given a position list of the wrong length
    | OutOfBounds           // an attack coordinate lies outside the grid
    | ShipNotFound          // a hit cell names no ship of the roster
    | PlayerNotFound        // a room operation dereferences a missing player entry

  /** The outcome of an operation that may throw. */
  datatype Result<T> = Ok(value: T) | Err(error: Error)

  /** Side length of every grid. */
  const BoardSize: int := 10

  /** A grid coordinate. */
  datatype Pos = Pos(row: int, col: int)

  /** 'x' places a ship along a row, 'y' along a column. */
  datatype Axis = X | Y

  predicate InBounds(p: Pos) {
    0 <= p.row < BoardSize && 0 <= p.col < BoardSize
  }

  predicate AllInBounds(ps: seq<Pos>) {
    forall p :: p in ps ==> InBounds(p)
  }

  predicate Distinct<T(==)>(s: seq<T>) {
    forall i, j :: 0 <= i < j < |s| ==> s[i] != s[j]
  }

  function Elements<T(==)>(s: seq<T>): set<T> {
    set x | x in s
  }

  lemma SubsetCard<T>(a: set<T>, b: set<T>)
    requires a <= b
    ensures |a| <= |b|
    decreases |a|
  {
    if a != {} {
      var x :| x in a;
      SubsetCard(a - {x}, b - {x});
    }
  }

  lemma SubsetCardEq<T>(a: set<T>, b: set<T>)
    requires a <= b && |a| >= |b|
    ensures a == b
  {
    if a != b {
      var x :| x in b && x !in a;
      SubsetCard(a, b - {x});
    }
  }

  lemma {:induction false} ElementsCard<T>(s: seq<T>)
    ensures |Elements(s)| <= |s|
    ensures Distinct(s) ==> |Elements(s)| == |s|
  {
    if s != [] {
      var t := s[1..];
      ElementsCard(t);
      assert Elements(s) == Elements(t) + {s[0]};
      if Distinct(s) {
        assert s[0] !in t;
        assert Distinct(t) by {
          forall i, j | 0 <= i < j < |t| ensures t[i] != t[j] {
            assert t[i] == s[i + 1] && t[j] == s[j + 1];
          }
        }
      }
    }
  }

  /** Pigeonhole: a distinct sequence whose elements all occur in a sequence of
      the same length covers every element of that sequence. */
  lemma DistinctCovers<T>(a: seq<T>, b: seq<T>)
    requires Distinct(a) && |a| == |b|
    requires forall i :: 0 <= i < |a| ==> a[i] in b
    ensures forall x :: x in b ==> x in a
  {
    ElementsCard(a);
    ElementsCard(b);
    assert Elements(a) <= Elements(b);
    SubsetCardEq(Elements(a), Elements(b));
    forall x | x in b ensures x in a {
      assert x in Elements(b);
    }
  }
}
