/** Small datatypes and sequence facts shared by every component. */
module Common {

  datatype Option<+T> = None | Some(value: T)

  /** No two positions of `s` hold the same value. */
  ghost predicate Distinct<T>(s: seq<T>) {
    forall i, j :: 0 <= i < j < |s| ==> s[i] != s[j]
  }

  function Elements<T>(s: seq<T>): set<T> {
    set x | x in s
  }

  lemma Associative<T>(a: seq<T>, b: seq<T>, c: seq<T>)
    ensures (a + b) + c == a + (b + c)
  {
  }

  /** A sequence has as many distinct values as positions exactly when nothing repeats. */
  lemma {:induction false} DistinctIffFull<T>(s: seq<T>)
    ensures |Elements(s)| <= |s|
    ensures |Elements(s)| == |s| <==> Distinct(s)
  {
    if s == [] {
      assert Elements(s) == {};
    } else {
      var n := |s| - 1;
      var front := s[..n];
      DistinctIffFull(front);
      assert s == front + [s[n]];
      assert Elements(s) == Elements(front) + {s[n]};
      if s[n] in front {
        var i :| 0 <= i < n && front[i] == s[n];
        assert s[i] == s[n];
        assert Elements(s) == Elements(front);
      } else {
        assert |Elements(s)| == |Elements(front)| + 1;
        assert Distinct(front) ==> Distinct(s);
        assert Distinct(s) ==> Distinct(front) by {
          if Distinct(s) {
            forall i, j | 0 <= i < j < |front| ensures front[i] != front[j] {
              assert s[i] != s[j];
            }
          }
        }
      }
    }
  }

  /** A subset of a finite set with as many elements is the whole set. */
  lemma {:induction false} SubsetSameSize<T>(a: set<T>, b: set<T>)
    requires a <= b
    ensures |a| <= |b|
    ensures |a| == |b| ==> a == b
  {
    if x :| x in b && x !in a {
      assert a <= b - {x};
      SubsetSameSize(a, b - {x});
    } else {
      assert a == b;
    }
  }

  // ---------------------------------------------------------------- trimming

  /** Unicode white space. */
  predicate IsSpace(c: char) {
    var u := c as int;
    || 9 <= u <= 13 || u == 32 || u == 0x85 || u == 0xA0 || u == 0x1680 || 0x2000 <= u <= 0x200A
    || u == 0x2028 || u == 0x2029 || u == 0x202F || u == 0x205F || u == 0x3000
  }

  function TrimLeft(s: string): string {
    if s != [] && IsSpace(s[0]) then TrimLeft(s[1..]) else s
  }

  /** The text without the white space around it. */
  function Trim(s: string): string {
    TrimRight(TrimLeft(s))
  }

  function TrimRight(s: string): string {
    if s != [] && IsSpace(s[|s| - 1]) then TrimRight(s[..|s| - 1]) else s
  }
}
