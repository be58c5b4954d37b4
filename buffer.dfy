/** Writing a run of bytes into a larger buffer, as the record writers do
    when they fill the caller's buffer at an offset. */
module Buffer {

  /** `s` with the |x| elements from `at` on replaced by `x`. */
  function Splice<T>(s: seq<T>, at: nat, x: seq<T>): (r: seq<T>)
    requires at + |x| <= |s|
    ensures |r| == |s|
    ensures r[at..at + |x|] == x
    ensures forall i :: 0 <= i < |s| && !(at <= i < at + |x|) ==> r[i] == s[i]
  {
    s[..at] + x + s[at + |x|..]
  }

  /** Two writes that meet end to end are one write of both runs. */
  lemma SpliceAdjacent<T>(s: seq<T>, at: nat, x: seq<T>, y: seq<T>)
    requires at + |x| + |y| <= |s|
    ensures Splice(Splice(s, at, x), at + |x|, y) == Splice(s, at, x + y)
  {
    var l, r := Splice(Splice(s, at, x), at + |x|, y), Splice(s, at, x + y);
    forall i | 0 <= i < |s| ensures l[i] == r[i] {
      if at <= i < at + |x| {
        assert l[i] == Splice(s, at, x)[i] == x[i - at];
        assert r[i] == (x + y)[i - at];
      } else if at + |x| <= i < at + |x| + |y| {
        assert l[i] == y[i - at - |x|];
        assert r[i] == (x + y)[i - at];
      }
    }
  }
}
