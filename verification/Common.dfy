/** Vocabulary shared by every module: optional values and clock readings. */
module Common {

  datatype Option<+T> = None | Some(value: T)

  /** A clock reading: microseconds (the precision the database stores) since
      Go's zero time, so that reading 0 is the one `IsZero` recognises. */
  type Time = int

  const ZERO_TIME: Time := 0
  const SECOND: int := 1_000_000
  const MINUTE: int := 60 * SECOND
  const HOUR: int := 60 * MINUTE

  function Max(a: int, b: int): int {
    if a < b then b else a
  }

  /** `ts.Truncate(d).Add(d)`: the end of the aligned window of width d that holds ts. */
  function WindowEnd(ts: Time, width: int): (end: Time)
    requires width > 0
    ensures ts < end <= ts + width
    ensures end % width == 0
  {
    MultipleOf(ts / width + 1, width);
    (ts / width + 1) * width
  }

  lemma Magnitude(q: int, width: int)
    requires width > 0
    ensures q >= 1 ==> q * width >= width
    ensures q <= -1 ==> q * width <= -width
  {
  }

  lemma MultipleOf(n: int, width: int)
    requires width > 0
    ensures n * width % width == 0 && n * width / width == n
  {
    var m := n * width;
    assert m == m / width * width + m % width;
    assert (n - m / width) * width == m % width;
    Magnitude(n - m / width, width);
  }

  /** Two instants share their window's end exactly when they lie in one aligned window. */
  lemma SameWindow(a: Time, b: Time, width: int)
    requires width > 0
    ensures WindowEnd(a, width) == WindowEnd(b, width) <==> a / width == b / width
  {
    MultipleOf(a / width + 1, width);
    MultipleOf(b / width + 1, width);
  }

  ghost predicate Distinct<T>(s: seq<T>) {
    forall i, j :: 0 <= i < j < |s| ==> s[i] != s[j]
  }

  lemma SubsetCard<T>(a: set<T>, b: set<T>)
    requires a <= b
    ensures |a| <= |b|
  {
    if a != {} {
      var x :| x in a;
      SubsetCard(a - {x}, b - {x});
    }
  }
}
