/** Ordered threshold tables: each row pairs a band of the real line with an
    outcome, and a lookup returns the outcome of the first row whose band
    contains the value. The protocol's rate-band and blood-glucose tables are
    written as such tables in ProtocolEngine. */
module Bands {
  import opened Types

  /** One end of a band: open to infinity, or closed/open at a threshold. */
  datatype Bound = Unbounded | Inclusive(at: real) | Exclusive(at: real)

  datatype Band = Band(lower: Bound, upper: Bound)

  predicate AboveLower(b: Bound, x: real) {
    match b
    case Unbounded => true
    case Inclusive(t) => t <= x
    case Exclusive(t) => t < x
  }

  predicate BelowUpper(b: Bound, x: real) {
    match b
    case Unbounded => true
    case Inclusive(t) => x <= t
    case Exclusive(t) => x < t
  }

  predicate Contains(band: Band, x: real) {
    AboveLower(band.lower, x) && BelowUpper(band.upper, x)
  }

  /** The closed band [lo, hi]. */
  function Closed(lo: real, hi: real): Band {
    Band(Inclusive(lo), Inclusive(hi))
  }

  datatype Row<T> = Row(band: Band, outcome: T)

  /** First match wins: the outcome of the earliest row whose band holds x,
      or None when no row does. */
  function FirstMatch<T>(rows: seq<Row<T>>, x: real): Option<T> {
    if rows == [] then None
    else if Contains(rows[0].band, x) then Some(rows[0].outcome)
    else FirstMatch(rows[1..], x)
  }

  /** No outcome exactly when no band holds x; otherwise the outcome is that
      of a row whose band holds x. */
  lemma {:induction false} FirstMatchSound<T>(rows: seq<Row<T>>, x: real)
    ensures FirstMatch(rows, x).None? <==> forall k :: 0 <= k < |rows| ==> !Contains(rows[k].band, x)
    ensures FirstMatch(rows, x).Some? ==>
      exists k :: 0 <= k < |rows| && Contains(rows[k].band, x) && rows[k].outcome == FirstMatch(rows, x).value
  {
    if rows != [] && !Contains(rows[0].band, x) {
      FirstMatchSound(rows[1..], x);
      assert forall k :: 1 <= k < |rows| ==> rows[k] == rows[1..][k - 1];
      if FirstMatch(rows, x).Some? {
        var j :| 0 <= j < |rows[1..]| && Contains(rows[1..][j].band, x)
          && rows[1..][j].outcome == FirstMatch(rows, x).value;
        assert rows[j + 1] == rows[1..][j];
      }
    }
  }

  /** Row k decides x when its band holds x and no earlier band does. */
  lemma {:induction false} FirstMatchAt<T>(rows: seq<Row<T>>, x: real, k: nat)
    requires k < |rows|
    requires Contains(rows[k].band, x)
    requires forall j :: 0 <= j < k ==> !Contains(rows[j].band, x)
    ensures FirstMatch(rows, x) == Some(rows[k].outcome)
  {
    if k > 0 {
      assert !Contains(rows[0].band, x);
      assert forall j :: 0 <= j < k - 1 ==> rows[1..][j] == rows[j + 1];
      FirstMatchAt(rows[1..], x, k - 1);
    }
  }
}
