/** The nearest-candidate scan shared by both resolvers: start with
    `min_distance = float("inf")` and no winner, and for each candidate in
    order replace the winner when `distance < min_distance`. */
module Nearest {
  import opened Common

  /** `calculate_distance(lat1, lon1, lat2, lon2)`: the Haversine distance as
      a double, or an exception; its trigonometry is not modelled. */
  type Distance = (real, real, real, real) -> Outcome<Float>

  /** The scan's state (winner, smallest distance so far) after reading `ds`. */
  function Scan(ds: seq<Float>): (r: (Option<nat>, Float))
    ensures r.0.Some? ==> r.0.value < |ds| && r.1 == ds[r.0.value]
    ensures r.0.None? ==> r.1 == PosInf
  {
    if ds == [] then (None, PosInf)
    else
      var prev := Scan(ds[..|ds| - 1]);
      if FloatLess(ds[|ds| - 1], prev.1) then (Some(|ds| - 1), ds[|ds| - 1]) else prev
  }

  predicate HasFinite(ds: seq<Float>)
  {
    exists i :: 0 <= i < |ds| && ds[i].Finite?
  }

  /** `i` holds a finite distance no other finite distance undercuts, and
      every earlier finite distance is strictly larger: the first minimum. */
  predicate IsFirstMinimum(ds: seq<Float>, i: int)
  {
    && 0 <= i < |ds|
    && ds[i].Finite?
    && (forall j :: 0 <= j < |ds| && ds[j].Finite? ==> ds[i].value <= ds[j].value)
    && (forall j :: 0 <= j < i && ds[j].Finite? ==> ds[i].value < ds[j].value)
  }

  /** The scan picks nothing exactly when no distance is finite (+inf and NaN
      never beat +inf), and otherwise picks the first minimum. */
  lemma {:induction false} ScanFindsFirstMinimum(ds: seq<Float>)
    ensures Scan(ds).0.None? <==> !HasFinite(ds)
    ensures Scan(ds).0.None? ==> Scan(ds).1 == PosInf
    ensures Scan(ds).0.Some? ==> IsFirstMinimum(ds, Scan(ds).0.value)
    ensures Scan(ds).0.Some? ==> Scan(ds).1 == ds[Scan(ds).0.value]
  {
    if ds != [] {
      var n := |ds| - 1;
      var p := ds[..n];
      ScanFindsFirstMinimum(p);
      assert forall j :: 0 <= j < n ==> p[j] == ds[j];
      var prev := Scan(p);
      if FloatLess(ds[n], prev.1) {
        assert ds[n].Finite?;
        if prev.0.Some? {
          var k := prev.0.value;
          assert IsFirstMinimum(p, k);
          assert forall j :: 0 <= j < n && ds[j].Finite? ==> ds[n].value < ds[j].value by {
            forall j | 0 <= j < n && ds[j].Finite?
              ensures ds[n].value < ds[j].value
            {
              assert p[j].Finite? && p[k].value <= p[j].value;
            }
          }
        } else {
          assert forall j :: 0 <= j < n ==> !ds[j].Finite? by {
            forall j | 0 <= j < n
              ensures !ds[j].Finite?
            {
              assert !p[j].Finite?;
            }
          }
        }
        assert IsFirstMinimum(ds, n);
      } else {
        if prev.0.Some? {
          var k := prev.0.value;
          assert IsFirstMinimum(p, k);
          assert ds[n].Finite? ==> ds[k].value <= ds[n].value;
          assert IsFirstMinimum(ds, k);
        } else {
          assert !ds[n].Finite?;
          forall j | 0 <= j < |ds|
            ensures !ds[j].Finite?
          {
            if j < n {
              assert p[j] == ds[j];
            }
          }
        }
      }
    }
  }

  /** The first minimum is unique, so the scan's answer is determined. */
  lemma FirstMinimumUnique(ds: seq<Float>, i: int, j: int)
    requires IsFirstMinimum(ds, i) && IsFirstMinimum(ds, j)
    ensures i == j
  {
  }

  /** A distance strictly below every other finite one is the first minimum. */
  lemma StrictMinimumIsFirst(ds: seq<Float>, k: int)
    requires 0 <= k < |ds| && ds[k].Finite?
    requires forall j :: 0 <= j < |ds| && j != k && ds[j].Finite? ==> ds[k].value < ds[j].value
    ensures IsFirstMinimum(ds, k)
  {
  }
}
