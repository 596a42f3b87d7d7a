/**
 * The descending threshold scan shared by the server's level table and by
 * every theme's rank table: the highest index whose threshold is at or below
 * the value, or index 0 when every threshold is above it.
 */
module RankScan {

  /** The scan restricted to the first n thresholds. */
  function ScanDown(ths: seq<int>, x: int, n: nat): (i: nat)
    requires n <= |ths|
    ensures n == 0 ==> i == 0
    ensures n > 0 ==> i < n
    ensures (exists j :: 0 <= j < n && ths[j] <= x) ==> ths[i] <= x
    ensures forall j :: i < j < n ==> ths[j] > x
    ensures (forall j :: 0 <= j < n ==> ths[j] > x) ==> i == 0
  {
    if n == 0 then 0
    else if x >= ths[n - 1] then n - 1
    else ScanDown(ths, x, n - 1)
  }

  function LastAtOrBelow(ths: seq<int>, x: int): nat
    requires |ths| > 0
  {
    ScanDown(ths, x, |ths|)
  }

  /** The loop `for (i = len - 1; i >= 0; i--) if (x >= t[i]) return i;` with its fall-back to 0. */
  method Scan(ths: seq<int>, x: int) returns (i: nat)
    requires |ths| > 0
    ensures i == LastAtOrBelow(ths, x)
  {
    var k := |ths|;
    while k > 0
      invariant 0 <= k <= |ths|
      invariant ScanDown(ths, x, k) == ScanDown(ths, x, |ths|)
    {
      if x >= ths[k - 1] {
        return k - 1;
      }
      k := k - 1;
    }
    return 0;
  }

  /** A larger value never selects a lower entry. */
  lemma {:induction false} ScanMonotone(ths: seq<int>, x1: int, x2: int)
    requires |ths| > 0
    requires x1 <= x2
    ensures LastAtOrBelow(ths, x1) <= LastAtOrBelow(ths, x2)
  {
    if exists j :: 0 <= j < |ths| && ths[j] <= x1 {
      assert ths[LastAtOrBelow(ths, x1)] <= x2;
    }
  }

  predicate StrictlyAscending(ths: seq<int>) {
    forall a, b :: 0 <= a < b < |ths| ==> ths[a] < ths[b]
  }

  /**
   * Moving from x1 up to x2 selects a later entry exactly when some
   * threshold lies in (x1, x2].
   */
  lemma CrossedIff(ths: seq<int>, x1: int, x2: int)
    requires |ths| > 0 && StrictlyAscending(ths) && ths[0] <= x1 <= x2
    ensures LastAtOrBelow(ths, x1) < LastAtOrBelow(ths, x2) <==> exists k :: 0 <= k < |ths| && x1 < ths[k] <= x2
  {
    var i := LastAtOrBelow(ths, x1);
    var j := LastAtOrBelow(ths, x2);
    assert ths[i] <= x1 && ths[j] <= x2;
    if i < j {
      assert x1 < ths[j] <= x2;
    }
    if exists k :: 0 <= k < |ths| && x1 < ths[k] <= x2 {
      var k :| 0 <= k < |ths| && x1 < ths[k] <= x2;
      assert i < k <= j;
    }
  }

  /** On strictly ascending thresholds the scan picks exactly the band containing x. */
  lemma BandOf(ths: seq<int>, x: int, i: nat)
    requires |ths| > 0
    requires forall a, b :: 0 <= a < b < |ths| ==> ths[a] < ths[b]
    requires i < |ths| && ths[i] <= x && (i + 1 == |ths| || x < ths[i + 1])
    ensures LastAtOrBelow(ths, x) == i
  {
    assert exists j :: 0 <= j < |ths| && ths[j] <= x;
    assert forall j :: i < j < |ths| ==> ths[j] >= ths[i + 1];
  }
}
