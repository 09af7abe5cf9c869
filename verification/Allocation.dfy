/** Capped target weights from scores, one per ticker in dictionary order. */
module Allocation {
  import opened Rounding

  const NO_SURPLUS := 0.0000000001
  const BELOW_CAP := 0.000000000001

  function Sum(s: seq<real>): real { if s == [] then 0.0 else Sum(s[..|s| - 1]) + s[|s| - 1] }

  // -------------------------------------------------------------------------
  // The loop, iteration by iteration
  // -------------------------------------------------------------------------

  function Shares(scores: seq<real>): seq<real>
    requires Sum(scores) > 0.0
  {
    seq(|scores|, i requires 0 <= i < |scores| => scores[i] / Sum(scores))
  }

  function Clip(w: seq<real>, cap: real): seq<real> {
    seq(|w|, i requires 0 <= i < |w| => Min(w[i], cap))
  }

  /** What clipping takes away. */
  function Surplus(w: seq<real>, cap: real): real {
    Sum(seq(|w|, i requires 0 <= i < |w| => w[i] - Min(w[i], cap)))
  }

  predicate Under(c: real, cap: real) { c < cap - BELOW_CAP }

  /** The weights still below the cap; the others count as zero. */
  function Room(c: seq<real>, cap: real): seq<real> {
    seq(|c|, i requires 0 <= i < |c| => if Under(c[i], cap) then c[i] else 0.0)
  }

  /** The loop goes round again: there is a surplus and somebody to give it to. */
  predicate Redistributes(w: seq<real>, cap: real) {
    Surplus(w, cap) >= NO_SURPLUS
    && (exists i :: 0 <= i < |w| && Under(Clip(w, cap)[i], cap))
    && Sum(Room(Clip(w, cap), cap)) > 0.0
  }

  function Grown(c: real, surplus: real, total: real): real
    requires total != 0.0
  {
    c + surplus * (c / total)
  }

  /** One redistribution: the weights below the cap grow in proportion, and are clipped again. */
  function Refill(w: seq<real>, cap: real): seq<real>
    requires Redistributes(w, cap)
  {
    var c := Clip(w, cap);
    seq(|w|, i requires 0 <= i < |w| =>
      if Under(c[i], cap) then Min(Grown(c[i], Surplus(w, cap), Sum(Room(c, cap))), cap) else c[i])
  }

  function Iterate(w: seq<real>, cap: real, rounds: nat): seq<real>
    decreases rounds
  {
    if rounds == 0 || !Redistributes(w, cap) then w else Iterate(Refill(w, cap), cap, rounds - 1)
  }

  function Scale(w: seq<real>, exposure: real): seq<real> {
    seq(|w|, i requires 0 <= i < |w| => w[i] * exposure)
  }

  function TargetWeights(scores: seq<real>, cap: real, exposure: real): seq<real> {
    if scores == [] || Sum(scores) <= 0.0 then []
    else Scale(Clip(Iterate(Shares(scores), cap, |scores|), cap), exposure)
  }

  method BuildTargetWeights(scores: seq<real>, cap: real, exposure: real) returns (result: seq<real>)
    ensures result == TargetWeights(scores, cap, exposure)
  {
    hide Sum, Surplus, Under, Grown;
    if scores == [] || Sum(scores) <= 0.0 {
      return [];
    }
    var weights := Shares(scores);
    var rounds: nat := |scores|;
    while rounds > 0
      invariant Iterate(weights, cap, rounds) == Iterate(Shares(scores), cap, |scores|)
    {
      var capped := Clip(weights, cap);
      var surplus := Surplus(weights, cap);
      if surplus < NO_SURPLUS {
        break;
      }
      if !exists i :: 0 <= i < |capped| && Under(capped[i], cap) {
        break;
      }
      var total := Sum(Room(capped, cap));
      if total <= 0.0 {
        break;
      }
      weights := GiveSurplus(weights, cap);
      rounds := rounds - 1;
    }
    result := Scale(Clip(weights, cap), exposure);
  }

  /** The inner loop, which updates the clipped weights in place. */
  method GiveSurplus(w: seq<real>, cap: real) returns (capped: seq<real>)
    requires Redistributes(w, cap)
    ensures capped == Refill(w, cap)
  {
    hide Sum, Surplus;
    capped := Clip(w, cap);
    ghost var before := capped;
    var surplus, total := Surplus(w, cap), Sum(Room(capped, cap));
    for i := 0 to |w|
      invariant |capped| == |w|
      invariant forall k :: 0 <= k < i ==> capped[k] == Refill(w, cap)[k]
      invariant forall k :: i <= k < |w| ==> capped[k] == before[k]
    {
      if Under(capped[i], cap) {
        var grown := capped[i] + surplus * (capped[i] / total);
        capped := capped[i := Min(grown, cap)];
      }
    }
  }

  // -------------------------------------------------------------------------
  // Sums
  // -------------------------------------------------------------------------

  lemma {:induction false} SumAtMost(a: seq<real>, b: seq<real>)
    requires |a| == |b| && forall i :: 0 <= i < |a| ==> a[i] <= b[i]
    ensures Sum(a) <= Sum(b)
    ensures Sum(a) == Sum(b) ==> a == b
  {
    if a != [] {
      var n := |a| - 1;
      SumAtMost(a[..n], b[..n]);
      assert a == a[..n] + [a[n]] && b == b[..n] + [b[n]];
    }
  }

  lemma {:induction false} SumZero(a: seq<real>)
    requires forall i :: 0 <= i < |a| ==> a[i] == 0.0
    ensures Sum(a) == 0.0
  {
    if a != [] {
      SumZero(a[..|a| - 1]);
    }
  }

  /** Sums are linear. */
  lemma {:induction false} SumLinear(a: seq<real>, b: seq<real>, k: real, c: seq<real>)
    requires |a| == |b| == |c| && forall i :: 0 <= i < |a| ==> c[i] == a[i] + k * b[i]
    ensures Sum(c) == Sum(a) + k * Sum(b)
  {
    if a != [] {
      var n := |a| - 1;
      SumLinear(a[..n], b[..n], k, c[..n]);
      assert Sum(c) == Sum(a[..n]) + k * Sum(b[..n]) + (a[n] + k * b[n]);
      Distribute(k, Sum(b[..n]), b[n]);
    }
  }

  lemma Distribute(k: real, x: real, y: real)
    ensures k * (x + y) == k * x + k * y
  {
  }

  // -------------------------------------------------------------------------
  // What the weights satisfy
  // -------------------------------------------------------------------------

  /** Within the cap there is no surplus, so nothing is redistributed. */
  lemma NothingToGive(w: seq<real>, cap: real)
    requires forall i :: 0 <= i < |w| ==> w[i] <= cap
    ensures Clip(w, cap) == w && Surplus(w, cap) == 0.0 && !Redistributes(w, cap)
  {
    SumZero(seq(|w|, i requires 0 <= i < |w| => w[i] - Min(w[i], cap)));
  }

  lemma RefillWithinCap(w: seq<real>, cap: real)
    requires Redistributes(w, cap)
    ensures |Refill(w, cap)| == |w| && forall i :: 0 <= i < |w| ==> Refill(w, cap)[i] <= cap
  {
  }

  function OnePass(scores: seq<real>, cap: real): seq<real>
    requires Sum(scores) > 0.0
  {
    var shares := Shares(scores);
    if Redistributes(shares, cap) then Refill(shares, cap) else Clip(shares, cap)
  }

  /** Because the loop clips inside, it redistributes at most once, however many rounds it is given. */
  lemma OnePassForm(scores: seq<real>, cap: real, exposure: real)
    requires scores != [] && Sum(scores) > 0.0
    ensures TargetWeights(scores, cap, exposure) == Scale(OnePass(scores, cap), exposure)
  {
    hide Sum, Surplus, Under, Redistributes, Refill;
    var shares := Shares(scores);
    if Redistributes(shares, cap) {
      var once := Refill(shares, cap);
      RefillWithinCap(shares, cap);
      NothingToGive(once, cap);
      assert Iterate(once, cap, |scores| - 1) == once;
      assert Iterate(shares, cap, |scores|) == once;
    }
  }

  lemma {:induction false} SharesSumToOne(scores: seq<real>)
    requires Sum(scores) > 0.0
    ensures Sum(Shares(scores)) == 1.0
    ensures (forall i :: 0 <= i < |scores| ==> scores[i] >= 0.0) ==>
              forall i :: 0 <= i < |scores| ==> Shares(scores)[i] >= 0.0
    ensures forall i, j :: 0 <= i < |scores| && 0 <= j < |scores| && scores[i] <= scores[j] ==>
              Shares(scores)[i] <= Shares(scores)[j]
  {
    hide Sum;
    var total := Sum(scores);
    var none := seq(|scores|, _ => 0.0);
    SumZero(none);
    forall i | 0 <= i < |scores|
      ensures Shares(scores)[i] == none[i] + (1.0 / total) * scores[i]
    {
      Quotient(scores[i], total);
    }
    SumLinear(none, scores, 1.0 / total, Shares(scores));
    Quotient(total, total);
    forall i | 0 <= i < |scores| && scores[i] >= 0.0
      ensures Shares(scores)[i] >= 0.0
    {
      QuotientOrder(0.0, scores[i], total);
    }
    forall i, j | 0 <= i < |scores| && 0 <= j < |scores| && scores[i] <= scores[j]
      ensures Shares(scores)[i] <= Shares(scores)[j]
    {
      QuotientOrder(scores[i], scores[j], total);
    }
  }

  lemma Quotient(x: real, y: real)
    requires y != 0.0
    ensures x / y == (1.0 / y) * x && y / y == 1.0
  {
  }

  lemma QuotientOrder(x: real, y: real, z: real)
    requires x <= y && z > 0.0
    ensures x / z <= y / z && 0.0 / z == 0.0
  {
  }

  /** The clipped weights and the surplus add up to the shares. */
  lemma ClipSum(w: seq<real>, cap: real)
    ensures Sum(Clip(w, cap)) + Surplus(w, cap) == Sum(w) && Surplus(w, cap) >= 0.0
  {
    var taken := seq(|w|, i requires 0 <= i < |w| => w[i] - Min(w[i], cap));
    SumLinear(Clip(w, cap), taken, 1.0, w);
    var none := seq(|w|, _ => 0.0);
    SumZero(none);
    SumAtMost(none, taken);
  }

  /** What everybody would get if the second clip did not bind. */
  function Unclipped(w: seq<real>, cap: real): seq<real>
    requires Redistributes(w, cap)
  {
    var c := Clip(w, cap);
    seq(|w|, i requires 0 <= i < |w| =>
      if Under(c[i], cap) then Grown(c[i], Surplus(w, cap), Sum(Room(c, cap))) else c[i])
  }

  /** The growth shares out exactly the surplus. */
  lemma UnclippedSum(w: seq<real>, cap: real)
    requires Redistributes(w, cap)
    ensures Sum(Unclipped(w, cap)) == Sum(w)
  {
    hide Sum, Surplus, Redistributes;
    var c := Clip(w, cap);
    var room, surplus := Room(c, cap), Surplus(w, cap);
    RedistributesTotal(w, cap);
    var total := Sum(room);
    forall i | 0 <= i < |w|
      ensures Unclipped(w, cap)[i] == c[i] + (surplus / total) * room[i]
    {
      GrowthRate(c[i], surplus, total);
    }
    SumLinear(c, room, surplus / total, Unclipped(w, cap));
    GrowthRate(total, surplus, total);
    ClipSum(w, cap);
  }

  lemma RedistributesTotal(w: seq<real>, cap: real)
    requires Redistributes(w, cap)
    ensures Sum(Room(Clip(w, cap), cap)) > 0.0 && Surplus(w, cap) >= NO_SURPLUS
  {
  }

  lemma GrowthRate(c: real, surplus: real, total: real)
    requires total > 0.0
    ensures Grown(c, surplus, total) == c + (surplus / total) * c
    ensures (surplus / total) * total == surplus
  {
  }

  lemma RefillBelowUnclipped(w: seq<real>, cap: real)
    requires Redistributes(w, cap)
    ensures forall i :: 0 <= i < |w| ==> Refill(w, cap)[i] == Min(Unclipped(w, cap)[i], cap)
    ensures Sum(Refill(w, cap)) <= Sum(w)
    ensures Sum(Refill(w, cap)) == Sum(w) <==> forall i :: 0 <= i < |w| ==> Unclipped(w, cap)[i] <= cap
  {
    hide Sum, Surplus, Redistributes, Grown;
    UnclippedSum(w, cap);
    SumAtMost(Refill(w, cap), Unclipped(w, cap));
    if forall i :: 0 <= i < |w| ==> Unclipped(w, cap)[i] <= cap {
      assert Refill(w, cap) == Unclipped(w, cap);
    }
  }

  /** Before the exposure is applied the weights never add up to more than one. */
  lemma OnePassSum(scores: seq<real>, cap: real)
    requires Sum(scores) > 0.0
    ensures Sum(OnePass(scores, cap)) <= 1.0
    ensures Sum(OnePass(scores, cap)) == 1.0 <==>
            if Redistributes(Shares(scores), cap) then
              forall i :: 0 <= i < |scores| ==> Unclipped(Shares(scores), cap)[i] <= cap
            else Surplus(Shares(scores), cap) == 0.0
  {
    hide Sum, Surplus, Redistributes, Refill, Unclipped, Clip;
    var shares := Shares(scores);
    SharesSumToOne(scores);
    ClipSum(shares, cap);
    if Redistributes(shares, cap) {
      RefillBelowUnclipped(shares, cap);
    }
  }

  lemma ScaledSum(w: seq<real>, exposure: real)
    ensures Sum(Scale(w, exposure)) == exposure * Sum(w)
  {
    var none := seq(|w|, _ => 0.0);
    SumZero(none);
    SumLinear(none, w, exposure, Scale(w, exposure));
  }

  /** A better score never gets less, up to the tolerance below the cap. */
  lemma OnePassOrder(scores: seq<real>, cap: real, i: int, j: int)
    requires Sum(scores) > 0.0 && 0 <= i < |scores| && 0 <= j < |scores| && scores[i] <= scores[j]
    ensures OnePass(scores, cap)[i] <= OnePass(scores, cap)[j] + BELOW_CAP
  {
    hide Sum, Surplus, Redistributes, Grown;
    var shares := Shares(scores);
    SharesSumToOne(scores);
    if Redistributes(shares, cap) {
      var c := Clip(shares, cap);
      RedistributesTotal(shares, cap);
      GrownOrder(c[i], c[j], Surplus(shares, cap), Sum(Room(c, cap)));
    }
  }

  lemma GrownOrder(x: real, y: real, surplus: real, total: real)
    requires x <= y && surplus >= 0.0 && total > 0.0
    ensures Grown(x, surplus, total) <= Grown(y, surplus, total)
  {
    QuotientOrder(x, y, total);
    ProductOrder(x / total, y / total, surplus);
  }

  lemma ProductOrder(x: real, y: real, k: real)
    requires x <= y && k >= 0.0
    ensures x * k <= y * k && k * x <= k * y
  {
  }

  lemma OnePassNonNegative(scores: seq<real>, cap: real)
    requires Sum(scores) > 0.0 && cap >= 0.0 && forall i :: 0 <= i < |scores| ==> scores[i] >= 0.0
    ensures forall i :: 0 <= i < |scores| ==> 0.0 <= OnePass(scores, cap)[i] <= cap
  {
    hide Sum, Surplus, Redistributes, Grown;
    var shares := Shares(scores);
    SharesSumToOne(scores);
    if Redistributes(shares, cap) {
      var c := Clip(shares, cap);
      RedistributesTotal(shares, cap);
      forall i | 0 <= i < |scores|
        ensures Grown(c[i], Surplus(shares, cap), Sum(Room(c, cap))) >= 0.0
      {
        GrownOrder(0.0, c[i], Surplus(shares, cap), Sum(Room(c, cap)));
        GrownZero(Surplus(shares, cap), Sum(Room(c, cap)));
      }
    }
  }

  lemma GrownZero(surplus: real, total: real)
    requires total > 0.0
    ensures Grown(0.0, surplus, total) == 0.0
  {
  }

  /**
   * For non-negative scores, cap and exposure: every weight lies between zero and cap times exposure,
   * together they do not exceed the exposure, and they follow the order of the scores up to the
   * tolerance.
   */
  lemma WeightsWithinLimits(scores: seq<real>, cap: real, exposure: real)
    requires cap >= 0.0 && exposure >= 0.0 && forall i :: 0 <= i < |scores| ==> scores[i] >= 0.0
    ensures
      var w := TargetWeights(scores, cap, exposure);
      && (w == [] || |w| == |scores|)
      && (forall i :: 0 <= i < |w| ==> 0.0 <= w[i] <= cap * exposure)
      && Sum(w) <= exposure
      && (forall i, j :: 0 <= i < |w| && 0 <= j < |w| && scores[i] <= scores[j] ==> w[i] <= w[j] + BELOW_CAP * exposure)
  {
    hide Sum, OnePass, TargetWeights, Scale;
    if scores == [] || Sum(scores) <= 0.0 {
      NoWeights(scores, cap, exposure);
    } else {
      var v := OnePass(scores, cap);
      OnePassForm(scores, cap, exposure);
      OnePassLength(scores, cap);
      OnePassNonNegative(scores, cap);
      ScaledBounds(v, cap, exposure);
      OnePassSum(scores, cap);
      ScaledSum(v, exposure);
      ProductOrder(Sum(v), 1.0, exposure);
      forall i, j | 0 <= i < |v| && 0 <= j < |v| && scores[i] <= scores[j]
        ensures Scale(v, exposure)[i] <= Scale(v, exposure)[j] + BELOW_CAP * exposure
      {
        OnePassOrder(scores, cap, i, j);
        ScaledOrder(v, i, j, exposure);
      }
    }
  }

  lemma ScaledBounds(v: seq<real>, cap: real, exposure: real)
    requires exposure >= 0.0 && forall i :: 0 <= i < |v| ==> 0.0 <= v[i] <= cap
    ensures |Scale(v, exposure)| == |v|
    ensures forall i :: 0 <= i < |v| ==> 0.0 <= Scale(v, exposure)[i] <= cap * exposure
  {
    forall i | 0 <= i < |v|
      ensures 0.0 <= Scale(v, exposure)[i] <= cap * exposure
    {
      ProductOrder(0.0, v[i], exposure);
      ProductOrder(v[i], cap, exposure);
    }
  }

  lemma ScaledOrder(v: seq<real>, i: int, j: int, exposure: real)
    requires 0 <= i < |v| && 0 <= j < |v| && v[i] <= v[j] + BELOW_CAP && exposure >= 0.0
    ensures Scale(v, exposure)[i] <= Scale(v, exposure)[j] + BELOW_CAP * exposure
  {
    ProductOrderWithin(v[i], v[j], exposure);
  }

  lemma ProductOrderWithin(x: real, y: real, k: real)
    requires x <= y + BELOW_CAP && k >= 0.0
    ensures x * k <= y * k + BELOW_CAP * k
  {
    ProductOrder(x, y + BELOW_CAP, k);
    Distribute(k, y, BELOW_CAP);
  }

  lemma NoWeights(scores: seq<real>, cap: real, exposure: real)
    requires scores == [] || Sum(scores) <= 0.0
    ensures TargetWeights(scores, cap, exposure) == [] && Sum([]) == 0.0
  {
  }

  lemma OnePassLength(scores: seq<real>, cap: real)
    requires Sum(scores) > 0.0
    ensures |OnePass(scores, cap)| == |scores|
  {
  }

  /**
   * Everything is invested exactly when the shares leave no surplus, or the one redistribution pushes
   * nobody over the cap. It is not enough that some weight stays below the cap.
   */
  lemma FullyInvestedIff(scores: seq<real>, cap: real, exposure: real)
    requires scores != [] && Sum(scores) > 0.0 && exposure > 0.0
    ensures Sum(TargetWeights(scores, cap, exposure)) == exposure <==>
            if Redistributes(Shares(scores), cap) then
              forall i :: 0 <= i < |scores| ==> Unclipped(Shares(scores), cap)[i] <= cap
            else Surplus(Shares(scores), cap) == 0.0
  {
    hide Sum, OnePass, TargetWeights, Redistributes, Surplus, Unclipped;
    OnePassForm(scores, cap, exposure);
    OnePassSum(scores, cap);
    var v := OnePass(scores, cap);
    ScaledSum(v, exposure);
    WholeExposure(exposure, Sum(v));
  }

  lemma OnePassAtCap(scores: seq<real>, cap: real)
    requires Sum(scores) > 0.0
    ensures (forall i :: 0 <= i < |scores| ==> OnePass(scores, cap)[i] == cap) <==>
            if Redistributes(Shares(scores), cap) then
              forall i :: 0 <= i < |scores| ==> Unclipped(Shares(scores), cap)[i] >= cap
            else forall i :: 0 <= i < |scores| ==> Shares(scores)[i] >= cap
  {
    hide Sum, Surplus, Redistributes, Refill, Grown;
    var shares := Shares(scores);
    if Redistributes(shares, cap) {
      RefillBelowUnclipped(shares, cap);
      RefillWithinCap(shares, cap);
      assert forall i :: 0 <= i < |scores| ==>
        (OnePass(scores, cap)[i] == cap <==> Unclipped(shares, cap)[i] >= cap);
    } else {
      assert forall i :: 0 <= i < |scores| ==> (OnePass(scores, cap)[i] == cap <==> shares[i] >= cap);
    }
  }

  /**
   * The documented promise, that cash is left only when every weight is at the cap, is kept exactly in
   * these cases: after a redistribution, if it pushes nobody over the cap or everybody up to it; without
   * one, if there is no surplus or no share below the cap.
   */
  lemma CashOnlyAtCapIff(scores: seq<real>, cap: real, exposure: real)
    requires Sum(scores) > 0.0 && exposure != 0.0
    ensures
      var w, shares := TargetWeights(scores, cap, exposure), Shares(scores);
      |w| == |scores| &&
      (Sum(w) == exposure || (forall i :: 0 <= i < |w| ==> w[i] == cap * exposure)
       <==>
       if Redistributes(shares, cap) then
         || (forall i :: 0 <= i < |scores| ==> Unclipped(shares, cap)[i] <= cap)
         || (forall i :: 0 <= i < |scores| ==> Unclipped(shares, cap)[i] >= cap)
       else
         || Surplus(shares, cap) == 0.0
         || (forall i :: 0 <= i < |scores| ==> shares[i] >= cap))
  {
    hide *;
    var v := OnePass(scores, cap);
    SomeScore(scores);
    OnePassForm(scores, cap, exposure);
    OnePassLength(scores, cap);
    OnePassSum(scores, cap);
    OnePassAtCap(scores, cap);
    ScaledWhole(v, cap, exposure);
  }

  lemma SomeScore(scores: seq<real>)
    requires Sum(scores) > 0.0
    ensures scores != [] && |Shares(scores)| == |scores|
  {
  }

  lemma ScaledWhole(v: seq<real>, cap: real, exposure: real)
    requires exposure != 0.0
    ensures |Scale(v, exposure)| == |v| && (Sum(Scale(v, exposure)) == exposure <==> Sum(v) == 1.0)
    ensures (forall i :: 0 <= i < |v| ==> Scale(v, exposure)[i] == cap * exposure) <==> forall i :: 0 <= i < |v| ==> v[i] == cap
  {
    hide Sum;
    ScaledSum(v, exposure);
    SameFactor(exposure, Sum(v), 1.0);
    forall i | 0 <= i < |v|
      ensures Scale(v, exposure)[i] == cap * exposure <==> v[i] == cap
    {
      SameFactor(exposure, v[i], cap);
    }
  }

  /** Without a positive score or without exposure nothing is below the cap, or nothing is to be invested. */
  lemma NothingToInvest(scores: seq<real>, cap: real, exposure: real)
    requires Sum(scores) <= 0.0 || exposure == 0.0
    ensures var w := TargetWeights(scores, cap, exposure);
            w == [] || (|w| == |scores| && Sum(w) == exposure)
  {
    hide Sum, OnePass, TargetWeights;
    if scores == [] || Sum(scores) <= 0.0 {
      NoWeights(scores, cap, exposure);
    } else {
      OnePassForm(scores, cap, exposure);
      OnePassLength(scores, cap);
      ScaledSum(OnePass(scores, cap), exposure);
    }
  }

  lemma SameFactor(k: real, x: real, y: real)
    requires k != 0.0
    ensures k * x == k * y <==> x == y
    ensures x * k == k * x && k * 1.0 == k
  {
    if k * x == k * y {
      assert k * (x - y) == 0.0;
    }
  }

  lemma WholeExposure(exposure: real, x: real)
    requires exposure > 0.0
    ensures exposure * x == exposure <==> x == 1.0
  {
  }

  /**
   * Scores 6, 3, 1 under a cap of 0.4: five percent stay uninvested although the third weight, 0.15,
   * is far below the cap.
   */
  lemma CashLeftBelowCap()
    ensures TargetWeights([6.0, 3.0, 1.0], 0.4, 1.0) == [0.4, 0.4, 0.15] && Sum([0.4, 0.4, 0.15]) == 0.95
  {
    var scores, cap := [6.0, 3.0, 1.0], 0.4;
    SumThree(6.0, 3.0, 1.0);
    SumThree(0.4, 0.4, 0.15);
    var shares := Shares(scores);
    assert shares == [0.6, 0.3, 0.1];
    var taken := seq(|shares|, i requires 0 <= i < |shares| => shares[i] - Min(shares[i], cap));
    assert taken == [0.2, 0.0, 0.0];
    SumThree(0.2, 0.0, 0.0);
    var c := Clip(shares, cap);
    assert c == [0.4, 0.3, 0.1];
    assert Room(c, cap) == [0.0, 0.3, 0.1];
    SumThree(0.0, 0.3, 0.1);
    assert Under(c[1], cap);
    OnePassForm(scores, cap, 1.0);
  }

  lemma SumThree(x: real, y: real, z: real)
    ensures Sum([x, y, z]) == x + y + z
  {
    assert [x, y, z][..2] == [x, y] && [x, y][..1] == [x] && [x][..0] == [];
    assert Sum([x]) == x && Sum([x, y]) == x + y;
  }

  /**
   * When the surplus is redistributed: at least 1e-10 was cut off by the cap, and some positive weight is more
   * than 1e-12 below it.
   */
  lemma RedistributesIff(w: seq<real>, cap: real)
    requires cap >= 0.0 && forall i :: 0 <= i < |w| ==> w[i] >= 0.0
    ensures Redistributes(w, cap) <==>
      && Sum(w) - Sum(Clip(w, cap)) >= 0.0000000001
      && exists i :: 0 <= i < |w| && 0.0 < w[i] < cap - 0.000000000001
  {
    hide Sum, Surplus;
    ClipSum(w, cap);
    var room := Room(Clip(w, cap), cap);
    if i :| 0 <= i < |w| && 0.0 < w[i] < cap - 0.000000000001 {
      assert Under(Clip(w, cap)[i], cap) && room[i] == w[i];
      OnePositive(room, i);
    } else {
      forall i | 0 <= i < |room|
        ensures room[i] == 0.0
      {
      }
      SumZero(room);
    }
  }

  lemma {:induction false} OnePositive(a: seq<real>, i: nat)
    requires i < |a| && a[i] > 0.0 && forall k :: 0 <= k < |a| ==> a[k] >= 0.0
    ensures Sum(a) > 0.0
  {
    var front := a[..|a| - 1];
    if i < |front| {
      OnePositive(front, i);
    } else {
      var none := seq(|front|, _ => 0.0);
      SumZero(none);
      SumAtMost(none, front);
    }
  }

  /** Growth is in proportion to the weights, and shares out the surplus. */
  lemma GrowthInProportion(w: seq<real>, cap: real, i: nat, j: nat)
    requires Redistributes(w, cap) && i < |w| && j < |w|
    requires w[i] < cap - 0.000000000001 && w[j] < cap - 0.000000000001
    ensures Unclipped(w, cap)[i] * w[j] == Unclipped(w, cap)[j] * w[i]
    ensures Sum(Unclipped(w, cap)) == Sum(w)
  {
    hide Sum, Surplus, Redistributes, Grown;
    RedistributesTotal(w, cap);
    var c := Clip(w, cap);
    var surplus, total := Surplus(w, cap), Sum(Room(c, cap));
    GrowthRate(w[i], surplus, total);
    GrowthRate(w[j], surplus, total);
    CrossProduct(w[i], w[j], surplus / total);
    UnclippedSum(w, cap);
  }

  lemma CrossProduct(x: real, y: real, k: real)
    ensures (x + k * x) * y == (y + k * y) * x
  {
  }
}
