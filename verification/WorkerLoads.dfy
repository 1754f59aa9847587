/** The arithmetic of the least-loaded allocator: the loads of the workers, in
    the order the pool spawned them, as a sequence of router counts. */
module WorkerLoads {

  type Loads = seq<nat>

  function Sum(loads: Loads): nat {
    if loads == [] then 0 else loads[0] + Sum(loads[1..])
  }

  ghost predicate NoneBelow(loads: Loads, m: nat) {
    forall j | 0 <= j < |loads| :: m <= loads[j]
  }

  ghost predicate NoneAbove(loads: Loads, m: nat) {
    forall j | 0 <= j < |loads| :: loads[j] <= m
  }

  ghost predicate FirstLeast(loads: Loads, k: nat) {
    && k < |loads| && NoneBelow(loads, loads[k])
    && forall j | 0 <= j < k :: loads[k] < loads[j]
  }

  lemma {:induction false} FirstLeastExists(loads: Loads)
    requires loads != []
    ensures exists k: nat :: FirstLeast(loads, k)
  {
    var last := |loads| - 1;
    if last == 0 {
      assert FirstLeast(loads, 0);
    } else {
      FirstLeastExists(loads[..last]);
      var k: nat :| FirstLeast(loads[..last], k);
      assert FirstLeast(loads, if loads[last] < loads[k] then last else k);
    }
  }

  lemma {:induction false} GreatestExists(loads: Loads)
    requires loads != []
    ensures exists k :: 0 <= k < |loads| && NoneAbove(loads, loads[k])
  {
    var last := |loads| - 1;
    if last == 0 {
      assert NoneAbove(loads, loads[0]);
    } else {
      GreatestExists(loads[..last]);
      var k :| 0 <= k < last && NoneAbove(loads[..last], loads[..last][k]);
      assert NoneAbove(loads, if loads[last] > loads[k] then loads[last] else loads[k]);
    }
  }

  /** The index the allocator picks: the first of the least loaded workers. */
  ghost function Pick(loads: Loads): (k: nat)
    requires loads != []
    ensures FirstLeast(loads, k)
  {
    FirstLeastExists(loads);
    var k: nat :| FirstLeast(loads, k);
    k
  }

  ghost function Least(loads: Loads): (m: nat)
    requires loads != []
    ensures NoneBelow(loads, m)
  {
    loads[Pick(loads)]
  }

  ghost function Greatest(loads: Loads): (m: nat)
    requires loads != []
    ensures NoneAbove(loads, m)
    ensures exists k :: 0 <= k < |loads| && loads[k] == m
  {
    GreatestExists(loads);
    var k :| 0 <= k < |loads| && NoneAbove(loads, loads[k]);
    loads[k]
  }

  ghost function Reserve(loads: Loads): (r: Loads)
    requires loads != []
    ensures |r| == |loads|
  {
    loads[Pick(loads) := Least(loads) + 1]
  }

  /** One router of worker `i` closes; the count is clamped at zero. */
  function Release(loads: Loads, i: nat): Loads
    requires i < |loads|
  {
    loads[i := if loads[i] == 0 then 0 else loads[i] - 1]
  }

  lemma {:induction false} SumUpdate(loads: Loads, i: nat, v: nat)
    requires i < |loads|
    ensures Sum(loads[i := v]) == Sum(loads) - loads[i] + v
  {
    if i == 0 {
      assert loads[i := v][1..] == loads[1..];
    } else {
      assert loads[i := v][1..] == loads[1..][i - 1 := v];
      SumUpdate(loads[1..], i - 1, v);
    }
  }

  lemma {:induction false} LeastBelowMean(loads: Loads, m: nat)
    requires NoneBelow(loads, m)
    ensures |loads| * m <= Sum(loads)
  {
    if loads == [] {
    } else {
      LeastBelowMean(loads[1..], m);
      assert |loads| * m == m + |loads[1..]| * m;
    }
  }

  lemma PickIsUnique(loads: Loads, k: nat)
    requires FirstLeast(loads, k)
    ensures k == Pick(loads)
  {
    var p := Pick(loads);
    assert k <= p && p <= k by {
      assert loads[k] <= loads[p] && loads[p] <= loads[k];
    }
  }

  // ----- The load bound over every run of the allocator -----

  datatype Op = Reserving | Closing(worker: nat)

  /** A router event of a worker outside the pool changes nothing. */
  ghost function Apply(loads: Loads, op: Op): (r: Loads)
    ensures |r| == |loads|
  {
    match op
    case Reserving => if loads == [] then loads else Reserve(loads)
    case Closing(i) => if i < |loads| then Release(loads, i) else loads
  }

  ghost function Run(loads: Loads, ops: seq<Op>): (r: Loads)
    ensures |r| == |loads|
  {
    if ops == [] then loads else Apply(Run(loads, ops[..|ops| - 1]), ops[|ops| - 1])
  }

  lemma RunExtends(loads: Loads, ops: seq<Op>, op: Op)
    ensures Run(loads, ops + [op]) == Apply(Run(loads, ops), op)
  {
    assert (ops + [op])[..|ops|] == ops;
  }

  /** The largest total number of routers at any point of the run. */
  ghost function Peak(loads: Loads, ops: seq<Op>): nat {
    var now := Sum(Run(loads, ops));
    if ops == [] then now
    else var before := Peak(loads, ops[..|ops| - 1]); if now >= before then now else before
  }

  function CeilDiv(a: nat, b: nat): nat
    requires b > 0
  {
    (a + b - 1) / b
  }

  lemma CeilDivMonotonic(a: nat, a': nat, b: nat)
    requires b > 0 && a <= a'
    ensures CeilDiv(a, b) <= CeilDiv(a', b)
  {
    DivMonotonic(a + b - 1, a' + b - 1, b);
  }

  lemma DivMonotonic(x: nat, y: nat, b: nat)
    requires b > 0 && x <= y
    ensures x / b <= y / b
  {
    var q, q' := x / b, y / b;
    assert b * q <= x && y < b * q' + b;
    assert b * (q' + 1) == b * q' + b;
    if q > q' {
      MulMonotonic(q' + 1, q, b);
    }
  }

  lemma MulMonotonic(x: nat, y: nat, b: nat)
    requires x <= y
    ensures b * x <= b * y
  {
    assert b * y - b * x == b * (y - x);
  }

  /** If the least load is `m` then one more reservation leaves a total whose
      rounded-up mean is at least `m + 1`. */
  lemma MeanAfterReserve(total: nat, m: nat, n: nat)
    requires n > 0 && n * m <= total
    ensures m + 1 <= CeilDiv(total + 1, n)
  {
    var q := (total + n) / n;
    assert total + n < n * q + n;
    if q < m + 1 {
      MulMonotonic(q, m, n);
    }
  }

  /** From an idle pool, no worker ever carries more than the rounded-up mean of
      the largest total the pool has held so far. */
  lemma {:induction false} LoadBound(idle: Loads, ops: seq<Op>)
    requires idle != [] && forall i | 0 <= i < |idle| :: idle[i] == 0
    ensures forall i | 0 <= i < |idle| :: Run(idle, ops)[i] <= CeilDiv(Peak(idle, ops), |idle|)
  {
    var n := |idle|;
    if ops == [] {
    } else {
      var before := ops[..|ops| - 1];
      var loads, now := Run(idle, before), Run(idle, ops);
      LoadBound(idle, before);
      CeilDivMonotonic(Peak(idle, before), Peak(idle, ops), n);
      if ops[|ops| - 1].Reserving? {
        var m := Least(loads);
        LeastBelowMean(loads, m);
        SumUpdate(loads, Pick(loads), m + 1);
        MeanAfterReserve(Sum(loads), m, n);
        CeilDivMonotonic(Sum(now), Peak(idle, ops), n);
      }
    }
  }

  // ----- Water-filling: bursts of reservations with no close in between -----

  ghost function Fill(loads: Loads, k: nat): (r: Loads)
    requires loads != []
    ensures |r| == |loads|
  {
    if k == 0 then loads else Reserve(Fill(loads, k - 1))
  }

  ghost predicate Level(loads: Loads)
    requires loads != []
  {
    Greatest(loads) <= Least(loads) + 1
  }

  /** How many reservations are missing until nobody is two below `top`. */
  function Deficit(loads: Loads, top: nat): nat {
    if loads == [] then 0
    else (if loads[0] + 1 < top then top - 1 - loads[0] else 0) + Deficit(loads[1..], top)
  }

  lemma ReserveExtremes(loads: Loads)
    requires loads != []
    ensures Least(loads) <= Least(Reserve(loads)) <= Least(loads) + 1
    ensures Greatest(Reserve(loads)) ==
            if Greatest(loads) > Least(loads) then Greatest(loads) else Least(loads) + 1
  {
    var k, m, next := Pick(loads), Least(loads), Reserve(loads);
    assert next[k] == m + 1;
    if Greatest(loads) > m {
      var b :| 0 <= b < |loads| && loads[b] == Greatest(loads);
      assert next[b] == Greatest(loads);
    }
  }

  /** Until the least load rises, a burst never lifts the greatest load above
      the larger of where it was and one above the least load. */
  lemma {:induction false} BurstStaysUnderWaterline(loads: Loads, k: nat)
    requires loads != [] && Least(Fill(loads, k)) == Least(loads)
    ensures Greatest(Fill(loads, k)) <= if Greatest(loads) >= Least(loads) + 1
                                        then Greatest(loads) else Least(loads) + 1
  {
    if k == 0 {
    } else {
      LeastNeverFalls(loads, k - 1);
      ReserveExtremes(Fill(loads, k - 1));
      BurstStaysUnderWaterline(loads, k - 1);
    }
  }

  lemma {:induction false} LeastNeverFalls(loads: Loads, k: nat)
    requires loads != []
    ensures Least(loads) <= Least(Fill(loads, k))
  {
    if k == 0 {
    } else {
      LeastNeverFalls(loads, k - 1);
      ReserveExtremes(Fill(loads, k - 1));
    }
  }

  lemma {:induction false} DeficitUpdate(loads: Loads, i: nat, top: nat)
    requires i < |loads| && loads[i] + 1 < top
    ensures Deficit(loads[i := loads[i] + 1], top) == Deficit(loads, top) - 1
  {
    var next := loads[i := loads[i] + 1];
    if i == 0 {
      assert next[1..] == loads[1..];
    } else {
      assert next[1..] == loads[1..][i - 1 := loads[i] + 1];
      DeficitUpdate(loads[1..], i - 1, top);
    }
  }

  lemma {:induction false} NoDeficit(loads: Loads, top: nat)
    ensures Deficit(loads, top) == 0 <==> forall i | 0 <= i < |loads| :: loads[i] + 1 >= top
  {
    if loads == [] {
    } else {
      NoDeficit(loads[1..], top);
      assert loads[0] + 1 >= top && (forall i | 0 <= i < |loads[1..]| :: loads[1..][i] + 1 >= top)
        ==> forall i | 0 <= i < |loads| :: loads[i] + 1 >= top by {
        assert forall i | 1 <= i < |loads| :: loads[i] == loads[1..][i - 1];
      }
      assert forall i | 0 <= i < |loads[1..]| :: loads[1..][i] == loads[i + 1];
    }
  }

  lemma LevelIffNoDeficit(loads: Loads)
    requires loads != []
    ensures Level(loads) <==> Deficit(loads, Greatest(loads)) == 0
  {
    NoDeficit(loads, Greatest(loads));
  }

  lemma ReserveShrinksDeficit(loads: Loads)
    requires loads != [] && !Level(loads)
    ensures Greatest(Reserve(loads)) == Greatest(loads)
    ensures Deficit(Reserve(loads), Greatest(loads)) == Deficit(loads, Greatest(loads)) - 1
  {
    ReserveExtremes(loads);
    DeficitUpdate(loads, Pick(loads), Greatest(loads));
  }

  lemma ReserveKeepsLevel(loads: Loads)
    requires loads != [] && Level(loads)
    ensures Level(Reserve(loads))
  {
    ReserveExtremes(loads);
  }

  /** A burst levels the pool after exactly as many reservations as the deficit
      of the starting loads, not one earlier, and level it stays. */
  lemma {:induction false} BurstLevelsExactly(loads: Loads, k: nat)
    requires loads != []
    ensures Level(Fill(loads, k)) <==> k >= Deficit(loads, Greatest(loads))
    ensures k <= Deficit(loads, Greatest(loads)) ==>
              && Greatest(Fill(loads, k)) == Greatest(loads)
              && Deficit(Fill(loads, k), Greatest(loads)) == Deficit(loads, Greatest(loads)) - k
  {
    if k == 0 {
      LevelIffNoDeficit(loads);
    } else {
      BurstLevelsExactly(loads, k - 1);
      var before := Fill(loads, k - 1);
      if Level(before) {
        ReserveKeepsLevel(before);
      } else {
        ReserveShrinksDeficit(before);
        LevelIffNoDeficit(Reserve(before));
      }
    }
  }
}
