/** The greedy matcher of backend/app/services/tanker_allocator.py: villages above
    the WSI threshold, highest priority first, each take the next tanker in line
    while tankers remain. */
module TankerAllocator {
  import opened Common
  import opened Seqs
  import opened Sorting
  import opened ServerData
  import Severity

  /** Litres per person per day (`MIN_WATER_REQUIREMENT_LPCD`). */
  const MinWaterLpcd: real := 40.0

  /** A village as handed to the allocator: the joined record plus the `wsi` and
      `priority_score` keys, either of which may be missing. */
  datatype Candidate = Candidate(village: Joined, wsi: Option<real>, priorityScore: Option<real>)

  /** One entry of the plan. */
  datatype Allocation = Allocation(
    villageId: string, villageName: string, tankerId: string,
    allocatedLiters: real, deficitLiters: real, priorityScore: real)

  /** `calculate_deficit`. The division by the minimum is reached only when the
      level is below it, so a minimum of 0 with a negative level raises
      ZeroDivisionError. */
  function Deficit(population: int, current: real, minRequired: real): (r: Result<real>)
    ensures r.Err? <==> current < minRequired && minRequired == 0.0
    ensures r.Ok? ==> r.value >= 0.0
    ensures current >= minRequired ==> r == Ok(0.0)
    ensures minRequired > 0.0 && current < minRequired && population > 0 ==> r.Ok? && r.value > 0.0
    ensures minRequired > 0.0 && current >= 0.0 && population >= 0 && r.Ok? ==> r.value <= population as real * MinWaterLpcd
  {
    if current >= minRequired then Ok(0.0)
    else if minRequired == 0.0 then Err("ZeroDivisionError")
    else
      var ratio := (minRequired - current) / minRequired;
      assert minRequired > 0.0 && current >= 0.0 ==> ratio <= 1.0;
      var deficit := population as real * MinWaterLpcd * ratio;
      Ok(if deficit >= 0.0 then deficit else 0.0)
  }

  function DeficitOf(c: Candidate): Result<real> {
    Deficit(c.village.population, c.village.gwCurrentLevel, c.village.gwMinRequired)
  }

  /** `v.get("priority_score", 0)`. */
  function PriorityKey(c: Candidate): real {
    if c.priorityScore.Some? then c.priorityScore.value else 0.0
  }

  /** `v.get("wsi", 0) > wsi_threshold`. */
  function NeedsWater(threshold: real): Candidate -> bool {
    (c: Candidate) => (if c.wsi.Some? then c.wsi.value else 0.0) > threshold
  }

  /** The villages considered, in the order considered: the needy ones sorted by
      descending priority, ties in input order. */
  function Queue(villages: seq<Candidate>, threshold: real): (r: seq<Candidate>)
    ensures multiset(r) == multiset(Filter(villages, NeedsWater(threshold)))
    ensures SortedBy(r, PriorityKey, false)
  {
    SortBy(Filter(villages, NeedsWater(threshold)), PriorityKey, false)
  }

  /** The entry for village c served by tanker t. */
  function Entry(c: Candidate, t: Tanker, deficit: real): Allocation {
    Allocation(c.village.id, c.village.name, t.id,
               if deficit <= t.capacityLiters then deficit else t.capacityLiters, deficit, PriorityKey(c))
  }

  /** `a` followed by the plan r, or r's error. */
  function Prepend(a: seq<Allocation>, r: Result<seq<Allocation>>): Result<seq<Allocation>> {
    if r.Ok? then Ok(a + r.value) else r
  }

  lemma PrependAssoc(a: seq<Allocation>, e: Allocation, r: Result<seq<Allocation>>)
    ensures Prepend(a, Prepend([e], r)) == Prepend(a + [e], r)
  {
    if r.Ok? {
      assert a + ([e] + r.value) == (a + [e]) + r.value;
    }
  }

  /** The greedy pass over a queue with the remaining tankers: stop when either runs
      out, skip a village without a deficit, otherwise pair it with the first tanker. */
  function Greedy(queue: seq<Candidate>, tankers: seq<Tanker>): (r: Result<seq<Allocation>>)
    ensures r.Ok? ==> |r.value| <= |queue|
    decreases |queue|
  {
    if queue == [] || tankers == [] then Ok([])
    else
      var d := DeficitOf(queue[0]);
      if d.Err? then Err(d.error)
      else if d.value <= 0.0 then Greedy(queue[1..], tankers)
      else Prepend([Entry(queue[0], tankers[0], d.value)], Greedy(queue[1..], tankers[1..]))
  }

  /** Tankers are handed out in list order, each at most once, so the plan is no
      longer than the tanker list; every entry serves a real deficit and gives no
      more than the deficit and no more than its tanker holds. */
  lemma {:induction false} GreedyUsesTankersInOrder(queue: seq<Candidate>, tankers: seq<Tanker>)
    ensures var r := Greedy(queue, tankers);
      r.Ok? ==> |r.value| <= |tankers| && forall k :: 0 <= k < |r.value| ==>
        r.value[k].tankerId == tankers[k].id && r.value[k].deficitLiters > 0.0
        && r.value[k].allocatedLiters <= r.value[k].deficitLiters
        && r.value[k].allocatedLiters <= tankers[k].capacityLiters
        && r.value[k].allocatedLiters == (if r.value[k].deficitLiters <= tankers[k].capacityLiters then r.value[k].deficitLiters else tankers[k].capacityLiters)
    decreases |queue|
  {
    if queue != [] && tankers != [] {
      var d := DeficitOf(queue[0]);
      if d.Ok? {
        if d.value <= 0.0 {
          GreedyUsesTankersInOrder(queue[1..], tankers);
        } else {
          GreedyUsesTankersInOrder(queue[1..], tankers[1..]);
        }
      }
    }
  }

  /** Entries never carry a priority above that of every queued village. */
  lemma {:induction false} GreedyBound(queue: seq<Candidate>, tankers: seq<Tanker>, b: real)
    requires forall k :: 0 <= k < |queue| ==> PriorityKey(queue[k]) <= b
    ensures var r := Greedy(queue, tankers);
      r.Ok? ==> forall k :: 0 <= k < |r.value| ==> r.value[k].priorityScore <= b
    decreases |queue|
  {
    if queue != [] && tankers != [] {
      var d := DeficitOf(queue[0]);
      assert forall k :: 0 <= k < |queue[1..]| ==> PriorityKey(queue[1..][k]) <= b by {
        forall k | 0 <= k < |queue[1..]|
          ensures PriorityKey(queue[1..][k]) <= b
        {
          assert queue[1..][k] == queue[k + 1];
        }
      }
      if d.Ok? {
        if d.value <= 0.0 {
          GreedyBound(queue[1..], tankers, b);
          assert Greedy(queue, tankers) == Greedy(queue[1..], tankers);
        } else {
          GreedyBound(queue[1..], tankers[1..], b);
          var rest := Greedy(queue[1..], tankers[1..]);
          assert rest.Ok? ==> forall k :: 0 <= k < |rest.value| ==> rest.value[k].priorityScore <= b;
          if rest.Ok? {
            var e := Entry(queue[0], tankers[0], d.value);
            var r := Greedy(queue, tankers).value;
            assert r == [e] + rest.value;
            assert e.priorityScore <= b by {
              assert PriorityKey(queue[0]) <= b;
            }
            forall k | 0 <= k < |r|
              ensures r[k].priorityScore <= b
            {
              if k > 0 {
                assert r[k] == rest.value[k - 1];
              } else {
                assert r[0] == e;
              }
            }
          }
        }
      }
    }
  }

  /** Served from a queue in descending priority, the plan lists entries in
      non-increasing priority. */
  lemma {:induction false} GreedyOrdered(queue: seq<Candidate>, tankers: seq<Tanker>)
    requires SortedBy(queue, PriorityKey, false)
    ensures var r := Greedy(queue, tankers);
      r.Ok? ==> forall i, j :: 0 <= i < j < |r.value| ==> r.value[i].priorityScore >= r.value[j].priorityScore
    decreases |queue|
  {
    if queue != [] && tankers != [] {
      var d := DeficitOf(queue[0]);
      assert SortedBy(queue[1..], PriorityKey, false) by {
        forall i, j | 0 <= i < j < |queue[1..]|
          ensures !Before(queue[1..][j], queue[1..][i], PriorityKey, false)
        {
          assert queue[1..][i] == queue[i + 1] && queue[1..][j] == queue[j + 1];
        }
      }
      if d.Ok? {
        if d.value <= 0.0 {
          GreedyOrdered(queue[1..], tankers);
        } else {
          GreedyOrdered(queue[1..], tankers[1..]);
          assert forall k :: 0 <= k < |queue[1..]| ==> PriorityKey(queue[1..][k]) <= PriorityKey(queue[0]) by {
            forall k | 0 <= k < |queue[1..]|
              ensures PriorityKey(queue[1..][k]) <= PriorityKey(queue[0])
            {
              assert queue[1..][k] == queue[k + 1];
              assert !Before(queue[k + 1], queue[0], PriorityKey, false);
            }
          }
          GreedyBound(queue[1..], tankers[1..], PriorityKey(queue[0]));
          var rest := Greedy(queue[1..], tankers[1..]);
          assert rest.Ok? ==> forall k :: 0 <= k < |rest.value| ==> rest.value[k].priorityScore <= PriorityKey(queue[0]);
          assert rest.Ok? ==> forall i, j :: 0 <= i < j < |rest.value| ==> rest.value[i].priorityScore >= rest.value[j].priorityScore;
          if rest.Ok? {
            var e := Entry(queue[0], tankers[0], d.value);
            var r := Greedy(queue, tankers).value;
            assert r == [e] + rest.value;
            forall i, j | 0 <= i < j < |r|
              ensures r[i].priorityScore >= r[j].priorityScore
            {
              assert r[j] == rest.value[j - 1];
              if i > 0 {
                assert r[i] == rest.value[i - 1];
              }
            }
          }
        }
      }
    }
  }

  /** Entry a is the one the allocator writes for village c. */
  predicate Serves(a: Allocation, c: Candidate) {
    a.villageId == c.village.id && a.villageName == c.village.name
    && a.priorityScore == PriorityKey(c) && DeficitOf(c) == Ok(a.deficitLiters)
  }

  /** Every entry serves a village of the queue. */
  lemma {:induction false} GreedyServesQueue(queue: seq<Candidate>, tankers: seq<Tanker>)
    ensures var r := Greedy(queue, tankers);
      r.Ok? ==> forall k :: 0 <= k < |r.value| ==> exists j :: 0 <= j < |queue| && Serves(r.value[k], queue[j])
    decreases |queue|
  {
    if queue != [] && tankers != [] {
      var d := DeficitOf(queue[0]);
      if d.Ok? {
        var next := if d.value <= 0.0 then tankers else tankers[1..];
        GreedyServesQueue(queue[1..], next);
        var r := Greedy(queue, tankers);
        if r.Ok? {
          forall k | 0 <= k < |r.value|
            ensures exists j :: 0 <= j < |queue| && Serves(r.value[k], queue[j])
          {
            if d.value > 0.0 && k == 0 {
              assert Serves(r.value[0], queue[0]);
            } else {
              var k' := if d.value <= 0.0 then k else k - 1;
              var j :| 0 <= j < |queue[1..]| && Serves(Greedy(queue[1..], next).value[k'], queue[1..][j]);
              assert r.value[k] == Greedy(queue[1..], next).value[k'];
              assert Serves(r.value[k], queue[j + 1]);
            }
          }
        }
      }
    }
  }

  /** A village the pass hands a tanker to: its deficit is computed and positive. */
  predicate HasDeficit(c: Candidate) {
    DeficitOf(c).Ok? && DeficitOf(c).value > 0.0
  }

  /** The greedy pass in closed form. With p the queued villages that have a
      deficit, in queue order, entry k serves p[k] with tanker k, and there are
      as many entries as p and the tankers allow: no such village is passed over
      while tankers remain. When every deficit can be computed the pass does not
      fail. */
  lemma {:induction false} GreedyServesAllItCan(queue: seq<Candidate>, tankers: seq<Tanker>)
    ensures (forall k :: 0 <= k < |queue| ==> DeficitOf(queue[k]).Ok?) ==> Greedy(queue, tankers).Ok?
    ensures var r := Greedy(queue, tankers); var p := Filter(queue, HasDeficit);
      r.Ok? ==> (|r.value| == MinInt(|p|, |tankers|)
        && forall k :: 0 <= k < |r.value| ==> r.value[k] == Entry(p[k], tankers[k], DeficitOf(p[k]).value))
    decreases |queue|
  {
    if queue != [] && tankers != [] {
      var d := DeficitOf(queue[0]);
      FilterHead(queue, HasDeficit);
      var pRest := Filter(queue[1..], HasDeficit);
      if forall k :: 0 <= k < |queue| ==> DeficitOf(queue[k]).Ok? {
        forall k | 0 <= k < |queue[1..]|
          ensures DeficitOf(queue[1..][k]).Ok?
        {
          assert queue[1..][k] == queue[k + 1];
        }
      }
      if d.Ok? {
        if d.value <= 0.0 {
          GreedyServesAllItCan(queue[1..], tankers);
          assert Greedy(queue, tankers) == Greedy(queue[1..], tankers);
          assert Filter(queue, HasDeficit) == pRest;
        } else {
          GreedyServesAllItCan(queue[1..], tankers[1..]);
          var p := Filter(queue, HasDeficit);
          assert p == [queue[0]] + pRest;
          var rest := Greedy(queue[1..], tankers[1..]);
          if rest.Ok? {
            var e := Entry(queue[0], tankers[0], d.value);
            var r := Greedy(queue, tankers).value;
            assert r == [e] + rest.value;
            forall k | 0 <= k < |r|
              ensures r[k] == Entry(p[k], tankers[k], DeficitOf(p[k]).value)
            {
              if k > 0 {
                assert r[k] == rest.value[k - 1];
                assert p[k] == pRest[k - 1];
                assert tankers[k] == tankers[1..][k - 1];
              }
            }
          }
        }
      }
    }
  }

  /** Villages of equal priority are offered tankers in input order: among the
      queued villages with a deficit, those of priority p come in the order of
      the input list. This is the stable sort's promise carried to the pass. */
  lemma TiesServedInInputOrder(villages: seq<Candidate>, threshold: real, p: real)
    ensures Filter(Filter(Queue(villages, threshold), HasDeficit), KeyIs(PriorityKey, p))
         == Filter(Filter(Filter(villages, NeedsWater(threshold)), KeyIs(PriorityKey, p)), HasDeficit)
  {
    var f := Filter(villages, NeedsWater(threshold));
    var q := Queue(villages, threshold);
    var key := KeyIs(PriorityKey, p);
    var both := (c: Candidate) => key(c) && HasDeficit(c);
    FilterFilter(q, HasDeficit, key, both);
    FilterFilter(q, key, HasDeficit, both);
    SortByStable(f, PriorityKey, false, p);
  }

  /** The plan of `allocate_tankers`: only villages above the threshold are served,
      entries come in non-increasing priority, and tankers are used in order, at
      most one per entry. Entry k serves the k-th queued village with a deficit,
      so villages are served in queue order while tankers last, and the pass
      fails only on a deficit it cannot compute. */
  lemma PlanProperties(villages: seq<Candidate>, tankers: seq<Tanker>, threshold: real)
    ensures var r := Greedy(Queue(villages, threshold), tankers);
      r.Ok? ==>
        (forall k :: 0 <= k < |r.value| ==>
          exists c :: c in villages && NeedsWater(threshold)(c) && Serves(r.value[k], c))
        && (forall i, j :: 0 <= i < j < |r.value| ==> r.value[i].priorityScore >= r.value[j].priorityScore)
        && |r.value| <= |tankers|
        && (forall k :: 0 <= k < |r.value| ==> r.value[k].tankerId == tankers[k].id)
    ensures var p := Filter(Queue(villages, threshold), HasDeficit);
      var r := Greedy(Queue(villages, threshold), tankers);
      r.Ok? ==> (|r.value| == MinInt(|p|, |tankers|)
        && forall k :: 0 <= k < |r.value| ==> r.value[k] == Entry(p[k], tankers[k], DeficitOf(p[k]).value))
    ensures (forall i :: 0 <= i < |villages| ==> DeficitOf(villages[i]).Ok?) ==> Greedy(Queue(villages, threshold), tankers).Ok?
  {
    var queue := Queue(villages, threshold);
    var r := Greedy(queue, tankers);
    GreedyServesAllItCan(queue, tankers);
    if forall i :: 0 <= i < |villages| ==> DeficitOf(villages[i]).Ok? {
      forall k | 0 <= k < |queue|
        ensures DeficitOf(queue[k]).Ok?
      {
        QueuedCandidate(villages, threshold, queue[k]);
      }
    }
    GreedyServesQueue(queue, tankers);
    GreedyOrdered(queue, tankers);
    GreedyUsesTankersInOrder(queue, tankers);
    if r.Ok? {
      forall k | 0 <= k < |r.value|
        ensures exists c :: c in villages && NeedsWater(threshold)(c) && Serves(r.value[k], c)
      {
        var j :| 0 <= j < |queue| && Serves(r.value[k], queue[j]);
        QueuedCandidate(villages, threshold, queue[j]);
      }
    }
  }

  /** Every village in the queue is a candidate that needs water. */
  lemma QueuedCandidate(villages: seq<Candidate>, threshold: real, c: Candidate)
    requires c in Queue(villages, threshold)
    ensures c in villages && NeedsWater(threshold)(c)
  {
    var f := Filter(villages, NeedsWater(threshold));
    assert c in multiset(f);
    var m :| 0 <= m < |f| && f[m] == c;
    FilterFrom(villages, NeedsWater(threshold), m);
  }

  /** `allocate_tankers`. The caller's tanker list is a value here, so the copy the
      source takes before popping is implicit. */
  method AllocateTankers(villages: seq<Candidate>, tankers: seq<Tanker>, threshold: real) returns (r: Result<seq<Allocation>>)
    ensures r == Greedy(Queue(villages, threshold), tankers)
    ensures var p := Filter(Queue(villages, threshold), HasDeficit);
      r.Ok? ==> (|r.value| == MinInt(|p|, |tankers|)
        && forall k :: 0 <= k < |r.value| ==> r.value[k] == Entry(p[k], tankers[k], DeficitOf(p[k]).value))
    ensures (forall i :: 0 <= i < |villages| ==> DeficitOf(villages[i]).Ok?) ==> r.Ok?
  {
    PlanProperties(villages, tankers, threshold);
    var queue := Queue(villages, threshold);
    var available := tankers;
    var allocations: seq<Allocation> := [];
    var i := 0;
    assert queue[0..] == queue;
    if Greedy(queue, tankers).Ok? {
      assert [] + Greedy(queue, tankers).value == Greedy(queue, tankers).value;
    }
    while i < |queue|
      invariant 0 <= i <= |queue|
      invariant Prepend(allocations, Greedy(queue[i..], available)) == Greedy(queue, tankers)
    {
      if available == [] {
        break;
      }
      var deficit := DeficitOf(queue[i]);
      if deficit.Err? {
        return Err(deficit.error);
      }
      if deficit.value <= 0.0 {
        assert queue[i..][1..] == queue[i + 1..];
        i := i + 1;
        continue;
      }
      var tanker := available[0];
      assert queue[i..][1..] == queue[i + 1..];
      PrependAssoc(allocations, Entry(queue[i], tanker, deficit.value), Greedy(queue[i + 1..], available[1..]));
      available := available[1..];
      allocations := allocations + [Entry(queue[i], tanker, deficit.value)];
      i := i + 1;
    }
    assert allocations + [] == allocations;
    r := Ok(allocations);
  }
}
