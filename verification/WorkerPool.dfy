/** The pool of mediasoup workers: which worker hosts the next router. */
module WorkerPool {
  import opened WorkerLoads

  class Worker {
    constructor () {}
  }

  datatype Reservation = NoWorkersAvailable | Reserved(worker: Worker)

  function Idle(n: nat): (loads: Loads)
    ensures |loads| == n && forall i | 0 <= i < n :: loads[i] == 0
  {
    seq(n, i => 0)
  }

  class WorkerPoolService {
    var workers: seq<Worker>
    var routersPerWorker: map<Worker, nat>

    /** Every reservation and router close since the workers were spawned. */
    ghost var history: seq<Op>

    ghost predicate Tracked()
      reads this
    {
      && (forall i, j | 0 <= i < j < |workers| :: workers[i] != workers[j])
      && routersPerWorker.Keys == (set w | w in workers)
    }

    /** The router counts in the order the workers were spawned. */
    ghost function LoadVector(): (loads: Loads)
      requires Tracked()
      reads this
      ensures |loads| == |workers|
      ensures forall i | 0 <= i < |workers| :: loads[i] == routersPerWorker[workers[i]]
    {
      seq(|workers|, i requires 0 <= i < |workers| reads this requires Tracked() =>
        assert workers[i] in workers; routersPerWorker[workers[i]])
    }

    ghost predicate Valid()
      reads this
    {
      Tracked() && LoadVector() == Run(Idle(|workers|), history)
    }

    lemma WithinBound()
      requires Valid() && workers != []
      ensures forall w | w in workers ::
                routersPerWorker[w] <= CeilDiv(Peak(Idle(|workers|), history), |workers|)
    {
      LoadBound(Idle(|workers|), history);
      forall w | w in workers
        ensures routersPerWorker[w] <= CeilDiv(Peak(Idle(|workers|), history), |workers|)
      {
        var i :| 0 <= i < |workers| && workers[i] == w;
        assert LoadVector()[i] == routersPerWorker[w];
      }
    }

    constructor ()
      ensures Valid() && workers == [] && history == []
    {
      workers, routersPerWorker, history := [], map[], [];
    }

    method OnModuleInit(numWorkers: nat)
      requires Valid() && workers == [] && history == []
      modifies this
      ensures Valid() && |workers| == numWorkers && history == []
    {
      for i := 0 to numWorkers
        invariant Tracked() && |workers| == i && history == []
        invariant LoadVector() == Idle(i)
      {
        var worker := new Worker();
        workers := workers + [worker];
        routersPerWorker := routersPerWorker[worker := 0];
      }
    }

    /** The scan of the pool: the first worker with the fewest routers. */
    method LeastLoaded() returns (chosen: Worker, min: nat)
      requires Valid() && workers != []
      ensures chosen == workers[Pick(LoadVector())] && min == Least(LoadVector())
    {
      ghost var was := LoadVector();
      chosen := workers[0];
      min := routersPerWorker[chosen];
      ghost var at := 0;
      for i := 0 to |workers|
        invariant at < |workers| && chosen == workers[at] && min == was[at]
        invariant at < i || at == 0
        invariant forall j | 0 <= j < i :: min <= was[j]
        invariant forall j | 0 <= j < at :: min < was[j]
      {
        var worker := workers[i];
        var count := routersPerWorker[worker];
        if count < min {
          min := count;
          chosen := worker;
          at := i;
        }
      }
      PickIsUnique(was, at);
    }

    /** Hands out the first least-loaded worker and books the router on it, in
        one step. No worker is ever booked beyond the rounded-up mean of the
        largest number of routers the pool has held. */
    method ReserveWorker() returns (r: Reservation)
      requires Valid()
      modifies this`routersPerWorker, this`history
      ensures Valid()
      ensures r == NoWorkersAvailable <==> workers == []
      ensures r == NoWorkersAvailable ==> routersPerWorker == old(routersPerWorker) && history == old(history)
      ensures r.Reserved? ==>
                && var was := old(LoadVector());
                && history == old(history) + [Reserving]
                && r.worker == workers[Pick(was)]
                && LoadVector() == Reserve(was)
                && forall w | w in workers ::
                     routersPerWorker[w] <= CeilDiv(Peak(Idle(|workers|), history), |workers|)
    {
      if |workers| == 0 {
        return NoWorkersAvailable;
      }
      ghost var was := LoadVector();
      var chosen, min := LeastLoaded();
      routersPerWorker := routersPerWorker[chosen := min + 1];
      history := history + [Reserving];
      assert LoadVector() == Reserve(was);
      RunExtends(Idle(|workers|), old(history), Reserving);
      WithinBound();
      r := Reserved(chosen);
    }

    /** One router less on `worker`, and never fewer than none. */
    method Lower(worker: Worker, ghost at: nat)
      requires Tracked() && at < |workers| && workers[at] == worker
      modifies this`routersPerWorker
      ensures Tracked() && LoadVector() == Release(old(LoadVector()), at)
    {
      assert worker in workers;
      var count := routersPerWorker[worker];
      routersPerWorker := routersPerWorker[worker := if count == 0 then 0 else count - 1];
      assert forall i | 0 <= i < |workers| && i != at :: workers[i] != worker;
    }

    /** One router of `worker` is gone; a worker outside the pool is ignored. */
    method TrackRouterClosed(worker: Worker)
      requires Valid()
      modifies this`routersPerWorker, this`history
      ensures Valid()
      ensures worker !in workers ==> routersPerWorker == old(routersPerWorker) && history == old(history)
      ensures forall i | 0 <= i < |workers| && workers[i] == worker ::
                LoadVector() == Release(old(LoadVector()), i) && history == old(history) + [Closing(i)]
    {
      hide Release, Run;
      if worker !in routersPerWorker {
        return;
      }
      ghost var at :| 0 <= at < |workers| && workers[at] == worker;
      Lower(worker, at);
      history := history + [Closing(at)];
      RunExtends(Idle(|workers|), old(history), Closing(at));
    }
  }
}
