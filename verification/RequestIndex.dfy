/**
 The index by job that both runner runtimes keep beside their table of requests in
 flight: for each job the set of its requests, and no empty sets.
 */
module RequestIndex {
  type RequestId = string
  type JobId = string

  predicate Backed<R, J>(jobs: map<R, J>, index: map<J, set<R>>, j: J)
    requires j in index
  {
    index[j] != {} && forall r :: r in index[j] ==> r in jobs && jobs[r] == j
  }

  predicate Indexed<R, J>(jobs: map<R, J>, index: map<J, set<R>>, r: R)
    requires r in jobs
  {
    jobs[r] in index && r in index[jobs[r]]
  }

  predicate IsInverse<R, J>(jobs: map<R, J>, index: map<J, set<R>>) {
    && (forall j {:trigger Backed(jobs, index, j)} :: j in index ==> Backed(jobs, index, j))
    && (forall r {:trigger Indexed(jobs, index, r)} :: r in jobs ==> Indexed(jobs, index, r))
  }

  /** The requests of a job, found by scanning them all. */
  function Scan<R, J(==)>(jobs: map<R, J>, j: J): set<R> {
    set r | r in jobs && jobs[r] == j
  }

  function Lookup<R, J>(index: map<J, set<R>>, j: J): set<R> {
    if j in index then index[j] else {}
  }

  function Added<R, J>(index: map<J, set<R>>, j: J, r: R): map<J, set<R>> {
    index[j := Lookup(index, j) + {r}]
  }

  function Removed<R, J>(index: map<J, set<R>>, j: J, r: R): map<J, set<R>> {
    if j !in index then index
    else if index[j] - {r} == {} then index - {j}
    else index[j := index[j] - {r}]
  }

  lemma LookupIsScan<R, J>(jobs: map<R, J>, index: map<J, set<R>>, j: J)
    requires IsInverse(jobs, index)
    ensures Lookup(index, j) == Scan(jobs, j)
  {
    if j in index { assert Backed(jobs, index, j); }
    forall r | r in Scan(jobs, j) ensures r in Lookup(index, j) {
      assert Indexed(jobs, index, r);
    }
  }

  /** Adding a request keeps the index exact if and only if the request was not in
      flight already under another job. */
  lemma AddedIsInverse<R, J>(jobs: map<R, J>, index: map<J, set<R>>, j: J, r: R)
    requires IsInverse(jobs, index)
    ensures IsInverse(jobs[r := j], Added(index, j, r)) <==> (r in jobs ==> jobs[r] == j)
  {
    var jobs', index' := jobs[r := j], Added(index, j, r);
    if r in jobs && jobs[r] != j {
      assert Indexed(jobs, index, r);
      assert !Backed(jobs', index', jobs[r]);
    } else {
      forall k | k in index' ensures Backed(jobs', index', k) {
        if k in index { assert Backed(jobs, index, k); }
      }
      forall q | q in jobs' ensures Indexed(jobs', index', q) {
        if q in jobs { assert Indexed(jobs, index, q); }
      }
    }
  }

  lemma RemovedIsInverse<R, J>(jobs: map<R, J>, index: map<J, set<R>>, r: R)
    requires IsInverse(jobs, index) && r in jobs
    ensures IsInverse(jobs - {r}, Removed(index, jobs[r], r))
  {
    var jobs', index' := jobs - {r}, Removed(index, jobs[r], r);
    forall k | k in index' ensures Backed(jobs', index', k) {
      assert Backed(jobs, index, k);
    }
    forall q | q in jobs' ensures Indexed(jobs', index', q) {
      assert Indexed(jobs, index, q);
    }
  }

  /** Removing a request that is not there changes nothing. */
  lemma RemovedNothing<R, J>(jobs: map<R, J>, index: map<J, set<R>>, j: J, r: R)
    requires IsInverse(jobs, index) && r !in jobs
    ensures Removed(index, j, r) == index
  {
    if j in index {
      assert Backed(jobs, index, j);
      assert index[j] - {r} == index[j];
    }
  }

  lemma IndexedJobsHaveRequests<R, J>(jobs: map<R, J>, index: map<J, set<R>>)
    requires IsInverse(jobs, index)
    ensures index.Keys == jobs.Values
  {
    forall j | j in index ensures j in jobs.Values {
      assert Backed(jobs, index, j);
      var r :| r in index[j];
      assert jobs[r] == j;
    }
    forall r | r in jobs ensures jobs[r] in index {
      assert Indexed(jobs, index, r);
    }
  }
}
