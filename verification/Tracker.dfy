/** The table of running jobs that the status page shows, one entry per server. */
module Tracker {

  datatype JobInfo = JobInfo(serverName: string, snapshot: string, state: string, bytesMoved: int, totalSize: int)

  type Jobs = map<string, JobInfo>

  function Added(jobs: Jobs, key: string, info: JobInfo): Jobs {
    jobs[key := info]
  }

  function Removed(jobs: Jobs, key: string): Jobs {
    jobs - {key}
  }

  function UpdatedIf(jobs: Jobs, key: string, snapshot: string, info: JobInfo): Jobs {
    if key !in jobs || jobs[key].snapshot == snapshot then jobs[key := info] else jobs
  }

  function RemovedIf(jobs: Jobs, key: string, snapshot: string): Jobs {
    if key in jobs && jobs[key].snapshot == snapshot then jobs - {key} else jobs
  }

  class JobTracker {
    var jobs: Jobs

    constructor ()
      ensures jobs == map[]
    {
      jobs := map[];
    }

    method Add(key: string, info: JobInfo)
      modifies this
      ensures jobs == Added(old(jobs), key, info)
      ensures key in jobs && jobs[key] == info && jobs - {key} == old(jobs) - {key}
    {
      jobs := jobs[key := info];
    }

    method Remove(key: string)
      modifies this
      ensures jobs == Removed(old(jobs), key)
      ensures key !in jobs && jobs == old(jobs) - {key}
    {
      jobs := jobs - {key};
    }

    method UpdateIfSnapshot(key: string, snapshot: string, info: JobInfo) returns (done: bool)
      modifies this
      ensures jobs == UpdatedIf(old(jobs), key, snapshot, info)
      ensures key !in old(jobs) || old(jobs)[key].snapshot == snapshot ==>
                key in jobs && jobs[key] == info && jobs - {key} == old(jobs) - {key}
      ensures key in old(jobs) && old(jobs)[key].snapshot != snapshot ==> jobs == old(jobs)
      ensures done <==> (key in old(jobs) ==> old(jobs)[key].snapshot == snapshot)
    {
      if key !in jobs || jobs[key].snapshot == snapshot {
        jobs := jobs[key := info];
        return true;
      }
      return false;
    }

    method RemoveIfSnapshot(key: string, snapshot: string) returns (done: bool)
      modifies this
      ensures jobs == RemovedIf(old(jobs), key, snapshot)
      ensures key in old(jobs) && old(jobs)[key].snapshot == snapshot ==> key !in jobs && jobs == old(jobs) - {key}
      ensures key !in old(jobs) || old(jobs)[key].snapshot != snapshot ==> jobs == old(jobs)
      ensures done <==> key in old(jobs) && old(jobs)[key].snapshot == snapshot
    {
      if key in jobs && jobs[key].snapshot == snapshot {
        jobs := jobs - {key};
        return true;
      }
      return false;
    }

    /** A copy, entry by entry. */
    method Snapshot() returns (snap: Jobs)
      ensures snap == jobs
    {
      snap := map[];
      var left := jobs.Keys;
      while left != {}
        invariant left <= jobs.Keys
        invariant snap == map k | k in jobs && k !in left :: jobs[k]
      {
        var k :| k in left;
        snap := snap[k := jobs[k]];
        left := left - {k};
      }
    }
  }
}
