/** The in-memory job tracker of the scraping API: `Job` records and the
    `JobManager` dictionary that holds them. Clock readings are passed in
    as `now`; job identifiers come from the caller (a fresh UUID). */
module Jobs {
  import opened Common
  import opened ScrapeModels

  datatype JobError = JobError(timestamp: int, error: string, traceback: Option<string>)

  /** `min(100, max(0, progress))`. */
  function ClampProgress(progress: int): (r: int)
    ensures 0 <= r <= 100
    ensures 0 <= progress <= 100 ==> r == progress
    ensures progress < 0 ==> r == 0
    ensures progress > 100 ==> r == 100
  {
    Min(100, Max(0, progress))
  }

  /** Statuses after which a job counts as finished. */
  predicate IsTerminal(s: JobStatus) {
    s == Completed || s == Failed
  }

  /** A value passed to `update_job`, typed by the attribute it names. */
  datatype AttrValue = StatusValue(status: JobStatus) | IntValue(n: int)

  /** The attributes `update_job` can assign: the status and the counters. */
  function SettableKind(key: string): Option<bool>
  {
    if key == "status" then Some(true)
    else if key in {"progress", "total_extracted", "uploaded_to_airtable", "companies_created", "ratings_created"} then Some(false)
    else None
  }

  /** Other attributes a `Job` has; the model does not assign them. */
  predicate OtherAttribute(key: string) {
    key in {"job_id", "errors", "created_at", "updated_at", "completed_at", "start_date", "end_date",
            "update_status", "update_progress", "add_error", "to_dict"}
  }

  /** Every known attribute named in `kwargs` gets a value of its own type. */
  predicate WellTypedKwargs(kwargs: map<string, AttrValue>) {
    forall k | k in kwargs ::
      !OtherAttribute(k) && (SettableKind(k).Some? ==> SettableKind(k).value == kwargs[k].StatusValue?)
  }

  /** The integer `kwargs` assigns to `key`, or `current` when it names none. */
  function KwargInt(kwargs: map<string, AttrValue>, key: string, current: int): int {
    if key in kwargs && kwargs[key].IntValue? then kwargs[key].n else current
  }

  /** The same, once the keys in `pending` have not been visited yet. */
  function VisitedInt(kwargs: map<string, AttrValue>, pending: set<string>, key: string, current: int): int {
    if key in kwargs && key !in pending && kwargs[key].IntValue? then kwargs[key].n else current
  }

  /** The integer a `setattr(key, value)` leaves in the attribute `name`. */
  function Assigned(key: string, value: AttrValue, name: string, current: int): int {
    if key == name && value.IntValue? then value.n else current
  }

  class Job {
    const jobId: string
    var status: JobStatus
    var progress: int
    var totalExtracted: int
    var uploadedToAirtable: int
    var companiesCreated: int
    var ratingsCreated: int
    var errors: seq<JobError>
    var createdAt: int
    var updatedAt: int
    var completedAt: Option<int>
    const startDate: string
    const endDate: string

    constructor (jobId: string, startDate: string, endDate: string, now: int)
      ensures this.jobId == jobId && this.startDate == startDate && this.endDate == endDate
      ensures status == Queued && progress == 0
      ensures totalExtracted == 0 && uploadedToAirtable == 0 && companiesCreated == 0 && ratingsCreated == 0
      ensures errors == [] && completedAt == None
      ensures createdAt == now && updatedAt == now
    {
      this.jobId := jobId;
      status := Queued;
      progress := 0;
      totalExtracted := 0;
      uploadedToAirtable := 0;
      companiesCreated := 0;
      ratingsCreated := 0;
      errors := [];
      createdAt := now;
      updatedAt := now;
      completedAt := None;
      this.startDate := startDate;
      this.endDate := endDate;
    }

    /** `update_status`: the completion time is stamped on every move to a
        terminal status and is never cleared. */
    method UpdateStatus(newStatus: JobStatus, now: int)
      modifies this
      ensures status == newStatus && updatedAt == now
      ensures completedAt == if IsTerminal(newStatus) then Some(now) else old(completedAt)
      ensures progress == old(progress) && errors == old(errors) && createdAt == old(createdAt)
      ensures totalExtracted == old(totalExtracted) && uploadedToAirtable == old(uploadedToAirtable)
      ensures companiesCreated == old(companiesCreated) && ratingsCreated == old(ratingsCreated)
    {
      status := newStatus;
      updatedAt := now;
      if IsTerminal(newStatus) {
        completedAt := Some(now);
      }
    }

    /** `update_progress`: stores the progress clamped into 0..100. */
    method UpdateProgress(newProgress: int, now: int)
      modifies this
      ensures progress == ClampProgress(newProgress) && updatedAt == now
      ensures status == old(status) && errors == old(errors) && completedAt == old(completedAt)
      ensures createdAt == old(createdAt)
      ensures totalExtracted == old(totalExtracted) && uploadedToAirtable == old(uploadedToAirtable)
      ensures companiesCreated == old(companiesCreated) && ratingsCreated == old(ratingsCreated)
    {
      progress := ClampProgress(newProgress);
      updatedAt := now;
    }

    /** `setattr(job, key, value)` for an attribute `update_job` may
        assign; any other name leaves the job as it is. */
    method SetAttr(key: string, value: AttrValue)
      requires key == "status" ==> value.StatusValue?
      modifies this
      ensures status == if key == "status" then value.status else old(status)
      ensures progress == Assigned(key, value, "progress", old(progress))
      ensures totalExtracted == Assigned(key, value, "total_extracted", old(totalExtracted))
      ensures uploadedToAirtable == Assigned(key, value, "uploaded_to_airtable", old(uploadedToAirtable))
      ensures companiesCreated == Assigned(key, value, "companies_created", old(companiesCreated))
      ensures ratingsCreated == Assigned(key, value, "ratings_created", old(ratingsCreated))
      ensures errors == old(errors) && createdAt == old(createdAt) && completedAt == old(completedAt)
      ensures updatedAt == old(updatedAt)
    {
      if key == "status" {
        status := value.status;
      } else if value.IntValue? {
        if key == "progress" {
          progress := value.n;
        } else if key == "total_extracted" {
          totalExtracted := value.n;
        } else if key == "uploaded_to_airtable" {
          uploadedToAirtable := value.n;
        } else if key == "companies_created" {
          companiesCreated := value.n;
        } else if key == "ratings_created" {
          ratingsCreated := value.n;
        }
      }
    }

    /** `add_error`: appends one error and keeps the earlier ones. */
    method AddError(error: string, traceback: Option<string>, now: int)
      modifies this
      ensures errors == old(errors) + [JobError(now, error, traceback)] && updatedAt == now
      ensures status == old(status) && progress == old(progress) && completedAt == old(completedAt)
      ensures createdAt == old(createdAt)
      ensures totalExtracted == old(totalExtracted) && uploadedToAirtable == old(uploadedToAirtable)
      ensures companiesCreated == old(companiesCreated) && ratingsCreated == old(ratingsCreated)
    {
      errors := errors + [JobError(now, error, traceback)];
      updatedAt := now;
    }
  }

  /** The number of items `items[:limit]` keeps from a list of `n`. */
  function PrefixLength(n: nat, limit: int): (k: nat)
    ensures k <= n
    ensures limit >= 0 ==> k == Min(n, limit)
    ensures limit < 0 ==> k == Max(0, n + limit)
  {
    if limit >= 0 then Min(n, limit) else Max(0, n + limit)
  }

  /** A job with the creation time it had when listed. */
  datatype Listed = Listed(createdAt: int, job: Job)

  predicate SortedNewestFirst(s: seq<Listed>) {
    forall i, j | 0 <= i < j < |s| :: s[i].createdAt >= s[j].createdAt
  }

  /** No job is listed twice. */
  predicate DistinctJobs(s: seq<Listed>) {
    forall i, j | 0 <= i < j < |s| :: s[i].job != s[j].job
  }

  /** Inserting into a list sorted newest first. */
  function InsertNewestFirst(x: Listed, s: seq<Listed>): (r: seq<Listed>)
    requires SortedNewestFirst(s)
    ensures SortedNewestFirst(r)
    ensures |r| == |s| + 1
    ensures x in r && (forall y | y in s :: y in r) && (forall y | y in r :: y == x || y in s)
    ensures DistinctJobs(s) && (forall y | y in s :: y.job != x.job) ==> DistinctJobs(r)
  {
    if s == [] || x.createdAt >= s[0].createdAt then [x] + s
    else
      var rest := InsertNewestFirst(x, s[1..]);
      assert forall y | y in s[1..] :: y in s;
      HeadNewest(s);
      SortedCons(s[0], rest);
      assert DistinctJobs(s) && (forall y | y in s :: y.job != x.job) ==> DistinctJobs([s[0]] + rest) by {
        if DistinctJobs(s) && (forall y | y in s :: y.job != x.job) {
          DistinctTail(s);
          DistinctCons(s[0], rest);
        }
      }
      [s[0]] + rest
  }

  /** The head of a list sorted newest first is at least as new as the rest. */
  lemma HeadNewest(s: seq<Listed>)
    requires SortedNewestFirst(s) && s != []
    ensures forall y | y in s[1..] :: y.createdAt <= s[0].createdAt
  {
    forall y | y in s[1..] ensures y.createdAt <= s[0].createdAt {
      var i :| 0 <= i < |s[1..]| && s[1..][i] == y;
      assert s[i + 1] == y;
    }
  }

  lemma SortedCons(a: Listed, t: seq<Listed>)
    requires SortedNewestFirst(t) && forall y | y in t :: y.createdAt <= a.createdAt
    ensures SortedNewestFirst([a] + t)
  {
    var r := [a] + t;
    forall i, j | 0 <= i < j < |r| ensures r[i].createdAt >= r[j].createdAt {
      if i == 0 { assert r[j] in t; }
      else { assert r[i] == t[i - 1] && r[j] == t[j - 1]; }
    }
  }

  lemma DistinctTail(s: seq<Listed>)
    requires DistinctJobs(s) && s != []
    ensures DistinctJobs(s[1..])
    ensures forall y | y in s[1..] :: y.job != s[0].job
  {
    forall y | y in s[1..] ensures y.job != s[0].job {
      var i :| 0 <= i < |s[1..]| && s[1..][i] == y;
      assert s[i + 1] == y;
    }
  }

  lemma DistinctCons(a: Listed, t: seq<Listed>)
    requires DistinctJobs(t) && forall y | y in t :: y.job != a.job
    ensures DistinctJobs([a] + t)
  {
    var r := [a] + t;
    forall i, j | 0 <= i < j < |r| ensures r[i].job != r[j].job {
      if i == 0 { assert r[j] in t; }
      else { assert r[i] == t[i - 1] && r[j] == t[j - 1]; }
    }
  }

  /** `sort(key=created_at, reverse=True)` as an insertion sort. */
  function SortNewestFirst(s: seq<Listed>): (r: seq<Listed>)
    ensures SortedNewestFirst(r)
    ensures |r| == |s|
    ensures (forall y | y in s :: y in r) && (forall y | y in r :: y in s)
    ensures DistinctJobs(s) ==> DistinctJobs(r)
  {
    if s == [] then []
    else
      var rest := SortNewestFirst(s[1..]);
      assert forall y | y in s[1..] :: y in s;
      RestAvoidsHead(s, rest);
      InsertNewestFirst(s[0], rest)
  }

  lemma RestAvoidsHead(s: seq<Listed>, rest: seq<Listed>)
    requires s != [] && forall y | y in rest :: y in s[1..]
    ensures DistinctJobs(s) ==> forall y | y in rest :: y.job != s[0].job
  {
    if DistinctJobs(s) {
      DistinctTail(s);
    }
  }

  class JobManager {
    var jobs: map<string, Job>

    /** Each job is stored under its own id. */
    ghost predicate Valid()
      reads this, jobs.Values
    {
      forall id | id in jobs :: jobs[id].jobId == id
    }

    constructor ()
      ensures Valid() && jobs == map[]
    {
      jobs := map[];
    }

    /** `get_job`: the job stored under the id, if any. */
    function GetJob(jobId: string): (r: Option<Job>)
      reads this
      ensures r.Some? <==> jobId in jobs
      ensures r.Some? ==> r.value in jobs.Values
    {
      if jobId in jobs then Some(jobs[jobId]) else None
    }

    /** `create_job`: a new queued job registered under `jobId`. */
    method CreateJob(jobId: string, startDate: string, endDate: string, now: int) returns (job: Job)
      requires Valid()
      modifies this
      ensures Valid() && fresh(job)
      ensures jobs == old(jobs)[jobId := job]
      ensures GetJob(jobId) == Some(job)
      ensures job.jobId == jobId && job.status == Queued && job.progress == 0 && job.createdAt == now
    {
      job := new Job(jobId, startDate, endDate, now);
      jobs := jobs[jobId := job];
    }

    /** `update_job`: for a known id, assigns each named attribute the job
        has, ignores names it does not have, and stamps `updated_at`. No
        clamping and no completion stamp: the values are stored as given. */
    method UpdateJob(jobId: string, kwargs: map<string, AttrValue>, now: int)
      requires Valid() && WellTypedKwargs(kwargs)
      modifies if jobId in jobs then {jobs[jobId]} else {}
      ensures Valid()
      ensures jobId in jobs ==>
        var job := jobs[jobId];
        && job.status == (if "status" in kwargs then kwargs["status"].status else old(job.status))
        && job.progress == KwargInt(kwargs, "progress", old(job.progress))
        && job.totalExtracted == KwargInt(kwargs, "total_extracted", old(job.totalExtracted))
        && job.uploadedToAirtable == KwargInt(kwargs, "uploaded_to_airtable", old(job.uploadedToAirtable))
        && job.companiesCreated == KwargInt(kwargs, "companies_created", old(job.companiesCreated))
        && job.ratingsCreated == KwargInt(kwargs, "ratings_created", old(job.ratingsCreated))
        && job.errors == old(job.errors) && job.createdAt == old(job.createdAt)
        && job.completedAt == old(job.completedAt) && job.updatedAt == now
    {
      if jobId !in jobs { return; }
      var job := jobs[jobId];
      var keys := kwargs.Keys;
      while keys != {}
        invariant keys <= kwargs.Keys
        invariant job.status == (if "status" in kwargs && "status" !in keys then kwargs["status"].status else old(job.status))
        invariant job.progress == VisitedInt(kwargs, keys, "progress", old(job.progress))
        invariant job.totalExtracted == VisitedInt(kwargs, keys, "total_extracted", old(job.totalExtracted))
        invariant job.uploadedToAirtable == VisitedInt(kwargs, keys, "uploaded_to_airtable", old(job.uploadedToAirtable))
        invariant job.companiesCreated == VisitedInt(kwargs, keys, "companies_created", old(job.companiesCreated))
        invariant job.ratingsCreated == VisitedInt(kwargs, keys, "ratings_created", old(job.ratingsCreated))
        invariant job.errors == old(job.errors) && job.createdAt == old(job.createdAt)
        invariant job.completedAt == old(job.completedAt)
        decreases keys
      {
        var key :| key in keys;
        job.SetAttr(key, kwargs[key]);
        keys := keys - {key};
      }
      job.updatedAt := now;
    }

    /** `list(self._jobs.values())`, each job with its creation time. */
    method ListedJobs() returns (all: seq<Listed>)
      ensures forall x | x in all :: x.job in jobs.Values && x.createdAt == x.job.createdAt
      ensures DistinctJobs(all)
      ensures |all| == |jobs.Values|
      ensures forall j | j in jobs.Values :: j in Jobs(all)
    {
      all := [];
      var rest := jobs.Values;
      while rest != {}
        invariant rest <= jobs.Values
        invariant forall x | x in all :: x.job in jobs.Values && x.job !in rest && x.createdAt == x.job.createdAt
        invariant DistinctJobs(all)
        invariant |all| + |rest| == |jobs.Values|
        invariant forall j | j in jobs.Values && j !in rest :: j in Jobs(all)
        decreases rest
      {
        var j :| j in rest;
        ghost var before := Jobs(all);
        all := all + [Listed(j.createdAt, j)];
        assert forall i | 0 <= i < |before| :: Jobs(all)[i] == before[i];
        assert Jobs(all)[|all| - 1] == j;
        rest := rest - {j};
      }
    }

    /** `list_jobs(limit)`: the most recently created jobs, newest first,
        as many as `jobs[:limit]` keeps. */
    method ListJobs(limit: int) returns (r: seq<Job>)
      requires Valid()
      ensures |r| == PrefixLength(|jobs.Values|, limit)
      ensures forall j | j in r :: j in jobs.Values
      ensures forall i, k | 0 <= i < k < |r| :: r[i] != r[k] && r[i].createdAt >= r[k].createdAt
      ensures forall j | j in jobs.Values && j !in r && |r| > 0 :: j.createdAt <= r[|r| - 1].createdAt
    {
      var all := ListedJobs();
      var sorted := SortNewestFirst(all);
      var n := PrefixLength(|sorted|, limit);
      r := Jobs(sorted[..n]);
      NewestPrefixMembers(jobs.Values, all, sorted, n);
      NewestPrefixOrdered(sorted, n);
      NewestPrefixNewest(jobs.Values, all, sorted, n);
    }
  }

  /** The first `n` entries of a sorted copy of the listing `all` of the
      jobs `values` are jobs of `values`. */
  lemma NewestPrefixMembers(values: set<Job>, all: seq<Listed>, sorted: seq<Listed>, n: nat)
    requires forall x | x in all :: x.job in values
    requires n <= |sorted| && forall y | y in sorted :: y in all
    ensures forall j | j in Jobs(sorted[..n]) :: j in values
  {
    var r := Jobs(sorted[..n]);
    forall j | j in r ensures j in values {
      var i :| 0 <= i < n && r[i] == j;
      assert sorted[i] in all;
    }
  }

  /** ... are distinct and newest first. */
  lemma NewestPrefixOrdered(sorted: seq<Listed>, n: nat)
    requires SortedNewestFirst(sorted) && DistinctJobs(sorted) && n <= |sorted|
    requires forall y | y in sorted :: y.createdAt == y.job.createdAt
    ensures forall i, k | 0 <= i < k < n ::
      Jobs(sorted[..n])[i] != Jobs(sorted[..n])[k] && Jobs(sorted[..n])[i].createdAt >= Jobs(sorted[..n])[k].createdAt
  {
    var r := Jobs(sorted[..n]);
    forall i, k | 0 <= i < k < n ensures r[i] != r[k] && r[i].createdAt >= r[k].createdAt {
      assert r[i] == sorted[i].job && r[k] == sorted[k].job;
      assert sorted[i] in sorted && sorted[k] in sorted;
    }
  }

  /** ... and no job left out is newer than the last one kept. */
  lemma NewestPrefixNewest(values: set<Job>, all: seq<Listed>, sorted: seq<Listed>, n: nat)
    requires forall x | x in all :: x.createdAt == x.job.createdAt
    requires forall j | j in values :: j in Jobs(all)
    requires SortedNewestFirst(sorted) && n <= |sorted|
    requires forall y | y in all :: y in sorted
    requires forall y | y in sorted :: y.createdAt == y.job.createdAt
    ensures forall j | j in values && j !in Jobs(sorted[..n]) && n > 0 :: j.createdAt <= Jobs(sorted[..n])[n - 1].createdAt
  {
    var r := Jobs(sorted[..n]);
    forall j | j in values && j !in r && n > 0 ensures j.createdAt <= r[n - 1].createdAt {
      var i :| 0 <= i < |all| && Jobs(all)[i] == j;
      var x := all[i];
      assert x.job == j && x in sorted;
      var p :| 0 <= p < |sorted| && sorted[p] == x;
      assert forall q | 0 <= q < n :: r[q] == sorted[q].job;
      assert p >= n;
      assert sorted[n - 1].createdAt >= sorted[p].createdAt;
    }
  }

  /** The jobs of a listing, in order. */
  function Jobs(s: seq<Listed>): (r: seq<Job>)
    ensures |r| == |s| && forall i | 0 <= i < |s| :: r[i] == s[i].job
  {
    if s == [] then [] else [s[0].job] + Jobs(s[1..])
  }
}
