/** The bookkeeping of the driver `openmlpimp/examples/run_on_openml.py`: the
    parameters never analysed, the zero-seeded running totals, the
    normalisation of a backend's result, and the loop over tasks with every
    external step (caching, configuration-space parsing, the analysis backend,
    ranking) replaced by its outcome. */
module Driver {
  import opened Wrappers
  import opened Errors
  import opened Values

  /** Ignored whatever is fixed. */
  const BaseIgnored: set<string> := {"random_state", "sparse", "verbose"}

  /** The fixed parameters (if any) fix `kernel` to the string `kernel`. */
  predicate KernelIs(fixed: Option<map<string, Json>>, kernel: string) {
    fixed.Some? && "kernel" in fixed.value && fixed.value["kernel"] == JStr(kernel)
  }

  /** `fixed_parameters_to_ignore_parameters(fixed_parameters)`. */
  function IgnoreParameters(fixed: Option<map<string, Json>>): (r: set<string>)
    ensures BaseIgnored <= r
    ensures r - BaseIgnored <= {"coef0", "degree"}
    ensures "coef0" in r <==> KernelIs(fixed, "rbf")
    ensures "degree" in r <==> KernelIs(fixed, "rbf") || KernelIs(fixed, "sigmoid")
  {
    if fixed.None? then BaseIgnored
    else if "kernel" in fixed.value then
      if fixed.value["kernel"] == JStr("rbf") then BaseIgnored + {"coef0", "degree"}
      else if fixed.value["kernel"] == JStr("sigmoid") then BaseIgnored + {"degree"}
      else BaseIgnored
    else BaseIgnored
  }

  /** The ignore set for each kind of fixed parameters. */
  lemma IgnoreParametersCases(fixed: Option<map<string, Json>>)
    ensures fixed.None? ==> IgnoreParameters(fixed) == {"random_state", "sparse", "verbose"}
    ensures KernelIs(fixed, "rbf") ==> IgnoreParameters(fixed) == BaseIgnored + {"coef0", "degree"}
    ensures KernelIs(fixed, "sigmoid") ==> IgnoreParameters(fixed) == BaseIgnored + {"degree"}
    ensures !KernelIs(fixed, "rbf") && !KernelIs(fixed, "sigmoid") ==> IgnoreParameters(fixed) == BaseIgnored
  {
  }

  /** `{param.name: 0 for param in configspace.get_hyperparameters()}`. */
  function SeedTotals(names: set<string>): (totals: map<string, int>)
    ensures totals.Keys == names
    ensures forall k :: k in totals ==> totals[k] == 0
  {
    map k | k in names :: 0
  }

  /** Bookkeeping fields of an ablation result that are not parameters. */
  const Stripped: set<string> := {"-source-", "-target-"}

  /** Every key of `keys` the result lacks is added with importance 0.0. */
  function Backfill(m: map<string, Json>, keys: set<string>): (r: map<string, Json>)
    ensures r.Keys == m.Keys + keys
    ensures forall k :: k in m ==> r[k] == m[k]
    ensures forall k :: k in keys && k !in m ==> r[k] == JReal(0.0)
  {
    map k | k in m.Keys + keys :: if k in m then m[k] else JReal(0.0)
  }

  /** An `ablation` result is unwrapped, stripped of its bookkeeping fields
      and backfilled; any other result is kept. */
  function UnwrapAblation(data: map<string, Json>, totalKeys: set<string>): (r: Result<map<string, Json>, Error>)
  {
    if "ablation" !in data then Ok(data)
    else
      match data["ablation"]
      case JObject(payload) => Ok(Backfill(payload - Stripped, totalKeys))
      case _ => Err(MalformedResult)
  }

  /** The result file can be normalised: an `ablation` entry, if any, is an
      object. */
  predicate ResultReadable(data: map<string, Json>) {
    "ablation" in data ==> data["ablation"].JObject?
  }

  /** The normalisation of one task's decoded result file against the keys of
      the running totals: the ablation payload is unwrapped, loses its
      `-source-` and `-target-` fields and gains every missing total key at
      0.0; then a `fanova` entry (of what is left) is unwrapped as it is. */
  function NormaliseResult(data: map<string, Json>, totalKeys: set<string>): (r: Result<Json, Error>)
    ensures r.Ok? <==> ResultReadable(data)
    ensures "ablation" in data && !data["ablation"].JObject? ==> r == Err(MalformedResult)
    ensures "ablation" !in data && "fanova" in data ==> r == Ok(data["fanova"])
    ensures "ablation" !in data && "fanova" !in data ==> r == Ok(JObject(data))
    ensures "ablation" in data && data["ablation"].JObject? ==>
      var payload := data["ablation"].fields;
      "fanova" !in payload && "fanova" !in totalKeys ==>
        && r.Ok? && r.value.JObject?
        && r.value.fields.Keys == (payload.Keys - Stripped) + totalKeys
        && (forall k :: k in Stripped && k !in totalKeys ==> k !in r.value.fields)
        && (forall k :: k in payload && k !in Stripped ==> r.value.fields[k] == payload[k])
        && (forall k :: k in totalKeys && (k !in payload || k in Stripped) ==> r.value.fields[k] == JReal(0.0))
    ensures "ablation" in data && data["ablation"].JObject? && "fanova" in data["ablation"].fields ==>
      r == Ok(data["ablation"].fields["fanova"])
    ensures "ablation" in data && data["ablation"].JObject? && "fanova" !in data["ablation"].fields && "fanova" in totalKeys ==>
      r == Ok(JReal(0.0))
  {
    var d :- UnwrapAblation(data, totalKeys);
    if "fanova" in d then Ok(d["fanova"]) else Ok(JObject(d))
  }

  /** Normalising an already normalised ablation result changes nothing. */
  lemma NormaliseIdempotent(data: map<string, Json>, totalKeys: set<string>)
    requires "ablation" in data && data["ablation"].JObject?
    requires "fanova" !in data["ablation"].fields && "fanova" !in totalKeys
    ensures var once := NormaliseResult(data, totalKeys).value;
      NormaliseResult(map["ablation" := once], totalKeys) == Ok(once)
  {
    var once := NormaliseResult(data, totalKeys).value;
    var twice := Backfill(once.fields - Stripped, totalKeys);
    assert twice.Keys == once.fields.Keys;
    forall k | k in twice ensures twice[k] == once.fields[k] {
      if k in Stripped {
        assert k in totalKeys;
      }
    }
    assert twice == once.fields;
  }

  /** The backfill example: `{"ablation": {"a": 0.7}}` against totals over
      `a` and `b` normalises to `{"a": 0.7, "b": 0.0}`. */
  lemma NormaliseExample()
    ensures NormaliseResult(map["ablation" := JObject(map["a" := JReal(0.7)])], {"a", "b"})
            == Ok(JObject(map["a" := JReal(0.7), "b" := JReal(0.0)]))
  {
    var r := NormaliseResult(map["ablation" := JObject(map["a" := JReal(0.7)])], {"a", "b"});
    assert r.value.fields == map["a" := JReal(0.7), "b" := JReal(0.0)];
  }

  /** What the external steps of one task did. */
  datatype TaskOutcome = TaskOutcome(
    taskId: int,
    prepared: bool,                         // the run-history / configuration-space cache step returned
    hyperparameters: Option<set<string>>,   // names read from the configuration space; None if reading raised
    result: Option<map<string, Json>>)      // the backend's decoded result file; None if the backend raised

  /** The running state of the loop: `total_ranks` (None until seeded),
      `all_ranks` and `nr_tasks`. */
  datatype Aggregate = Aggregate(totals: Option<map<string, int>>, allRanks: map<int, Json>, nrTasks: nat)

  /** The totals the task works with: the running ones, or, before the first
      seeding, zeros over the configuration space's names. */
  function TotalsFor(s: Aggregate, t: TaskOutcome): Option<map<string, int>> {
    if s.totals.Some? then s.totals
    else if t.hyperparameters.Some? then Some(SeedTotals(t.hyperparameters.value))
    else None
  }

  /** The whole body of the task ran without raising; `accumulate` stands for
      ranking the result and adding the ranks into the totals (None when that
      raised). */
  predicate Completes(s: Aggregate, t: TaskOutcome, accumulate: (map<string, int>, Json) -> Option<map<string, int>>) {
    && t.prepared
    && TotalsFor(s, t).Some?
    && t.result.Some?
    && NormaliseResult(t.result.value, TotalsFor(s, t).value.Keys).Ok?
    && accumulate(TotalsFor(s, t).value, NormaliseResult(t.result.value, TotalsFor(s, t).value.Keys).value).Some?
  }

  /** The task's result is stored in `all_ranks`: everything before the
      ranking ran. */
  predicate Records(s: Aggregate, t: TaskOutcome) {
    && t.prepared
    && TotalsFor(s, t).Some?
    && t.result.Some?
    && NormaliseResult(t.result.value, TotalsFor(s, t).value.Keys).Ok?
  }

  /** One iteration of the loop over tasks, a raise anywhere ending it early
      with what had been assigned so far. */
  function ProcessTask(s: Aggregate, t: TaskOutcome, accumulate: (map<string, int>, Json) -> Option<map<string, int>>)
    : (r: Aggregate)
    ensures r.nrTasks == s.nrTasks + (if Completes(s, t, accumulate) then 1 else 0)
    ensures s.totals.Some? ==> r.totals.Some?
    ensures s.totals.None? ==> (r.totals.Some? <==> t.prepared && t.hyperparameters.Some?)
    ensures s.totals.None? && r.totals.Some? && !Completes(s, t, accumulate) ==>
      r.totals.value.Keys == t.hyperparameters.value && forall k :: k in r.totals.value ==> r.totals.value[k] == 0
    ensures s.totals.None? && r.totals.Some? && !Completes(s, t, accumulate) ==>
      r.totals == Some(SeedTotals(t.hyperparameters.value))
    ensures !Completes(s, t, accumulate) && s.totals.Some? ==> r.totals == s.totals
    ensures r.allRanks.Keys <= s.allRanks.Keys + {t.taskId}
    ensures Completes(s, t, accumulate) ==>
      r.allRanks == s.allRanks[t.taskId := NormaliseResult(t.result.value, TotalsFor(s, t).value.Keys).value]
    ensures Completes(s, t, accumulate) ==>
      r.totals == accumulate(TotalsFor(s, t).value, NormaliseResult(t.result.value, TotalsFor(s, t).value.Keys).value)
    ensures r.allRanks == if Records(s, t)
      then s.allRanks[t.taskId := NormaliseResult(t.result.value, TotalsFor(s, t).value.Keys).value]
      else s.allRanks
  {
    if !t.prepared then s
    else
      var totals := TotalsFor(s, t);
      if totals.None? then s
      else
        var s1 := s.(totals := totals);
        if t.result.None? then s1
        else
          match NormaliseResult(t.result.value, totals.value.Keys)
          case Err(_) => s1
          case Ok(data) =>
            var s2 := s1.(allRanks := s1.allRanks[t.taskId := data]);
            match accumulate(totals.value, data)
            case None => s2
            case Some(next) => s2.(totals := Some(next), nrTasks := s2.nrTasks + 1)
  }

  /** The prepared tasks whose configuration space could be read: the ones
      that can seed the totals. */
  predicate CanSeed(t: TaskOutcome) {
    t.prepared && t.hyperparameters.Some?
  }

  /** A task whose result is stored once totals exist. */
  predicate Recordable(t: TaskOutcome) {
    t.prepared && t.result.Some? && ResultReadable(t.result.value)
  }

  /** How many of `tasks` get their result stored, the totals being seeded
      already when `seeded` holds: a reference count that does not run the
      loop. */
  function CountRecordable(seeded: bool, tasks: seq<TaskOutcome>): (n: nat)
    ensures n <= |tasks|
    decreases |tasks|
  {
    if |tasks| == 0 then 0
    else
      (if Recordable(tasks[0]) && (seeded || CanSeed(tasks[0])) then 1 else 0)
      + CountRecordable(seeded || CanSeed(tasks[0]), tasks[1..])
  }

  /** Ranking and summing never raise. */
  ghost predicate AlwaysAccumulates(accumulate: (map<string, int>, Json) -> Option<map<string, int>>) {
    forall m, d :: accumulate(m, d).Some?
  }

  /** A stored result is the normalisation of some task's result file, or
      was there before. */
  ghost predicate StoredFrom(s: Aggregate, r: Aggregate, tasks: seq<TaskOutcome>) {
    forall k :: k in r.allRanks ==>
      (k in s.allRanks && r.allRanks[k] == s.allRanks[k])
      || exists i, keys :: 0 <= i < |tasks| && tasks[i].taskId == k && tasks[i].result.Some?
                           && NormaliseResult(tasks[i].result.value, keys) == Ok(r.allRanks[k])
  }

  /** Task `i` is the first of `tasks` that can seed the totals. */
  predicate FirstSeeder(tasks: seq<TaskOutcome>, i: int) {
    0 <= i < |tasks| && CanSeed(tasks[i]) && forall j :: 0 <= j < i ==> !CanSeed(tasks[j])
  }

  /** The loop over the study's tasks. */
  function ProcessTasks(s: Aggregate, tasks: seq<TaskOutcome>,
                        accumulate: (map<string, int>, Json) -> Option<map<string, int>>): (r: Aggregate)
    ensures s.nrTasks <= r.nrTasks <= s.nrTasks + CountRecordable(s.totals.Some?, tasks)
    ensures AlwaysAccumulates(accumulate) ==> r.nrTasks == s.nrTasks + CountRecordable(s.totals.Some?, tasks)
    ensures r.totals.None? <==> s.totals.None? && forall i :: 0 <= i < |tasks| ==> !CanSeed(tasks[i])
    ensures r.totals.None? ==> r.nrTasks == s.nrTasks
    ensures s.allRanks.Keys <= r.allRanks.Keys
    ensures forall k :: k in r.allRanks ==> k in s.allRanks || exists i :: 0 <= i < |tasks| && tasks[i].taskId == k
    ensures forall i :: 0 <= i < |tasks| && Recordable(tasks[i])
                        && (s.totals.Some? || exists j :: 0 <= j <= i && CanSeed(tasks[j])) ==>
      tasks[i].taskId in r.allRanks
    ensures StoredFrom(s, r, tasks)
    ensures s.totals.Some? && r.nrTasks == s.nrTasks ==> r.totals == s.totals
    ensures s.totals.None? && r.totals.Some? && r.nrTasks == s.nrTasks ==>
      exists i :: FirstSeeder(tasks, i) && r.totals == Some(SeedTotals(tasks[i].hyperparameters.value))
    decreases |tasks|
  {
    if |tasks| == 0 then s
    else
      var s1 := ProcessTask(s, tasks[0], accumulate);
      var r := ProcessTasks(s1, tasks[1..], accumulate);
      assert forall i :: 1 <= i < |tasks| ==> tasks[i] == tasks[1..][i - 1];
      ProcessTasksRecords(s, s1, r, tasks, accumulate);
      ProcessTasksStored(s, s1, r, tasks, accumulate);
      ProcessTasksSeeded(s, s1, r, tasks, accumulate);
      r
  }

  /** The first task stores its own normalised result; whatever the rest of
      the loop stores comes from a later task. */
  lemma ProcessTasksStored(s: Aggregate, s1: Aggregate, r: Aggregate, tasks: seq<TaskOutcome>,
                           accumulate: (map<string, int>, Json) -> Option<map<string, int>>)
    requires |tasks| > 0 && s1 == ProcessTask(s, tasks[0], accumulate)
    requires StoredFrom(s1, r, tasks[1..])
    ensures StoredFrom(s, r, tasks)
  {
    forall k | k in r.allRanks
      ensures (k in s.allRanks && r.allRanks[k] == s.allRanks[k])
              || exists i, keys :: 0 <= i < |tasks| && tasks[i].taskId == k && tasks[i].result.Some?
                                   && NormaliseResult(tasks[i].result.value, keys) == Ok(r.allRanks[k])
    {
      if k in s1.allRanks && r.allRanks[k] == s1.allRanks[k] {
        if Records(s, tasks[0]) && k == tasks[0].taskId {
          var keys := TotalsFor(s, tasks[0]).value.Keys;
          assert NormaliseResult(tasks[0].result.value, keys) == Ok(r.allRanks[k]);
        }
      } else {
        var i, keys :| 0 <= i < |tasks| - 1 && tasks[1..][i].taskId == k && tasks[1..][i].result.Some?
                       && NormaliseResult(tasks[1..][i].result.value, keys) == Ok(r.allRanks[k]);
        assert tasks[i + 1] == tasks[1..][i];
      }
    }
  }

  /** Unseeded totals that end up seeded with nothing counted are the zeros
      of the first task that could seed them. */
  lemma ProcessTasksSeeded(s: Aggregate, s1: Aggregate, r: Aggregate, tasks: seq<TaskOutcome>,
                           accumulate: (map<string, int>, Json) -> Option<map<string, int>>)
    requires |tasks| > 0 && s1 == ProcessTask(s, tasks[0], accumulate)
    requires s.nrTasks <= s1.nrTasks <= r.nrTasks
    requires s1.totals.Some? && r.nrTasks == s1.nrTasks ==> r.totals == s1.totals
    requires s1.totals.None? && r.totals.Some? && r.nrTasks == s1.nrTasks ==>
      exists i :: FirstSeeder(tasks[1..], i) && r.totals == Some(SeedTotals(tasks[1..][i].hyperparameters.value))
    ensures s.totals.None? && r.totals.Some? && r.nrTasks == s.nrTasks ==>
      exists i :: FirstSeeder(tasks, i) && r.totals == Some(SeedTotals(tasks[i].hyperparameters.value))
  {
    if s.totals.None? && r.totals.Some? && r.nrTasks == s.nrTasks {
      if s1.totals.Some? {
        assert FirstSeeder(tasks, 0);
      } else {
        var i :| FirstSeeder(tasks[1..], i) && r.totals == Some(SeedTotals(tasks[1..][i].hyperparameters.value));
        assert !CanSeed(tasks[0]);
        forall j | 0 <= j < i + 1 ensures !CanSeed(tasks[j]) {
          if j > 0 {
            assert tasks[j] == tasks[1..][j - 1];
          }
        }
        assert FirstSeeder(tasks, i + 1);
      }
    }
  }

  /** The loop is a fold: running it over `a + b` runs it over `a`, then over
      `b` from where `a` left off. */
  lemma {:induction false} ProcessTasksAppend(s: Aggregate, a: seq<TaskOutcome>, b: seq<TaskOutcome>,
                                              accumulate: (map<string, int>, Json) -> Option<map<string, int>>)
    ensures ProcessTasks(s, a + b, accumulate) == ProcessTasks(ProcessTasks(s, a, accumulate), b, accumulate)
    decreases |a|
  {
    if |a| > 0 {
      assert (a + b)[0] == a[0];
      assert (a + b)[1..] == a[1..] + b;
      ProcessTasksAppend(ProcessTask(s, a[0], accumulate), a[1..], b, accumulate);
    } else {
      assert a + b == b;
    }
  }

  /** The aggregate after a task is that task's step applied to the aggregate
      before it: the totals and the stored results evolve exactly as
      `ProcessTask` states, one task at a time. */
  lemma ProcessTasksLast(s: Aggregate, tasks: seq<TaskOutcome>,
                         accumulate: (map<string, int>, Json) -> Option<map<string, int>>)
    requires |tasks| > 0
    ensures ProcessTasks(s, tasks, accumulate)
            == ProcessTask(ProcessTasks(s, tasks[..|tasks| - 1], accumulate), tasks[|tasks| - 1], accumulate)
  {
    var n := |tasks| - 1;
    assert tasks == tasks[..n] + [tasks[n]];
    ProcessTasksAppend(s, tasks[..n], [tasks[n]], accumulate);
    var m := ProcessTasks(s, tasks[..n], accumulate);
    assert ProcessTasks(m, [tasks[n]], accumulate) == ProcessTasks(ProcessTask(m, tasks[n], accumulate), [], accumulate);
  }

  /** The first task is recorded by its own step; a later one by the rest of
      the loop, which starts seeded once some task up to it could seed. */
  lemma ProcessTasksRecords(s: Aggregate, s1: Aggregate, r: Aggregate, tasks: seq<TaskOutcome>,
                            accumulate: (map<string, int>, Json) -> Option<map<string, int>>)
    requires |tasks| > 0 && s1 == ProcessTask(s, tasks[0], accumulate)
    requires s1.allRanks.Keys <= r.allRanks.Keys
    requires forall i :: 0 <= i < |tasks| - 1 && Recordable(tasks[1..][i])
                         && (s1.totals.Some? || exists j :: 0 <= j <= i && CanSeed(tasks[1..][j])) ==>
      tasks[1..][i].taskId in r.allRanks
    ensures forall i :: 0 <= i < |tasks| && Recordable(tasks[i])
                        && (s.totals.Some? || exists j :: 0 <= j <= i && CanSeed(tasks[j])) ==>
      tasks[i].taskId in r.allRanks
  {
    forall i | 0 <= i < |tasks| && Recordable(tasks[i]) && (s.totals.Some? || exists j :: 0 <= j <= i && CanSeed(tasks[j]))
      ensures tasks[i].taskId in r.allRanks
    {
      if i == 0 {
        assert Records(s, tasks[0]);
      } else {
        assert tasks[i] == tasks[1..][i - 1];
        if !s1.totals.Some? {
          var j :| 0 <= j <= i && CanSeed(tasks[j]);
          assert j != 0;
          assert CanSeed(tasks[1..][j - 1]);
        }
      }
    }
  }

  /** The driver's loop from its initial state. */
  function RunStudy(tasks: seq<TaskOutcome>, accumulate: (map<string, int>, Json) -> Option<map<string, int>>)
    : (r: Aggregate)
    ensures r.nrTasks <= CountRecordable(false, tasks) <= |tasks|
    ensures AlwaysAccumulates(accumulate) ==> r.nrTasks == CountRecordable(false, tasks)
    ensures r.totals.None? ==> r.nrTasks == 0
    ensures forall k :: k in r.allRanks ==> exists i :: 0 <= i < |tasks| && tasks[i].taskId == k
    ensures forall i :: 0 <= i < |tasks| && Recordable(tasks[i]) && (exists j :: 0 <= j <= i && CanSeed(tasks[j])) ==>
      tasks[i].taskId in r.allRanks
    ensures forall k :: k in r.allRanks ==>
      exists i, keys :: 0 <= i < |tasks| && tasks[i].taskId == k && tasks[i].result.Some?
                        && NormaliseResult(tasks[i].result.value, keys) == Ok(r.allRanks[k])
    ensures r.totals.Some? && r.nrTasks == 0 ==>
      exists i :: FirstSeeder(tasks, i) && r.totals == Some(SeedTotals(tasks[i].hyperparameters.value))
  {
    ProcessTasks(Aggregate(None, map[], 0), tasks, accumulate)
  }

  /** When every task can seed the totals and has a readable result, and
      ranking never raises, every task is counted and recorded. */
  lemma RunStudyAllComplete(tasks: seq<TaskOutcome>, accumulate: (map<string, int>, Json) -> Option<map<string, int>>)
    requires forall i :: 0 <= i < |tasks| ==> CanSeed(tasks[i]) && Recordable(tasks[i])
    requires AlwaysAccumulates(accumulate)
    ensures RunStudy(tasks, accumulate).nrTasks == |tasks|
    ensures forall i :: 0 <= i < |tasks| ==> tasks[i].taskId in RunStudy(tasks, accumulate).allRanks
  {
    CountAllRecordable(false, tasks);
  }

  lemma {:induction false} CountAllRecordable(seeded: bool, tasks: seq<TaskOutcome>)
    requires forall i :: 0 <= i < |tasks| ==> CanSeed(tasks[i]) && Recordable(tasks[i])
    ensures CountRecordable(seeded, tasks) == |tasks|
    decreases |tasks|
  {
    if |tasks| > 0 {
      assert forall i :: 0 <= i < |tasks| - 1 ==> tasks[1..][i] == tasks[i + 1];
      CountAllRecordable(true, tasks[1..]);
    }
  }
}
