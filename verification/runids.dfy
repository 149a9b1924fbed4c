/** `obtain_runids` of `openmlpimp/utils/optimize.py`: files every run whose
    `param_distributions` grid leaves out exactly one registered parameter
    under (template name, task, held-out value). The tracking service is
    replaced by its answers, passed in as maps, and JSON values arrive
    decoded. */
module RunIds {
  import opened Wrappers
  import opened Errors
  import opened Values
  import opened Optimize
  import Segments

  /** One entry of a task's run listing. */
  datatype Run = Run(runId: int, setupId: int)

  /** One recorded parameter of a setup, its value already decoded. */
  datatype SetupParameter = SetupParameter(name: string, value: Json)

  /** A setup's parameters, in the order the service lists them. */
  datatype Setup = Setup(parameters: seq<SetupParameter>)

  /** Template name to task id to held-out value to the run ids filed there. */
  type Table = map<string, map<int, map<Value, seq<int>>>>

  const ParamDistributions := "param_distributions"

  /** The ids under one slot; a slot never written reads as empty, as a
      nested `defaultdict` does. */
  function Slot(t: Table, name: string, task: int, v: Value): seq<int> {
    if name in t then TaskSlot(t[name], task, v) else []
  }

  /** The same within one template's level. */
  function TaskSlot(byTask: map<int, map<Value, seq<int>>>, task: int, v: Value): seq<int> {
    if task in byTask && v in byTask[task] then byTask[task][v] else []
  }

  /** Levels are only created by an append, so none is ever empty. */
  ghost predicate NoEmptyLevel(t: Table) {
    forall n :: n in t ==> NoEmptyTask(t[n])
  }

  ghost predicate NoEmptyTask(byTask: map<int, map<Value, seq<int>>>) {
    && |byTask| > 0
    && forall k :: k in byTask ==> |byTask[k]| > 0 && forall v :: v in byTask[k] ==> |byTask[k][v]| > 0
  }

  /** The ids of a run listing. */
  function RunIdsOf(runs: seq<Run>): set<int> {
    set r | r in runs :: r.runId
  }

  /** `results[name][task][value].append(id)` within one template's level. */
  function AppendInTask(byTask: map<int, map<Value, seq<int>>>, task: int, v: Value, id: int)
    : (r: map<int, map<Value, seq<int>>>)
    ensures (|byTask| == 0 || NoEmptyTask(byTask)) ==> NoEmptyTask(r)
    ensures forall k, w ::
      TaskSlot(r, k, w) == TaskSlot(byTask, k, w) + (if k == task && w == v then [id] else [])
  {
    var byValue := if task in byTask then byTask[task] else map[];
    var ids := if v in byValue then byValue[v] else [];
    byTask[task := byValue[v := ids + [id]]]
  }

  /** The template `name` is given and equals the decoded grid. */
  predicate Matches(templates: map<string, GridMap>, name: string, grid: Json) {
    name in templates && GridJson(templates[name]) == grid
  }

  /** `u` is `t` with `id` appended under `[name][task][v]` for exactly the
      templates `name` that equal `grid`, and nothing else changed. */
  ghost predicate AppendedWhere(t: Table, u: Table, templates: map<string, GridMap>, task: int, v: Value, id: int, grid: Json) {
    forall n, k, w ::
      Slot(u, n, k, w) == Slot(t, n, k, w) + (if Matches(templates, n, grid) && k == task && w == v then [id] else [])
  }

  /** The loop over the templates: append the run under every template equal
      to the run's grid. */
  function FileMatching(t: Table, templates: map<string, GridMap>, task: int, v: Value, id: int, grid: Json): (r: Table)
    ensures AppendedWhere(t, r, templates, task, v, id, grid)
    ensures NoEmptyLevel(t) ==> NoEmptyLevel(r)
  {
    var hits := set n | n in templates && GridJson(templates[n]) == grid;
    var r := map n | n in t.Keys + hits ::
      if n in hits then AppendInTask(if n in t then t[n] else map[], task, v, id) else t[n];
    FileMatchingSlots(t, templates, task, v, id, grid, hits, r);
    r
  }

  /** The level the filing loop leaves for template `n`. */
  lemma FileMatchingLevel(t: Table, task: int, v: Value, id: int, hits: set<string>, r: Table, n: string)
    requires r == map n | n in t.Keys + hits ::
      if n in hits then AppendInTask(if n in t then t[n] else map[], task, v, id) else t[n]
    ensures n in hits ==> n in r && r[n] == AppendInTask(if n in t then t[n] else map[], task, v, id)
    ensures n !in hits && n in t ==> n in r && r[n] == t[n]
    ensures n !in hits && n !in t ==> n !in r
  {
  }

  lemma FileMatchingSlots(t: Table, templates: map<string, GridMap>, task: int, v: Value, id: int, grid: Json,
                          hits: set<string>, r: Table)
    requires hits == set n | n in templates && GridJson(templates[n]) == grid
    requires r == map n | n in t.Keys + hits ::
      if n in hits then AppendInTask(if n in t then t[n] else map[], task, v, id) else t[n]
    ensures AppendedWhere(t, r, templates, task, v, id, grid)
    ensures NoEmptyLevel(t) ==> NoEmptyLevel(r)
  {
    forall n, k, w
      ensures Slot(r, n, k, w) == Slot(t, n, k, w) + (if Matches(templates, n, grid) && k == task && w == v then [id] else [])
    {
      assert n in hits <==> Matches(templates, n, grid);
      FileMatchingLevel(t, task, v, id, hits, r, n);
      FileMatchingSlot(t, templates, task, v, id, grid, hits, r, n, k, w);
    }
    if NoEmptyLevel(t) {
      forall n | n in r ensures NoEmptyTask(r[n]) {
        FileMatchingLevel(t, task, v, id, hits, r, n);
      }
    }
  }

  lemma FileMatchingSlot(t: Table, templates: map<string, GridMap>, task: int, v: Value, id: int, grid: Json,
                         hits: set<string>, r: Table, n: string, k: int, w: Value)
    requires n in hits <==> Matches(templates, n, grid)
    requires n in hits ==> n in r && r[n] == AppendInTask(if n in t then t[n] else map[], task, v, id)
    requires n !in hits && n in t ==> n in r && r[n] == t[n]
    requires n !in hits && n !in t ==> n !in r
    ensures Slot(r, n, k, w) == Slot(t, n, k, w) + (if Matches(templates, n, grid) && k == task && w == v then [id] else [])
  {
    if n in hits {
      var byTask := if n in t then t[n] else map[];
      assert Slot(t, n, k, w) == TaskSlot(byTask, k, w);
      assert Slot(r, n, k, w) == TaskSlot(AppendInTask(byTask, task, v, id), k, w);
    }
  }

  /** `paramname_paramidx[name]`: the dict comprehension keeps the position
      of the last parameter with that name. */
  function LastIndexNamed(ps: seq<SetupParameter>, name: string): (r: Option<nat>)
    ensures r.None? <==> forall i :: 0 <= i < |ps| ==> ps[i].name != name
    ensures r.Some? ==> r.value < |ps| && ps[r.value].name == name
    ensures r.Some? ==> forall j :: r.value < j < |ps| ==> ps[j].name != name
  {
    if |ps| == 0 then None
    else if ps[|ps| - 1].name == name then Some(|ps| - 1)
    else LastIndexNamed(ps[..|ps| - 1], name)
  }

  /** The held-out value of the excluded parameter: the setup parameter whose
      name is the last `__`-separated piece of the excluded name, decoded. It
      keys a dict, so it must be a scalar. */
  function HeldOutValue(setup: Setup, excluded: string): (r: Result<Value, Error>)
    ensures var short, ps := Segments.LastSegment(excluded), setup.parameters;
      && (r.Err? ==> r.error == MissingParameter(short) || r.error == UnhashableValue)
      && (r.Err? && r.error.MissingParameter? <==> forall i :: 0 <= i < |ps| ==> ps[i].name != short)
      && (r.Ok? ==> exists i :: 0 <= i < |ps| && ps[i].name == short && ps[i].value == ValueJson(r.value)
                     && forall j :: i < j < |ps| ==> ps[j].name != short)
      && (r.Ok? <==> LastIndexNamed(ps, short).Some? && AsScalar(ps[LastIndexNamed(ps, short).value].value).Some?)
  {
    var short := Segments.LastSegment(excluded);
    match LastIndexNamed(setup.parameters, short)
    case None => Err(MissingParameter(short))
    case Some(i) =>
      match AsScalar(setup.parameters[i].value)
      case None => Err(UnhashableValue)
      case Some(v) => Ok(v)
  }

  lemma SubsetCard(a: set<string>, b: set<string>)
    requires a <= b
    ensures |a| <= |b|
  {
    if a != {} {
      var x :| x in a;
      SubsetCard(a - {x}, b - {x});
    }
  }

  /** The first of `names` that `keys` leaves out. */
  function FirstMissing(names: seq<string>, keys: set<string>): (r: Option<string>)
    ensures r.Some? ==> r.value in names && r.value !in keys
    ensures r.None? ==> forall i :: 0 <= i < |names| ==> names[i] in keys
  {
    if |names| == 0 then None
    else if names[0] !in keys then Some(names[0])
    else FirstMissing(names[1..], keys)
  }

  /** `list(excluded_params)[0]` when exactly one registered name is left out:
      that name, whatever order the set is listed in. */
  function SoleExcluded(keys: set<string>): (e: string)
    requires |FullKeys() - keys| == 1
    ensures FullKeys() - keys == {e}
  {
    var excluded := FullKeys() - keys;
    var x :| x in excluded;
    assert FullNames[0] in FullKeys() && x in FullNames;
    assert FirstMissing(FullNames, keys).Some?;
    var e := FirstMissing(FullNames, keys).value;
    assert excluded == {e} by {
      if excluded != {e} {
        var y :| y in excluded && y != e;
        SubsetCard({e, y}, excluded);
      }
    }
    e
  }

  /** Some given template equals the decoded grid. */
  predicate AnyMatches(templates: map<string, GridMap>, grid: Json) {
    exists n :: n in templates && GridJson(templates[n]) == grid
  }

  /** What `all_params - param_grid` takes away from the registered names:
      the keys of an object, the strings of an array, the one-character
      strings of a string. Iterating a number, a boolean or null raises, and
      so does discarding an array element that cannot be hashed (an array or
      an object). */
  function GridKeys(grid: Json): (r: Option<set<string>>)
    ensures r.Some? <==> grid.JObject? || grid.JStr?
                         || (grid.JArray? && forall i :: 0 <= i < |grid.items| ==> AsScalar(grid.items[i]).Some?)
    ensures grid.JObject? ==> r == Some(grid.fields.Keys)
    ensures r.Some? && grid.JArray? ==> forall x :: x in r.value <==> JStr(x) in grid.items
    ensures r.Some? && grid.JStr? ==> forall x :: x in r.value <==> |x| == 1 && x[0] in grid.s
  {
    match grid
    case JObject(fields) => Some(fields.Keys)
    case JStr(str) =>
      var chars := set c | c in str :: [c];
      assert forall x: string :: |x| == 1 && x[0] in str ==> x in chars by {
        forall x: string | |x| == 1 && x[0] in str ensures x in chars {
          assert x == [x[0]];
        }
      }
      Some(chars)
    case JArray(items) =>
      if forall i :: 0 <= i < |items| ==> AsScalar(items[i]).Some? then
        Some(set j | j in items && j.JStr? :: j.s)
      else None
    case _ => None
  }

  /** Filing the grid raises nothing: the family is registered, the grid
      can be subtracted, something is excluded, and with one name excluded
      its held-out value is read and, if it cannot key a dict, no template
      would key on it. */
  predicate GridOk(classifier: string, templates: map<string, GridMap>, setup: Setup, grid: Json) {
    && classifier == RandomForest
    && GridKeys(grid).Some?
    && |FullKeys() - GridKeys(grid).value| != 0
    && (|FullKeys() - GridKeys(grid).value| == 1 ==>
          var held := HeldOutValue(setup, SoleExcluded(GridKeys(grid).value));
          held.Ok? || (held.error == UnhashableValue && !AnyMatches(templates, grid)))
  }

  /** The body of the loop over a setup's parameters, for the one named
      `param_distributions` whose decoded value is `grid`. */
  function FileDistributions(t: Table, classifier: string, templates: map<string, GridMap>, task: int, id: int,
                             setup: Setup, grid: Json): (r: Result<Table, Error>)
    ensures classifier != RandomForest ==> r == Err(UnknownModelFamily(classifier))
    ensures classifier == RandomForest && GridKeys(grid).None? ==> r == Err(MalformedGrid)
    ensures classifier == RandomForest && GridKeys(grid).Some? ==>
      var excluded := FullKeys() - GridKeys(grid).value;
      && (|excluded| > 1 ==> r.Ok? && r.value == t)
      && (|excluded| == 0 ==> r == Err(NoExcludedParameter))
      && (|excluded| == 1 ==>
            var held := HeldOutValue(setup, SoleExcluded(GridKeys(grid).value));
            && (held.Ok? ==> r.Ok? && AppendedWhere(t, r.value, templates, task, held.value, id, grid))
            && (held.Err? && held.error == UnhashableValue && !AnyMatches(templates, grid) ==> r == Ok(t))
            && (held.Err? && (held.error != UnhashableValue || AnyMatches(templates, grid)) ==> r == Err(held.error)))
    ensures r.Ok? <==> GridOk(classifier, templates, setup, grid)
    ensures r.Ok? ==> KeptOrAppended(t, r.value, classifier, templates, task, id, setup, grid)
    ensures r.Ok? ==> Grows(t, r.value, templates.Keys, map[task := {id}])
    ensures r.Ok? && NoEmptyLevel(t) ==> NoEmptyLevel(r.value)
  {
    if classifier != RandomForest then Err(UnknownModelFamily(classifier))
    else match GridKeys(grid)
      case Some(keys) =>
        var excluded := GetExcludedParams(classifier, keys).value;
        if |excluded| > 1 then Ok(t)
        else if |excluded| == 0 then Err(NoExcludedParameter)
        else FileHeldOut(t, templates, task, id, HeldOutValue(setup, SoleExcluded(keys)), grid)
      case None => Err(MalformedGrid)
  }

  /** Filing under the held-out value once it has been read, or failed to
      be read. */
  function FileHeldOut(t: Table, templates: map<string, GridMap>, task: int, id: int,
                       held: Result<Value, Error>, grid: Json): (r: Result<Table, Error>)
    ensures held.Ok? ==> r.Ok? && AppendedWhere(t, r.value, templates, task, held.value, id, grid)
    ensures held.Err? && held.error == UnhashableValue && !AnyMatches(templates, grid) ==> r == Ok(t)
    ensures held.Err? && (held.error != UnhashableValue || AnyMatches(templates, grid)) ==> r == Err(held.error)
    ensures r.Ok? ==> r.value == t || (held.Ok? && AppendedWhere(t, r.value, templates, task, held.value, id, grid))
    ensures r.Ok? ==> Grows(t, r.value, templates.Keys, map[task := {id}])
    ensures r.Ok? && NoEmptyLevel(t) ==> NoEmptyLevel(r.value)
  {
    if held.Err? && held.error == UnhashableValue && !AnyMatches(templates, grid) then
      // the value would only be used as a key under a matching template
      Ok(t)
    else
      var v :- held;
      var r := FileMatching(t, templates, task, v, id, grid);
      GrowsByAppend(t, r, templates, task, v, id, grid);
      Ok(r)
  }

  /** `u` extends every slot of `t` (appending never removes or reorders an
      id), and every id added sits under a template in `names` and a task of
      `allowed`, and is one of the run ids `allowed` lists for that task. */
  ghost predicate Grows(t: Table, u: Table, names: set<string>, allowed: map<int, set<int>>) {
    forall n, k, w ::
      && Slot(t, n, k, w) <= Slot(u, n, k, w)
      && (|Slot(u, n, k, w)| > |Slot(t, n, k, w)| ==> n in names && k in allowed)
      && (forall i :: |Slot(t, n, k, w)| <= i < |Slot(u, n, k, w)| ==> k in allowed && Slot(u, n, k, w)[i] in allowed[k])
  }

  /** `small` allows no more than `large`. */
  ghost predicate Within(small: map<int, set<int>>, large: map<int, set<int>>) {
    forall k :: k in small ==> k in large && small[k] <= large[k]
  }

  lemma GrowsTrans(t: Table, u: Table, x: Table, names: set<string>, allowed: map<int, set<int>>)
    requires Grows(t, u, names, allowed) && Grows(u, x, names, allowed)
    ensures Grows(t, x, names, allowed)
  {
    forall n, k, w
      ensures forall i :: |Slot(t, n, k, w)| <= i < |Slot(x, n, k, w)| ==> k in allowed && Slot(x, n, k, w)[i] in allowed[k]
    {
      var a, b, c := Slot(t, n, k, w), Slot(u, n, k, w), Slot(x, n, k, w);
      assert a <= b && b <= c;
      forall i | |a| <= i < |c| ensures k in allowed && c[i] in allowed[k] {
        if i < |b| {
          assert c[i] == b[i];
        }
      }
    }
  }

  lemma GrowsWeaken(t: Table, u: Table, names: set<string>, small: map<int, set<int>>, large: map<int, set<int>>)
    requires Grows(t, u, names, small) && Within(small, large)
    ensures Grows(t, u, names, large)
  {
  }

  lemma GrowsByAppend(t: Table, u: Table, templates: map<string, GridMap>, task: int, v: Value, id: int, grid: Json)
    requires AppendedWhere(t, u, templates, task, v, id, grid)
    ensures Grows(t, u, templates.Keys, map[task := {id}])
  {
    forall n, k, w
      ensures Slot(t, n, k, w) <= Slot(u, n, k, w)
    {
      assert Slot(u, n, k, w) == Slot(t, n, k, w) + (if Matches(templates, n, grid) && k == task && w == v then [id] else []);
    }
  }

  /** Where the setup of a run comes from: the bulk listing fetched up front,
      or else the individual fetch (which may fail). */
  function SetupFor(bulk: map<int, Setup>, remote: map<int, Setup>, setupId: int): (r: Result<Setup, Error>)
    ensures r.Ok? <==> setupId in bulk || setupId in remote
    ensures r.Ok? && setupId in bulk ==> r.value == bulk[setupId]
    ensures r.Ok? && setupId !in bulk ==> r.value == remote[setupId]
    ensures r.Err? ==> r.error == SetupUnavailable(setupId)
  {
    if setupId in bulk then Ok(bulk[setupId])
    else if setupId in remote then Ok(remote[setupId])
    else Err(SetupUnavailable(setupId))
  }

  /** Every `param_distributions` parameter of `setup`, from position `i`
      on, files without raising. */
  predicate ParamsOk(classifier: string, templates: map<string, GridMap>, setup: Setup, i: nat) {
    forall j :: i <= j < |setup.parameters| && setup.parameters[j].name == ParamDistributions ==>
      GridOk(classifier, templates, setup, setup.parameters[j].value)
  }

  /** One step of `ParamsOk`. */
  lemma ParamsOkStep(classifier: string, templates: map<string, GridMap>, setup: Setup, i: nat)
    requires i < |setup.parameters|
    ensures ParamsOk(classifier, templates, setup, i) <==>
      && (setup.parameters[i].name == ParamDistributions ==> GridOk(classifier, templates, setup, setup.parameters[i].value))
      && ParamsOk(classifier, templates, setup, i + 1)
  {
  }

  /** The run's setup can be had and all its grids file without raising. */
  predicate RunOk(classifier: string, templates: map<string, GridMap>, bulk: map<int, Setup>, remote: map<int, Setup>,
                  x: Run) {
    SetupFor(bulk, remote, x.setupId).Ok? && ParamsOk(classifier, templates, SetupFor(bulk, remote, x.setupId).value, 0)
  }

  /** The loop over one setup's parameters, from position `i` on. */
  function FileParameters(t: Table, classifier: string, templates: map<string, GridMap>, task: int, id: int,
                          setup: Setup, i: nat): (r: Result<Table, Error>)
    requires i <= |setup.parameters|
    ensures r.Ok? <==> ParamsOk(classifier, templates, setup, i)
    ensures r.Ok? ==> Grows(t, r.value, templates.Keys, map[task := {id}])
    ensures r.Ok? && NoEmptyLevel(t) ==> NoEmptyLevel(r.value)
    ensures (forall j :: i <= j < |setup.parameters| ==> setup.parameters[j].name != ParamDistributions) ==>
      r.Ok? && r.value == t
    decreases |setup.parameters| - i
  {
    if i == |setup.parameters| then Ok(t)
    else
      ParamsOkStep(classifier, templates, setup, i);
      if setup.parameters[i].name != ParamDistributions then
        FileParameters(t, classifier, templates, task, id, setup, i + 1)
      else
        var t1 :- FileDistributions(t, classifier, templates, task, id, setup, setup.parameters[i].value);
        var t2 :- FileParameters(t1, classifier, templates, task, id, setup, i + 1);
        GrowsTrans(t, t1, t2, templates.Keys, map[task := {id}]);
        Ok(t2)
  }

  /** The loop over the runs listed for one task. */
  function FileRuns(t: Table, classifier: string, templates: map<string, GridMap>, task: int, runs: seq<Run>,
                    bulk: map<int, Setup>, remote: map<int, Setup>): (r: Result<Table, Error>)
    ensures r.Ok? <==> forall x :: x in runs ==> RunOk(classifier, templates, bulk, remote, x)
    ensures r.Ok? ==> Grows(t, r.value, templates.Keys, map[task := RunIdsOf(runs)])
    ensures r.Ok? && NoEmptyLevel(t) ==> NoEmptyLevel(r.value)
    decreases |runs|
  {
    if |runs| == 0 then Ok(t)
    else
      assert runs == [runs[0]] + runs[1..];
      assert (forall x :: x in runs ==> RunOk(classifier, templates, bulk, remote, x)) <==>
        RunOk(classifier, templates, bulk, remote, runs[0])
        && forall x :: x in runs[1..] ==> RunOk(classifier, templates, bulk, remote, x);
      var setup :- SetupFor(bulk, remote, runs[0].setupId);
      var t1 :- FileParameters(t, classifier, templates, task, runs[0].runId, setup, 0);
      var t2 :- FileRuns(t1, classifier, templates, task, runs[1..], bulk, remote);
      var allowed := map[task := RunIdsOf(runs)];
      GrowsWeaken(t, t1, templates.Keys, map[task := {runs[0].runId}], allowed);
      GrowsWeaken(t1, t2, templates.Keys, map[task := RunIdsOf(runs[1..])], allowed);
      GrowsTrans(t, t1, t2, templates.Keys, allowed);
      Ok(t2)
  }

  /** Task to the ids of the runs listed for it, for the tasks that are both
      requested and listed. */
  function Listed(tasks: seq<int>, listing: map<int, seq<Run>>): (allowed: map<int, set<int>>)
    ensures allowed.Keys == listing.Keys * set k | k in tasks
  {
    map k | k in listing && k in tasks :: RunIdsOf(listing[k])
  }

  /** The loop over the tasks. A task missing from `listing` is one whose
      run listing raised; it is skipped. */
  function FileTasks(t: Table, classifier: string, templates: map<string, GridMap>, tasks: seq<int>,
                     listing: map<int, seq<Run>>, bulk: map<int, Setup>, remote: map<int, Setup>): (r: Result<Table, Error>)
    ensures r.Ok? <==> forall k, x :: k in tasks && k in listing && x in listing[k] ==>
      RunOk(classifier, templates, bulk, remote, x)
    ensures r.Ok? ==> Grows(t, r.value, templates.Keys, Listed(tasks, listing))
    ensures r.Ok? && NoEmptyLevel(t) ==> NoEmptyLevel(r.value)
    decreases |tasks|
  {
    if |tasks| == 0 then Ok(t)
    else
      var task := tasks[0];
      var allowed := Listed(tasks, listing);
      assert tasks == [task] + tasks[1..];
      if task !in listing then
        var r :- FileTasks(t, classifier, templates, tasks[1..], listing, bulk, remote);
        GrowsWeaken(t, r, templates.Keys, Listed(tasks[1..], listing), allowed);
        Ok(r)
      else
        var t1 :- FileRuns(t, classifier, templates, task, listing[task], bulk, remote);
        var t2 :- FileTasks(t1, classifier, templates, tasks[1..], listing, bulk, remote);
        GrowsWeaken(t, t1, templates.Keys, map[task := RunIdsOf(listing[task])], allowed);
        GrowsWeaken(t1, t2, templates.Keys, Listed(tasks[1..], listing), allowed);
        GrowsTrans(t, t1, t2, templates.Keys, allowed);
        Ok(t2)
  }

  /** `obtain_runids(task_ids, flow_id, classifier, param_templates)`, with
      `listing` holding the runs of the flow per task (a task absent from it
      is one whose listing raised), `bulk` the setups fetched for the flow up
      front and `remote` what an individual setup fetch returns. It succeeds
      exactly when every listed run files without raising; then every id in
      the table is a run listed for that task whose setup justifies its slot,
      and no level of the table is empty. */
  function ObtainRunIds(tasks: seq<int>, classifier: string, templates: map<string, GridMap>,
                        listing: map<int, seq<Run>>, bulk: map<int, Setup>, remote: map<int, Setup>)
    : (r: Result<Table, Error>)
    ensures r.Ok? <==> forall k, x :: k in tasks && k in listing && x in listing[k] ==>
      RunOk(classifier, templates, bulk, remote, x)
    ensures r.Ok? ==> NoEmptyLevel(r.value)
    ensures r.Ok? ==> forall n, k, w, i :: 0 <= i < |Slot(r.value, n, k, w)| ==>
      && n in templates && k in tasks && k in listing && Slot(r.value, n, k, w)[i] in RunIdsOf(listing[k])
      && FromRuns(classifier, templates, n, w, listing[k], bulk, remote, Slot(r.value, n, k, w)[i])
  {
    var r :- FileTasks(map[], classifier, templates, tasks, listing, bulk, remote);
    assert forall n, k, w :: Slot(map[], n, k, w) == [];
    FileTasksSources(map[], classifier, templates, tasks, listing, bulk, remote);
    assert r == FileTasks(map[], classifier, templates, tasks, listing, bulk, remote).value;
    forall n, k, w, i | 0 <= i < |Slot(r, n, k, w)|
      ensures FromRuns(classifier, templates, n, w, listing[k], bulk, remote, Slot(r, n, k, w)[i])
    {
      assert |Slot(map[], n, k, w)| <= i;
    }
    Ok(r)
  }

  /** Why an id may sit under template `n` and held-out value `w`: a grid
      that leaves out exactly one registered parameter, equals template `n`,
      and whose held-out value in `setup` is `w`. */
  ghost predicate GridSupports(classifier: string, templates: map<string, GridMap>, n: string, w: Value,
                               setup: Setup, grid: Json) {
    && classifier == RandomForest
    && GridKeys(grid).Some?
    && |FullKeys() - GridKeys(grid).value| == 1
    && Matches(templates, n, grid)
    && HeldOutValue(setup, SoleExcluded(GridKeys(grid).value)) == Ok(w)
  }

  /** Some `param_distributions` parameter of `setup`, at position `from` or
      later, is such a grid. */
  ghost predicate SetupSupports(classifier: string, templates: map<string, GridMap>, n: string, w: Value,
                                setup: Setup, from: nat) {
    exists j :: from <= j < |setup.parameters| && setup.parameters[j].name == ParamDistributions
                && GridSupports(classifier, templates, n, w, setup, setup.parameters[j].value)
  }

  /** Some run of `runs` has id `e`, its setup is known, and that setup holds
      such a grid. */
  ghost predicate FromRuns(classifier: string, templates: map<string, GridMap>, n: string, w: Value,
                           runs: seq<Run>, bulk: map<int, Setup>, remote: map<int, Setup>, e: int) {
    exists x :: x in runs && x.runId == e && SetupFor(bulk, remote, x.setupId).Ok?
                && SetupSupports(classifier, templates, n, w, SetupFor(bulk, remote, x.setupId).value, 0)
  }

  /** A slot that one append lengthened is a slot of a matching template,
      the run's task and its held-out value. */
  lemma AppendedSources(t: Table, u: Table, templates: map<string, GridMap>, task: int, v: Value, id: int, grid: Json)
    requires AppendedWhere(t, u, templates, task, v, id, grid)
    ensures forall n, k, w :: |Slot(u, n, k, w)| > |Slot(t, n, k, w)| ==> Matches(templates, n, grid) && w == v
  {
    forall n, k, w | |Slot(u, n, k, w)| > |Slot(t, n, k, w)| ensures Matches(templates, n, grid) && w == v {
      assert Slot(u, n, k, w) == Slot(t, n, k, w) + (if Matches(templates, n, grid) && k == task && w == v then [id] else []);
    }
  }

  /** Filing one grid either leaves the table alone or appends under the
      grid's held-out value. */
  ghost predicate KeptOrAppended(t: Table, u: Table, classifier: string, templates: map<string, GridMap>,
                                 task: int, id: int, setup: Setup, grid: Json) {
    || u == t
    || (&& classifier == RandomForest
        && GridKeys(grid).Some?
        && |FullKeys() - GridKeys(grid).value| == 1
        && HeldOutValue(setup, SoleExcluded(GridKeys(grid).value)).Ok?
        && AppendedWhere(t, u, templates, task, HeldOutValue(setup, SoleExcluded(GridKeys(grid).value)).value, id, grid))
  }

  /** A slot that filing one grid lengthened is justified by that grid. */
  lemma FileDistributionsSources(t: Table, classifier: string, templates: map<string, GridMap>, task: int, id: int,
                                 setup: Setup, grid: Json)
    ensures var f := FileDistributions(t, classifier, templates, task, id, setup, grid);
      f.Ok? ==> forall n, k, w :: |Slot(f.value, n, k, w)| > |Slot(t, n, k, w)| ==>
        GridSupports(classifier, templates, n, w, setup, grid)
  {
    var f := FileDistributions(t, classifier, templates, task, id, setup, grid);
    if f.Ok? {
      KeptOrAppendedSources(t, f.value, classifier, templates, task, id, setup, grid);
    }
  }

  lemma KeptOrAppendedSources(t: Table, u: Table, classifier: string, templates: map<string, GridMap>,
                              task: int, id: int, setup: Setup, grid: Json)
    requires KeptOrAppended(t, u, classifier, templates, task, id, setup, grid)
    ensures forall n, k, w :: |Slot(u, n, k, w)| > |Slot(t, n, k, w)| ==> GridSupports(classifier, templates, n, w, setup, grid)
  {
    if u != t {
      AppendedSources(t, u, templates, task, HeldOutValue(setup, SoleExcluded(GridKeys(grid).value)).value, id, grid);
    }
  }

  /** A slot that the parameter loop from position `i` lengthened is
      justified by a parameter at `i` or later. */
  lemma {:induction false} FileParametersSources(t: Table, classifier: string, templates: map<string, GridMap>,
                                                 task: int, id: int, setup: Setup, i: nat)
    requires i <= |setup.parameters|
    ensures var f := FileParameters(t, classifier, templates, task, id, setup, i);
      f.Ok? ==> forall n, k, w :: |Slot(f.value, n, k, w)| > |Slot(t, n, k, w)| ==>
        SetupSupports(classifier, templates, n, w, setup, i)
    decreases |setup.parameters| - i
  {
    var ps := setup.parameters;
    var f := FileParameters(t, classifier, templates, task, id, setup, i);
    if f.Ok? && i < |ps| {
      if ps[i].name != ParamDistributions {
        FileParametersSkip(t, classifier, templates, task, id, setup, i);
        FileParametersSources(t, classifier, templates, task, id, setup, i + 1);
      } else {
        FileParametersFile(t, classifier, templates, task, id, setup, i);
        var first := FileDistributions(t, classifier, templates, task, id, setup, ps[i].value).value;
        FileDistributionsSources(t, classifier, templates, task, id, setup, ps[i].value);
        FileParametersSources(first, classifier, templates, task, id, setup, i + 1);
        forall n, k, w | |Slot(f.value, n, k, w)| > |Slot(t, n, k, w)|
          ensures SetupSupports(classifier, templates, n, w, setup, i)
        {
          if |Slot(first, n, k, w)| > |Slot(t, n, k, w)| {
            assert GridSupports(classifier, templates, n, w, setup, ps[i].value);
          }
        }
      }
    }
  }

  /** One step of the run loop: the first run's parameters are filed before
      the other runs. */
  lemma FileRunsStep(t: Table, classifier: string, templates: map<string, GridMap>, task: int, runs: seq<Run>,
                     bulk: map<int, Setup>, remote: map<int, Setup>)
    requires |runs| > 0
    ensures var f := FileRuns(t, classifier, templates, task, runs, bulk, remote);
      f.Ok? ==>
        var setup := SetupFor(bulk, remote, runs[0].setupId);
        && setup.Ok?
        && var first := FileParameters(t, classifier, templates, task, runs[0].runId, setup.value, 0);
           && first.Ok?
           && FileRuns(first.value, classifier, templates, task, runs[1..], bulk, remote) == f
  {
  }

  /** Every id the run loop appends comes from a run of `runs` that
      justifies its slot. */
  lemma {:induction false} FileRunsSources(t: Table, classifier: string, templates: map<string, GridMap>, task: int,
                                           runs: seq<Run>, bulk: map<int, Setup>, remote: map<int, Setup>)
    ensures var f := FileRuns(t, classifier, templates, task, runs, bulk, remote);
      f.Ok? ==> forall n, k, w, m :: |Slot(t, n, k, w)| <= m < |Slot(f.value, n, k, w)| ==>
        FromRuns(classifier, templates, n, w, runs, bulk, remote, Slot(f.value, n, k, w)[m])
    decreases |runs|
  {
    var f := FileRuns(t, classifier, templates, task, runs, bulk, remote);
    if f.Ok? && |runs| > 0 {
      FileRunsStep(t, classifier, templates, task, runs, bulk, remote);
      var setup := SetupFor(bulk, remote, runs[0].setupId).value;
      var id := runs[0].runId;
      var t1 := FileParameters(t, classifier, templates, task, id, setup, 0).value;
      FileParametersSources(t, classifier, templates, task, id, setup, 0);
      FileRunsSources(t1, classifier, templates, task, runs[1..], bulk, remote);
      RunSourcesStep(t, t1, f.value, classifier, templates, task, runs, bulk, remote, setup);
    }
  }

  /** The first run justifies what its parameters appended; the other runs
      justify the rest. */
  lemma RunSourcesStep(t: Table, t1: Table, u: Table, classifier: string, templates: map<string, GridMap>, task: int,
                       runs: seq<Run>, bulk: map<int, Setup>, remote: map<int, Setup>, setup: Setup)
    requires |runs| > 0 && SetupFor(bulk, remote, runs[0].setupId) == Ok(setup)
    requires Grows(t, t1, templates.Keys, map[task := {runs[0].runId}])
    requires Grows(t1, u, templates.Keys, map[task := RunIdsOf(runs[1..])])
    requires forall n, k, w :: |Slot(t1, n, k, w)| > |Slot(t, n, k, w)| ==>
      SetupSupports(classifier, templates, n, w, setup, 0)
    requires forall n, k, w, m :: |Slot(t1, n, k, w)| <= m < |Slot(u, n, k, w)| ==>
      FromRuns(classifier, templates, n, w, runs[1..], bulk, remote, Slot(u, n, k, w)[m])
    ensures forall n, k, w, m :: |Slot(t, n, k, w)| <= m < |Slot(u, n, k, w)| ==>
      FromRuns(classifier, templates, n, w, runs, bulk, remote, Slot(u, n, k, w)[m])
  {
    forall n, k, w, m | |Slot(t, n, k, w)| <= m < |Slot(u, n, k, w)|
      ensures FromRuns(classifier, templates, n, w, runs, bulk, remote, Slot(u, n, k, w)[m])
    {
      var b, c := Slot(t1, n, k, w), Slot(u, n, k, w);
      assert b <= c;
      if m < |b| {
        assert c[m] == b[m] == runs[0].runId;
        assert runs[0] in runs;
      } else {
        assert FromRuns(classifier, templates, n, w, runs[1..], bulk, remote, Slot(u, n, k, w)[m]);
        var x :| x in runs[1..] && x.runId == c[m] && SetupFor(bulk, remote, x.setupId).Ok?
                 && SetupSupports(classifier, templates, n, w, SetupFor(bulk, remote, x.setupId).value, 0);
        assert x in runs;
      }
    }
  }

  /** Every id the task loop appends sits under a requested, listed task and
      comes from a run listed for it that justifies its slot. */
  lemma {:induction false} FileTasksSources(t: Table, classifier: string, templates: map<string, GridMap>,
                                            tasks: seq<int>, listing: map<int, seq<Run>>,
                                            bulk: map<int, Setup>, remote: map<int, Setup>)
    ensures var f := FileTasks(t, classifier, templates, tasks, listing, bulk, remote);
      f.Ok? ==> forall n, k, w, m :: |Slot(t, n, k, w)| <= m < |Slot(f.value, n, k, w)| ==>
        k in tasks && k in listing && FromRuns(classifier, templates, n, w, listing[k], bulk, remote, Slot(f.value, n, k, w)[m])
    decreases |tasks|
  {
    var f := FileTasks(t, classifier, templates, tasks, listing, bulk, remote);
    if f.Ok? && |tasks| > 0 {
      var task := tasks[0];
      assert tasks == [task] + tasks[1..];
      if task !in listing {
        FileTasksSkip(t, classifier, templates, tasks, listing, bulk, remote);
        FileTasksSources(t, classifier, templates, tasks[1..], listing, bulk, remote);
      } else {
        FileTasksFile(t, classifier, templates, tasks, listing, bulk, remote);
        var t1 := FileRuns(t, classifier, templates, task, listing[task], bulk, remote).value;
        FileRunsSources(t, classifier, templates, task, listing[task], bulk, remote);
        FileTasksSources(t1, classifier, templates, tasks[1..], listing, bulk, remote);
        TaskSourcesStep(t, t1, f.value, classifier, templates, tasks, listing, bulk, remote);
      }
    }
  }

  /** The first task's runs justify what they appended; the other tasks
      justify the rest. */
  lemma TaskSourcesStep(t: Table, t1: Table, u: Table, classifier: string, templates: map<string, GridMap>,
                        tasks: seq<int>, listing: map<int, seq<Run>>, bulk: map<int, Setup>, remote: map<int, Setup>)
    requires |tasks| > 0 && tasks[0] in listing
    requires Grows(t, t1, templates.Keys, map[tasks[0] := RunIdsOf(listing[tasks[0]])])
    requires Grows(t1, u, templates.Keys, Listed(tasks[1..], listing))
    requires forall n, k, w, m :: |Slot(t, n, k, w)| <= m < |Slot(t1, n, k, w)| ==>
      FromRuns(classifier, templates, n, w, listing[tasks[0]], bulk, remote, Slot(t1, n, k, w)[m])
    requires forall n, k, w, m :: |Slot(t1, n, k, w)| <= m < |Slot(u, n, k, w)| ==>
      k in tasks[1..] && k in listing && FromRuns(classifier, templates, n, w, listing[k], bulk, remote, Slot(u, n, k, w)[m])
    ensures forall n, k, w, m :: |Slot(t, n, k, w)| <= m < |Slot(u, n, k, w)| ==>
      k in tasks && k in listing && FromRuns(classifier, templates, n, w, listing[k], bulk, remote, Slot(u, n, k, w)[m])
  {
    assert tasks == [tasks[0]] + tasks[1..];
    forall n, k, w, m | |Slot(t, n, k, w)| <= m < |Slot(u, n, k, w)|
      ensures k in tasks && k in listing && FromRuns(classifier, templates, n, w, listing[k], bulk, remote, Slot(u, n, k, w)[m])
    {
      var b, c := Slot(t1, n, k, w), Slot(u, n, k, w);
      assert b <= c;
      if m < |b| {
        assert c[m] == b[m];
        assert k in map[tasks[0] := RunIdsOf(listing[tasks[0]])];
      }
    }
  }

  /** The parameter `p` of `setup`, met while filing run `id` of `task`, has
      been filed: when it is a `param_distributions` grid that leaves out
      exactly one registered parameter whose held-out value `v` is readable,
      `id` is under `[n][task][v]` for every template `n` equal to the grid. */
  ghost predicate Filed(t: Table, classifier: string, templates: map<string, GridMap>, task: int, id: int,
                        setup: Setup, p: SetupParameter) {
    && p.name == ParamDistributions
    && classifier == RandomForest
    && GridKeys(p.value).Some?
    && |FullKeys() - GridKeys(p.value).value| == 1
    && HeldOutValue(setup, SoleExcluded(GridKeys(p.value).value)).Ok?
    ==>
    forall n :: Matches(templates, n, p.value) ==>
      id in Slot(t, n, task, HeldOutValue(setup, SoleExcluded(GridKeys(p.value).value)).value)
  }

  /** Every parameter of the run's setup has been filed. */
  ghost predicate RunFiled(t: Table, classifier: string, templates: map<string, GridMap>, task: int, run: Run,
                           bulk: map<int, Setup>, remote: map<int, Setup>) {
    && SetupFor(bulk, remote, run.setupId).Ok?
    && var setup := SetupFor(bulk, remote, run.setupId).value;
       forall j :: 0 <= j < |setup.parameters| ==> Filed(t, classifier, templates, task, run.runId, setup, setup.parameters[j])
  }

  lemma GrowsKeepsIds(t: Table, u: Table, names: set<string>, allowed: map<int, set<int>>)
    requires Grows(t, u, names, allowed)
    ensures forall n, k, w, id :: id in Slot(t, n, k, w) ==> id in Slot(u, n, k, w)
  {
    forall n, k, w, id | id in Slot(t, n, k, w) ensures id in Slot(u, n, k, w) {
      assert Slot(t, n, k, w) <= Slot(u, n, k, w);
      var i :| 0 <= i < |Slot(t, n, k, w)| && Slot(t, n, k, w)[i] == id;
      assert Slot(u, n, k, w)[i] == id;
    }
  }

  /** Filing a `param_distributions` parameter files it. */
  lemma FileDistributionsFiles(t: Table, classifier: string, templates: map<string, GridMap>, task: int, id: int,
                               setup: Setup, p: SetupParameter)
    requires p.name == ParamDistributions
    ensures FileDistributions(t, classifier, templates, task, id, setup, p.value).Ok? ==>
      Filed(FileDistributions(t, classifier, templates, task, id, setup, p.value).value,
            classifier, templates, task, id, setup, p)
  {
    var f := FileDistributions(t, classifier, templates, task, id, setup, p.value);
    if f.Ok? && classifier == RandomForest && GridKeys(p.value).Some? && |FullKeys() - GridKeys(p.value).value| == 1 {
      var held := HeldOutValue(setup, SoleExcluded(GridKeys(p.value).value));
      if held.Ok? {
        assert f == FileHeldOut(t, templates, task, id, held, p.value);
        AppendedFiles(t, f.value, templates, task, held.value, id, p.value);
      }
    }
  }

  /** After an append, the id is under every matching template. */
  lemma AppendedFiles(t: Table, u: Table, templates: map<string, GridMap>, task: int, v: Value, id: int, grid: Json)
    requires AppendedWhere(t, u, templates, task, v, id, grid)
    ensures forall n :: Matches(templates, n, grid) ==> id in Slot(u, n, task, v)
  {
    forall n | Matches(templates, n, grid) ensures id in Slot(u, n, task, v) {
      assert Slot(u, n, task, v) == Slot(t, n, task, v) + [id];
    }
  }

  /** Later appends keep a parameter filed. */
  lemma FiledKept(t: Table, u: Table, names: set<string>, allowed: map<int, set<int>>, classifier: string,
                  templates: map<string, GridMap>, task: int, id: int, setup: Setup, p: SetupParameter)
    requires Grows(t, u, names, allowed)
    requires Filed(t, classifier, templates, task, id, setup, p)
    ensures Filed(u, classifier, templates, task, id, setup, p)
  {
    GrowsKeepsIds(t, u, names, allowed);
  }

  /** One step of the parameter loop: a parameter of another name is skipped. */
  lemma FileParametersSkip(t: Table, classifier: string, templates: map<string, GridMap>,
                           task: int, id: int, setup: Setup, i: nat)
    requires i < |setup.parameters| && setup.parameters[i].name != ParamDistributions
    requires FileParameters(t, classifier, templates, task, id, setup, i).Ok?
    ensures FileParameters(t, classifier, templates, task, id, setup, i + 1)
            == FileParameters(t, classifier, templates, task, id, setup, i)
  {
  }

  /** One step of the parameter loop: a `param_distributions` parameter is
      filed before the rest. */
  lemma FileParametersFile(t: Table, classifier: string, templates: map<string, GridMap>,
                           task: int, id: int, setup: Setup, i: nat)
    requires i < |setup.parameters| && setup.parameters[i].name == ParamDistributions
    ensures FileParameters(t, classifier, templates, task, id, setup, i).Ok? ==>
      var first := FileDistributions(t, classifier, templates, task, id, setup, setup.parameters[i].value);
      && first.Ok?
      && FileParameters(first.value, classifier, templates, task, id, setup, i + 1)
         == FileParameters(t, classifier, templates, task, id, setup, i)
  {
  }

  lemma {:induction false} FileParametersComplete(t: Table, classifier: string, templates: map<string, GridMap>,
                                                  task: int, id: int, setup: Setup, i: nat, j: nat)
    requires i <= j < |setup.parameters|
    requires FileParameters(t, classifier, templates, task, id, setup, i).Ok?
    ensures Filed(FileParameters(t, classifier, templates, task, id, setup, i).value,
                  classifier, templates, task, id, setup, setup.parameters[j])
    decreases |setup.parameters| - i
  {
    var ps := setup.parameters;
    var r := FileParameters(t, classifier, templates, task, id, setup, i).value;
    if ps[i].name != ParamDistributions {
      FileParametersSkip(t, classifier, templates, task, id, setup, i);
      if j > i {
        FileParametersComplete(t, classifier, templates, task, id, setup, i + 1, j);
      }
    } else {
      FileParametersFile(t, classifier, templates, task, id, setup, i);
      var rest := FileDistributions(t, classifier, templates, task, id, setup, ps[i].value).value;
      if j > i {
        FileParametersComplete(rest, classifier, templates, task, id, setup, i + 1, j);
      } else {
        FileDistributionsFiles(t, classifier, templates, task, id, setup, ps[i]);
        FiledKept(rest, r, templates.Keys, map[task := {id}], classifier, templates, task, id, setup, ps[i]);
      }
    }
  }

  lemma {:induction false} FileRunsComplete(t: Table, classifier: string, templates: map<string, GridMap>, task: int,
                                            runs: seq<Run>, bulk: map<int, Setup>, remote: map<int, Setup>)
    requires FileRuns(t, classifier, templates, task, runs, bulk, remote).Ok?
    ensures var r := FileRuns(t, classifier, templates, task, runs, bulk, remote).value;
      forall x :: 0 <= x < |runs| ==> RunFiled(r, classifier, templates, task, runs[x], bulk, remote)
    decreases |runs|
  {
    if |runs| > 0 {
      var r := FileRuns(t, classifier, templates, task, runs, bulk, remote).value;
      var setup := SetupFor(bulk, remote, runs[0].setupId).value;
      var t1 := FileParameters(t, classifier, templates, task, runs[0].runId, setup, 0).value;
      forall j | 0 <= j < |setup.parameters|
        ensures Filed(t1, classifier, templates, task, runs[0].runId, setup, setup.parameters[j])
      {
        FileParametersComplete(t, classifier, templates, task, runs[0].runId, setup, 0, j);
      }
      FileRunsComplete(t1, classifier, templates, task, runs[1..], bulk, remote);
      GrowsKeepsIds(t1, r, templates.Keys, map[task := RunIdsOf(runs[1..])]);
      forall x | 0 <= x < |runs| ensures RunFiled(r, classifier, templates, task, runs[x], bulk, remote) {
        if x > 0 {
          assert runs[x] == runs[1..][x - 1];
        } else {
          forall j | 0 <= j < |setup.parameters|
            ensures Filed(r, classifier, templates, task, runs[0].runId, setup, setup.parameters[j])
          {
            assert Filed(t1, classifier, templates, task, runs[0].runId, setup, setup.parameters[j]);
          }
        }
      }
    }
  }

  lemma RunFiledKept(t: Table, u: Table, names: set<string>, allowed: map<int, set<int>>, classifier: string,
                     templates: map<string, GridMap>, task: int, run: Run, bulk: map<int, Setup>, remote: map<int, Setup>)
    requires Grows(t, u, names, allowed)
    requires RunFiled(t, classifier, templates, task, run, bulk, remote)
    ensures RunFiled(u, classifier, templates, task, run, bulk, remote)
  {
    var setup := SetupFor(bulk, remote, run.setupId).value;
    forall j | 0 <= j < |setup.parameters|
      ensures Filed(u, classifier, templates, task, run.runId, setup, setup.parameters[j])
    {
      FiledKept(t, u, names, allowed, classifier, templates, task, run.runId, setup, setup.parameters[j]);
    }
  }

  /** One step of the task loop: a task whose listing failed is skipped. */
  lemma FileTasksSkip(t: Table, classifier: string, templates: map<string, GridMap>, tasks: seq<int>,
                      listing: map<int, seq<Run>>, bulk: map<int, Setup>, remote: map<int, Setup>)
    requires |tasks| > 0 && tasks[0] !in listing
    requires FileTasks(t, classifier, templates, tasks, listing, bulk, remote).Ok?
    ensures FileTasks(t, classifier, templates, tasks[1..], listing, bulk, remote)
            == FileTasks(t, classifier, templates, tasks, listing, bulk, remote)
  {
  }

  /** One step of the task loop: a listed task's runs are filed before the
      remaining tasks. */
  lemma FileTasksFile(t: Table, classifier: string, templates: map<string, GridMap>, tasks: seq<int>,
                      listing: map<int, seq<Run>>, bulk: map<int, Setup>, remote: map<int, Setup>)
    requires |tasks| > 0 && tasks[0] in listing
    requires FileTasks(t, classifier, templates, tasks, listing, bulk, remote).Ok?
    ensures var first := FileRuns(t, classifier, templates, tasks[0], listing[tasks[0]], bulk, remote);
      && first.Ok?
      && FileTasks(first.value, classifier, templates, tasks[1..], listing, bulk, remote)
         == FileTasks(t, classifier, templates, tasks, listing, bulk, remote)
  {
  }

  lemma {:induction false} FileTasksComplete(t: Table, classifier: string, templates: map<string, GridMap>, tasks: seq<int>,
                                             listing: map<int, seq<Run>>, bulk: map<int, Setup>, remote: map<int, Setup>,
                                             x: nat, y: nat)
    requires x < |tasks| && tasks[x] in listing && y < |listing[tasks[x]]|
    requires FileTasks(t, classifier, templates, tasks, listing, bulk, remote).Ok?
    ensures RunFiled(FileTasks(t, classifier, templates, tasks, listing, bulk, remote).value,
                     classifier, templates, tasks[x], listing[tasks[x]][y], bulk, remote)
    decreases |tasks|
  {
    var r := FileTasks(t, classifier, templates, tasks, listing, bulk, remote).value;
    var task := tasks[0];
    if task !in listing {
      FileTasksSkip(t, classifier, templates, tasks, listing, bulk, remote);
      assert tasks[x] == tasks[1..][x - 1];
      FileTasksComplete(t, classifier, templates, tasks[1..], listing, bulk, remote, x - 1, y);
    } else {
      FileTasksFile(t, classifier, templates, tasks, listing, bulk, remote);
      var t1 := FileRuns(t, classifier, templates, task, listing[task], bulk, remote).value;
      if x > 0 {
        assert tasks[x] == tasks[1..][x - 1];
        FileTasksComplete(t1, classifier, templates, tasks[1..], listing, bulk, remote, x - 1, y);
      } else {
        FileRunsComplete(t, classifier, templates, task, listing[task], bulk, remote);
        RunFiledKept(t1, r, templates.Keys, Listed(tasks[1..], listing), classifier, templates, task,
                     listing[task][y], bulk, remote);
      }
    }
  }

  /** Completeness of `obtain_runids`: when the pass succeeds, every run listed
      for a requested task has its setup, and each of its
      `param_distributions` grids that leaves out exactly one registered
      parameter with a readable held-out value has the run's id filed under
      that value for every template equal to the grid. */
  lemma ObtainRunIdsComplete(tasks: seq<int>, classifier: string, templates: map<string, GridMap>,
                             listing: map<int, seq<Run>>, bulk: map<int, Setup>, remote: map<int, Setup>)
    requires ObtainRunIds(tasks, classifier, templates, listing, bulk, remote).Ok?
    ensures forall x, y :: 0 <= x < |tasks| && tasks[x] in listing && 0 <= y < |listing[tasks[x]]| ==>
      RunFiled(ObtainRunIds(tasks, classifier, templates, listing, bulk, remote).value,
               classifier, templates, tasks[x], listing[tasks[x]][y], bulk, remote)
  {
    forall x, y | 0 <= x < |tasks| && tasks[x] in listing && 0 <= y < |listing[tasks[x]]|
      ensures RunFiled(ObtainRunIds(tasks, classifier, templates, listing, bulk, remote).value,
                       classifier, templates, tasks[x], listing[tasks[x]][y], bulk, remote)
    {
      FileTasksComplete(map[], classifier, templates, tasks, listing, bulk, remote, x, y);
    }
  }
}
