/** The parameter-grid registry of `openmlpimp/utils/optimize.py`: the grid of
    the one registered model family, exclusion and reversal, and the views
    derived from it. */
module Optimize {
  import opened Wrappers
  import opened Errors
  import opened Values
  import opened ParamGrid

  const RandomForest := "random_forest"

  const MinSamplesLeaf := "classifier__min_samples_leaf"
  const MaxFeatures := "classifier__max_features"
  const Bootstrap := "classifier__bootstrap"
  const MinSamplesSplit := "classifier__min_samples_split"
  const Criterion := "classifier__criterion"
  const ImputationStrategy := "imputation__strategy"

  /** The registered parameter names, in declaration order. */
  const FullNames := [MinSamplesLeaf, MaxFeatures, Bootstrap, MinSamplesSplit, Criterion, ImputationStrategy]

  /** The `count` integers `lo, lo + 1, ...`. */
  function IntsFrom(lo: int, count: nat): (vs: seq<Value>)
    ensures |vs| == count
    ensures forall i :: 0 <= i < count ==> vs[i] == VInt(lo + i)
  {
    seq(count, i => VInt(lo + i))
  }

  /** The `count` fractions `0.1, 0.2, ...` (exact rationals). */
  function Tenths(count: nat): (vs: seq<Value>)
    ensures |vs| == count
    ensures forall i :: 0 <= i < count ==> vs[i] == VReal((i + 1) as real / 10.0)
  {
    seq(count, i => VReal((i + 1) as real / 10.0))
  }

  /** The random-forest grid, in declaration order: leaf sizes 1 to 20,
      feature fractions 0.1 to 0.9, bootstrap on or off, split sizes 2 to 20,
      two split criteria and three imputation strategies. */
  function RandomForestGrid(): (g: Grid)
    ensures Names(g) == FullNames
    ensures WellFormed(g)
  {
    var g := [
      Entry(MinSamplesLeaf, IntsFrom(1, 20)),
      Entry(MaxFeatures, Tenths(9)),
      Entry(Bootstrap, [VBool(true), VBool(false)]),
      Entry(MinSamplesSplit, IntsFrom(2, 19)),
      Entry(Criterion, [VStr("gini"), VStr("entropy")]),
      Entry(ImputationStrategy, [VStr("mean"), VStr("median"), VStr("most_frequent")])
    ];
    assert Names(g) == FullNames;
    g
  }

  /** The names of the registered grid, as a set. */
  function FullKeys(): (ks: set<string>)
    ensures |ks| == 6
  {
    assert Elems(FullNames) == {MinSamplesLeaf, MaxFeatures, Bootstrap, MinSamplesSplit, Criterion, ImputationStrategy};
    Elems(FullNames)
  }

  lemma FullKeysOfGrid()
    ensures Keys(RandomForestGrid()) == FullKeys()
  {
    KeysAreNames(RandomForestGrid());
  }

  /** The `exclude` argument: `None`, a single name, or a list of names. */
  datatype Exclusion = NoExclusion | Single(name: string) | Several(names: seq<string>)

  /** The names to delete; a single string stands for a one-element list. */
  function ExcludedNames(ex: Exclusion): seq<string> {
    match ex
    case NoExclusion => []
    case Single(n) => [n]
    case Several(ns) => ns
  }

  /** The registered names that an exclusion keeps, in declaration order. */
  function KeptNames(exclude: Exclusion): (ns: seq<string>)
    ensures forall x :: x in ns <==> x in FullNames && x !in ExcludedNames(exclude)
  {
    Filter(FullNames, Elems(ExcludedNames(exclude)))
  }

  /** Deletes the names one after another, failing at the first name that is
      not (or no longer) a key. */
  function ExcludeEach(g: Grid, names: seq<string>): Result<Grid, Error>
    decreases |names|
  {
    if |names| == 0 then Ok(g)
    else if names[0] !in Keys(g) then Err(UnknownParameter(names[0]))
    else ExcludeEach(Without(g, {names[0]}), names[1..])
  }

  lemma {:induction false} WithoutNothing(g: Grid)
    ensures Without(g, {}) == g
  {
    if |g| > 0 {
      WithoutNothing(g[1..]);
      assert [g[0]] + g[1..] == g;
    }
  }

  /** A sequence with one element in front is duplicate-free exactly when
      the element is new and the rest is duplicate-free. */
  lemma DistinctCons(n: string, tail: seq<string>)
    ensures Distinct([n] + tail) <==> n !in tail && Distinct(tail)
  {
    var names := [n] + tail;
    assert forall i :: 0 <= i < |tail| ==> names[i + 1] == tail[i];
    if Distinct(names) {
      forall i, j | 0 <= i < j < |tail| ensures tail[i] != tail[j] {
        assert names[i + 1] != names[j + 1];
      }
      forall i | 0 <= i < |tail| ensures tail[i] != n {
        assert names[0] != names[i + 1];
      }
    }
    if n !in tail && Distinct(tail) {
      forall i, j | 0 <= i < j < |names| ensures names[i] != names[j] {
        assert names[j] == tail[j - 1];
        if i > 0 {
          assert names[i] == tail[i - 1];
        }
      }
    }
  }

  /** Deleting names one by one succeeds exactly when every name is a key and
      none is repeated (a repeated name is no longer a key the second time);
      it then deletes exactly those names. */
  lemma {:induction false} ExcludeEachDeletesNames(g: Grid, names: seq<string>)
    ensures ExcludeEach(g, names).Ok? <==> Distinct(names) && Elems(names) <= Keys(g)
    ensures ExcludeEach(g, names).Ok? ==> ExcludeEach(g, names).value == Without(g, Elems(names))
    ensures ExcludeEach(g, names).Err? ==>
      ExcludeEach(g, names).error.UnknownParameter? && ExcludeEach(g, names).error.name in names
    decreases |names|
  {
    if |names| == 0 {
      assert Elems(names) == {};
      WithoutNothing(g);
    } else {
      var n, tail := names[0], names[1..];
      assert names == [n] + tail;
      DistinctCons(n, tail);
      assert Elems(names) == {n} + Elems(tail);
      if n in Keys(g) {
        ExcludeEachDeletesNames(Without(g, {n}), tail);
        WithoutWithout(g, {n}, Elems(tail));
      }
    }
  }

  /** The exclusion and reversal of `obtain_paramgrid`, applied to any
      well-formed grid. */
  function Derive(full: Grid, names: seq<string>, reverse: bool): (r: Result<Grid, Error>)
    requires WellFormed(full)
    ensures r.Ok? <==> Distinct(names) && Elems(names) <= Keys(full)
    ensures r.Err? ==> r.error.UnknownParameter? && r.error.name in names
    ensures r.Ok? ==> WellFormed(r.value)
    ensures r.Ok? ==> Keys(r.value) == Keys(full) - Elems(names)
    ensures r.Ok? ==> forall k :: k in Keys(r.value) ==> Lookup(r.value, k) == Lookup(full, k)
    ensures r.Ok? ==>
      var kept := Filter(Names(full), Elems(names));
      Names(r.value) == if reverse then Reverse(kept) else kept
  {
    ExcludeEachDeletesNames(full, names);
    WithoutKeepsEntries(full, Elems(names));
    var g :- ExcludeEach(full, names);
    if reverse then
      ReverseWellFormed(g);
      ReverseLookup(g);
      NamesOfReverse(g);
      Ok(Reverse(g))
    else
      Ok(g)
  }

  /** `obtain_paramgrid(classifier, exclude, reverse)`. */
  function ObtainParamGrid(classifier: string, exclude: Exclusion, reverse: bool): (r: Result<Grid, Error>)
    ensures classifier != RandomForest ==> r == Err(UnknownModelFamily(classifier))
    ensures r.Ok? <==>
      classifier == RandomForest && Distinct(ExcludedNames(exclude)) && Elems(ExcludedNames(exclude)) <= FullKeys()
    ensures classifier == RandomForest && r.Err? ==> r.error.UnknownParameter? && r.error.name in ExcludedNames(exclude)
    ensures r.Ok? ==> WellFormed(r.value)
    ensures r.Ok? ==> Keys(r.value) == FullKeys() - Elems(ExcludedNames(exclude))
    ensures r.Ok? ==> forall k :: k in Keys(r.value) ==> Lookup(r.value, k) == Lookup(RandomForestGrid(), k)
  {
    if classifier != RandomForest then Err(UnknownModelFamily(classifier))
    else
      FullKeysOfGrid();
      Derive(RandomForestGrid(), ExcludedNames(exclude), reverse)
  }

  /** Exclusion keeps the remaining registered names in declaration order,
      and reversal lists them back to front. */
  lemma ObtainParamGridOrder(classifier: string, exclude: Exclusion, reverse: bool)
    ensures ObtainParamGrid(classifier, exclude, reverse).Ok? ==>
      Names(ObtainParamGrid(classifier, exclude, reverse).value)
      == if reverse then Reverse(KeptNames(exclude)) else KeptNames(exclude)
  {
    if classifier == RandomForest {
      var r := Derive(RandomForestGrid(), ExcludedNames(exclude), reverse);
      assert ObtainParamGrid(classifier, exclude, reverse) == r;
    }
  }

  /** The reversed derivation is the plain one, reversed. */
  lemma DeriveReversed(full: Grid, names: seq<string>)
    requires WellFormed(full)
    ensures Derive(full, names, true).Ok? == Derive(full, names, false).Ok?
    ensures Derive(full, names, false).Ok? ==> Derive(full, names, true).value == Reverse(Derive(full, names, false).value)
  {
  }

  /** Reversal changes only the order: the reversed grid exists exactly when
      the plain one does, lists the keys in exactly the reverse order, and
      holds the same keys with the same values. */
  lemma ReverseIsReverseOrder(classifier: string, exclude: Exclusion)
    ensures ObtainParamGrid(classifier, exclude, true).Ok? == ObtainParamGrid(classifier, exclude, false).Ok?
    ensures ObtainParamGrid(classifier, exclude, false).Ok? ==>
      var plain, reversed := ObtainParamGrid(classifier, exclude, false).value, ObtainParamGrid(classifier, exclude, true).value;
      && Names(reversed) == Reverse(Names(plain))
      && Keys(reversed) == Keys(plain)
      && AsMap(reversed) == AsMap(plain)
  {
    if classifier == RandomForest {
      DeriveReversed(RandomForestGrid(), ExcludedNames(exclude));
      if ObtainParamGrid(classifier, exclude, false).Ok? {
        ReverseKeepsContents(ObtainParamGrid(classifier, exclude, false).value);
      }
    }
  }

  /** A single name behaves as the one-element list holding it. */
  lemma SingleIsOneElementList(classifier: string, name: string, reverse: bool)
    ensures ObtainParamGrid(classifier, Single(name), reverse) == ObtainParamGrid(classifier, Several([name]), reverse)
  {
    assert ExcludedNames(Single(name)) == ExcludedNames(Several([name]));
  }

  /** `obtain_parameters(classifier)`: the key set of the full grid. */
  function ObtainParameters(classifier: string): (r: Result<set<string>, Error>)
    ensures r.Ok? <==> classifier == RandomForest
    ensures r.Err? ==> r.error == UnknownModelFamily(classifier)
    ensures r.Ok? ==> r.value == FullKeys()
    ensures r.Ok? ==> |r.value| == 6
    ensures r.Ok? ==> forall i :: 0 <= i < |FullNames| ==> FullNames[i] in r.value
  {
    var g :- ObtainParamGrid(classifier, NoExclusion, false);
    assert Elems(ExcludedNames(NoExclusion)) == {};
    Ok(Keys(g))
  }

  /** `get_param_values(classifier, parameter)`. */
  function GetParamValues(classifier: string, parameter: string): (r: Result<seq<Value>, Error>)
    ensures classifier != RandomForest ==> r == Err(UnknownModelFamily(classifier))
    ensures classifier == RandomForest && parameter !in FullKeys() ==> r == Err(UnknownParameter(parameter))
    ensures r.Ok? <==> classifier == RandomForest && parameter in FullKeys()
    ensures r.Ok? ==> Entry(parameter, r.value) in RandomForestGrid()
  {
    var g :- ObtainParamGrid(classifier, NoExclusion, false);
    match Lookup(g, parameter)
    case None => Err(UnknownParameter(parameter))
    case Some(vs) => Ok(vs)
  }

  /** Every entry of the grid is what `get_param_values` returns for its name. */
  lemma {:induction false} ParamValuesOfEveryEntry(i: int)
    requires 0 <= i < |RandomForestGrid()|
    ensures GetParamValues(RandomForest, RandomForestGrid()[i].name) == Ok(RandomForestGrid()[i].values)
  {
    LookupAt(RandomForestGrid(), i);
  }

  /** The registered candidate values, parameter by parameter. */
  lemma RegisteredValues()
    ensures var v := GetParamValues(RandomForest, MinSamplesLeaf);
      v.Ok? && |v.value| == 20 && forall i :: 0 <= i < 20 ==> v.value[i] == VInt(i + 1)
    ensures var v := GetParamValues(RandomForest, MaxFeatures);
      v.Ok? && |v.value| == 9 && forall i :: 0 <= i < 9 ==> v.value[i] == VReal((i + 1) as real / 10.0)
    ensures GetParamValues(RandomForest, Bootstrap) == Ok([VBool(true), VBool(false)])
    ensures var v := GetParamValues(RandomForest, MinSamplesSplit);
      v.Ok? && |v.value| == 19 && forall i :: 0 <= i < 19 ==> v.value[i] == VInt(i + 2)
    ensures GetParamValues(RandomForest, Criterion) == Ok([VStr("gini"), VStr("entropy")])
    ensures GetParamValues(RandomForest, ImputationStrategy) == Ok([VStr("mean"), VStr("median"), VStr("most_frequent")])
  {
    ParamValuesOfEveryEntry(0);
    ParamValuesOfEveryEntry(1);
    ParamValuesOfEveryEntry(2);
    ParamValuesOfEveryEntry(3);
    ParamValuesOfEveryEntry(4);
    ParamValuesOfEveryEntry(5);
  }

  /** `get_excluded_params(classifier, param_grid)`: the registered names the
      given grid's keys leave out. */
  function GetExcludedParams(classifier: string, gridKeys: set<string>): (r: Result<set<string>, Error>)
    ensures classifier != RandomForest ==> r == Err(UnknownModelFamily(classifier))
    ensures classifier == RandomForest ==> r.Ok?
    ensures r.Ok? ==> r.value == FullKeys() - gridKeys
  {
    var all :- ObtainParameters(classifier);
    Ok(all - gridKeys)
  }

  /** Recovering the exclusion from a derived grid gives back exactly the
      names that were excluded, whatever the order. */
  lemma ExcludedParamsRecoverExclusion(classifier: string, exclude: Exclusion, reverse: bool)
    requires ObtainParamGrid(classifier, exclude, reverse).Ok?
    ensures GetExcludedParams(classifier, Keys(ObtainParamGrid(classifier, exclude, reverse).value)).Ok?
    ensures GetExcludedParams(classifier, Keys(ObtainParamGrid(classifier, exclude, reverse).value)).value
            == Elems(ExcludedNames(exclude))
  {
    ExcludedOfKeys(classifier, Keys(ObtainParamGrid(classifier, exclude, reverse).value), Elems(ExcludedNames(exclude)));
  }

  lemma ExcludedOfKeys(classifier: string, keys: set<string>, excluded: set<string>)
    requires classifier == RandomForest
    requires excluded <= FullKeys() && keys == FullKeys() - excluded
    ensures GetExcludedParams(classifier, keys).Ok?
    ensures GetExcludedParams(classifier, keys).value == excluded
  {
    var r := GetExcludedParams(classifier, keys);
    assert r.value == FullKeys() - keys;
  }

  /** In particular excluding one registered parameter is recovered as that
      parameter alone. */
  lemma ExcludedParamsOfSingle(p: string)
    requires p in FullKeys()
    ensures GetExcludedParams(RandomForest, Keys(ObtainParamGrid(RandomForest, Single(p), false).value)).Ok?
    ensures GetExcludedParams(RandomForest, Keys(ObtainParamGrid(RandomForest, Single(p), false).value)).value == {p}
  {
    ExcludedParamsRecoverExclusion(RandomForest, Single(p), false);
    assert Elems([p]) == {p};
  }

  /** `pairs` lists every ordered pair of distinct elements of `keys`, each once. */
  ghost predicate IsPairEnumeration(pairs: seq<(string, string)>, keys: seq<string>) {
    && (forall a, b :: (a, b) in pairs <==> a in keys && b in keys && a != b)
    && Distinct(pairs)
  }

  /** The double loop over the parameters, skipping a parameter paired with
      itself. */
  method OrderedPairs(keys: seq<string>) returns (pairs: seq<(string, string)>)
    requires Distinct(keys)
    ensures IsPairEnumeration(pairs, keys)
    ensures |pairs| == |keys| * (|keys| - 1)
  {
    var n := |keys|;
    pairs := [];
    var i := 0;
    while i < n
      invariant 0 <= i <= n
      invariant |pairs| == i * (n - 1)
      invariant forall a, b :: (a, b) in pairs <==> a in keys[..i] && b in keys && a != b
      invariant Distinct(pairs)
    {
      var j := 0;
      ghost var before := pairs;
      while j < n
        invariant 0 <= j <= n
        invariant |pairs| == i * (n - 1) + (if j <= i then j else j - 1)
        invariant forall a, b :: (a, b) in pairs <==>
          (a in keys[..i] && b in keys && a != b) || (a == keys[i] && b in keys[..j] && b != keys[i])
        invariant Distinct(pairs)
      {
        if keys[i] != keys[j] {
          assert keys[i] !in keys[..i] && keys[j] !in keys[..j];
          pairs := pairs + [(keys[i], keys[j])];
        }
        assert keys[..j + 1] == keys[..j] + [keys[j]];
        j := j + 1;
      }
      assert keys[..i + 1] == keys[..i] + [keys[i]];
      assert keys[..n] == keys;
      i := i + 1;
    }
    assert keys[..n] == keys;
  }

  /** `obtain_parameter_combinations(classifier, num_params)`. The original
      iterates a set, whose order is unspecified; the model takes the
      declaration order. */
  method ObtainParameterCombinations(classifier: string, numParams: int) returns (r: Result<seq<(string, string)>, Error>)
    ensures numParams != 2 ==> r == Err(NotImplemented(numParams))
    ensures numParams == 2 && classifier != RandomForest ==> r == Err(UnknownModelFamily(classifier))
    ensures r.Ok? <==> numParams == 2 && classifier == RandomForest
    ensures r.Ok? ==> IsPairEnumeration(r.value, Names(RandomForestGrid()))
    ensures r.Ok? ==> |r.value| == 30
    ensures r.Ok? ==> forall i :: 0 <= i < |r.value| ==> r.value[i].0 != r.value[i].1
  {
    if numParams != 2 {
      return Err(NotImplemented(numParams));
    }
    var g := ObtainParamGrid(classifier, NoExclusion, false);
    if g.Err? {
      return Err(g.error);
    }
    var pairs := OrderedPairs(Names(g.value));
    r := Ok(pairs);
  }
}
