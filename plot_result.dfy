/** plot_result.py: reading back what a run stored. `load_simulation_data`
    groups the stored entries by `simulation_id` in the order the ids first
    appear (a dict's insertion order) and keeps the first groups;
    `load_summary_data` takes the first stored summary. Reading a file is an
    optional input: `None` stands for a file that does not exist. */
module PlotResult {
  import opened Pricing
  import opened Seqs
  import opened Plot
  import Driver

  /** The distinct simulation ids of `s`, in order of first appearance:
      the keys of the `simulations` dict once every entry is placed. */
  function Ids(s: seq<Entry>): seq<int>
  {
    if s == [] then []
    else
      var before := Ids(s[..|s| - 1]);
      var id := s[|s| - 1].simulationId;
      if id in before then before else before + [id]
  }

  /** The entries of `s` with the given id, in their original order: the
      list `simulations[id]` once every entry is appended. */
  function Members(s: seq<Entry>, id: int): seq<Entry>
  {
    if s == [] then []
    else Members(s[..|s| - 1], id) + (if s[|s| - 1].simulationId == id then [s[|s| - 1]] else [])
  }

  /** `[simulations[sim_id] for sim_id in keys]`. */
  function GroupsOf(s: seq<Entry>, keys: seq<int>): (groups: seq<seq<Entry>>)
    ensures |groups| == |keys|
  {
    seq(|keys|, i requires 0 <= i < |keys| => Members(s, keys[i]))
  }

  /** Placing one more entry: a new id is added at the end of the keys, and
      the entry is appended to its own group only. */
  lemma GroupingStep(s: seq<Entry>, i: nat)
    requires i < |s|
    ensures var e := s[i];
      && Ids(s[..i + 1]) == (if e.simulationId in Ids(s[..i]) then Ids(s[..i]) else Ids(s[..i]) + [e.simulationId])
      && (forall id :: Members(s[..i + 1], id) == Members(s[..i], id) + (if e.simulationId == id then [e] else []))
  {
    assert s[..i + 1][..i] == s[..i];
  }

  /** `keys` and `simulations` are the dict after placing every entry of `s`:
      its keys in insertion order, and each id's list of entries. */
  ghost predicate Grouped(s: seq<Entry>, keys: seq<int>, simulations: map<int, seq<Entry>>)
  {
    && keys == Ids(s)
    && (forall id :: id in simulations <==> id in keys)
    && GroupsMatch(s, simulations)
  }

  /** Each id's dict value is its entries in `s`; absent ids have none. */
  ghost predicate GroupsMatch(s: seq<Entry>, simulations: map<int, seq<Entry>>)
  {
    forall id :: Members(s, id) == if id in simulations then simulations[id] else []
  }

  /** The loop body keeps the dict in step with the entries placed so far. */
  lemma GroupedStep(s: seq<Entry>, i: nat, keys: seq<int>, simulations: map<int, seq<Entry>>)
    requires i < |s|
    requires Grouped(s[..i], keys, simulations)
    ensures var id := s[i].simulationId;
      Grouped(s[..i + 1],
              if id in simulations then keys else keys + [id],
              simulations[id := (if id in simulations then simulations[id] else []) + [s[i]]])
  {
    GroupingStep(s, i);
    GroupsMatchStep(s, i, simulations);
  }

  /** Appending the entry to its id's list keeps every id's list equal to
      its entries so far. */
  lemma GroupsMatchStep(s: seq<Entry>, i: nat, simulations: map<int, seq<Entry>>)
    requires i < |s|
    requires GroupsMatch(s[..i], simulations)
    ensures var id := s[i].simulationId;
      GroupsMatch(s[..i + 1], simulations[id := (if id in simulations then simulations[id] else []) + [s[i]]])
  {
    GroupingStep(s, i);
  }

  /** The loop of `load_simulation_data` that fills the `simulations` dict;
      `keys` is the dict's key order. */
  method GroupBySimulation(allData: seq<Entry>) returns (keys: seq<int>, simulations: map<int, seq<Entry>>)
    ensures keys == Ids(allData)
    ensures forall id :: id in simulations <==> id in keys
    ensures forall id :: id in simulations ==> simulations[id] == Members(allData, id)
  {
    keys := [];
    simulations := map[];
    for i := 0 to |allData|
      invariant Grouped(allData[..i], keys, simulations)
    {
      GroupedStep(allData, i, keys, simulations);
      var entry := allData[i];
      var simId := entry.simulationId;
      if simId !in simulations {
        simulations := simulations[simId := []];
        keys := keys + [simId];
      }
      simulations := simulations[simId := simulations[simId] + [entry]];
    }
    assert allData[..|allData|] == allData;
  }

  /** Python's slice `s[:k]`: the first `k` elements, or all but the last
      `-k` when `k` is negative. */
  function Take<T>(s: seq<T>, k: int): (r: seq<T>)
    ensures r <= s
    ensures k >= 0 ==> |r| == (if k < |s| then k else |s|)
    ensures k < 0 ==> |r| == (if |s| + k > 0 then |s| + k else 0)
  {
    if k >= 0 then (if k < |s| then s[..k] else s)
    else (if |s| + k > 0 then s[..|s| + k] else [])
  }

  /** `load_simulation_data(workers, num_simulations_to_plot=300)` given the
      results file's contents, or `None` when the file does not exist. */
  method LoadSimulationData(file: Option<seq<Entry>>, numSimulationsToPlot: int := 300)
    returns (selected: seq<seq<Entry>>)
    ensures file.None? ==> selected == []
    ensures file.Some? ==> selected == GroupsOf(file.value, Take(Ids(file.value), numSimulationsToPlot))
  {
    if file.None? {
      return [];
    }
    var keys, simulations := GroupBySimulation(file.value);
    var selectedSimIds := Take(keys, numSimulationsToPlot);
    forall i | 0 <= i < |selectedSimIds|
      ensures selectedSimIds[i] in simulations
    {
      assert selectedSimIds[i] == keys[i];
    }
    selected := seq(|selectedSimIds|, i requires 0 <= i < |selectedSimIds| => simulations[selectedSimIds[i]]);
  }

  /** `load_summary_data(workers)` given the summary file's contents: the
      first summary of a non-empty list; `None` stands for the empty dict
      returned for a missing file or an empty list. */
  function LoadSummaryData(file: Option<seq<Driver.Summary>>): (r: Option<Driver.Summary>)
    ensures r.Some? <==> file.Some? && |file.value| > 0
    ensures r.Some? ==> r.value == file.value[0]
  {
    match file
    case None => None
    case Some(summaries) => if |summaries| > 0 then Some(summaries[0]) else None
  }

  /** `store_results` writes `[summary]`; loading it gives that summary back. */
  lemma SummaryRoundTrip(summary: Driver.Summary)
    ensures LoadSummaryData(Some([summary])) == Some(summary)
  {
  }

  /** The keys are distinct and are exactly the ids that occur in the input. */
  lemma {:induction false} IdsDistinct(s: seq<Entry>)
    ensures forall i, j :: 0 <= i < j < |Ids(s)| ==> Ids(s)[i] != Ids(s)[j]
    ensures forall id :: id in Ids(s) <==> exists k :: 0 <= k < |s| && s[k].simulationId == id
    decreases |s|
  {
    if s != [] {
      var prefix := s[..|s| - 1];
      IdsDistinct(prefix);
      forall id | (exists k :: 0 <= k < |s| && s[k].simulationId == id)
        ensures id in Ids(s)
      {
        var k :| 0 <= k < |s| && s[k].simulationId == id;
        if k < |s| - 1 {
          assert prefix[k].simulationId == id;
        }
      }
      forall id | id in Ids(s)
        ensures exists k :: 0 <= k < |s| && s[k].simulationId == id
      {
        if id in Ids(prefix) {
          var k :| 0 <= k < |prefix| && prefix[k].simulationId == id;
          assert s[k].simulationId == id;
        } else {
          assert s[|s| - 1].simulationId == id;
        }
      }
    }
  }

  /** An id that does not occur has an empty group. */
  lemma {:induction false} MembersOfAbsent(s: seq<Entry>, id: int)
    requires id !in Ids(s)
    ensures Members(s, id) == []
    decreases |s|
  {
    if s != [] {
      var prefix := s[..|s| - 1];
      assert Ids(prefix) <= Ids(s);
      MembersOfAbsent(prefix, id);
    }
  }

  /** Every member of a group carries the group's id, and a group is the
      concatenation of the groups of any split of the input: entries keep
      their relative order. */
  lemma {:induction false} MembersInOrder(a: seq<Entry>, b: seq<Entry>, id: int)
    ensures Members(a + b, id) == Members(a, id) + Members(b, id)
    ensures forall k :: 0 <= k < |Members(a + b, id)| ==> Members(a + b, id)[k].simulationId == id
    decreases |b|
  {
    if b == [] {
      assert a + b == a;
      MembersCarryId(a, id);
    } else {
      var b' := b[..|b| - 1];
      assert (a + b)[..|a + b| - 1] == a + b';
      MembersInOrder(a, b', id);
    }
  }

  lemma {:induction false} MembersCarryId(s: seq<Entry>, id: int)
    ensures forall k :: 0 <= k < |Members(s, id)| ==> Members(s, id)[k].simulationId == id
    decreases |s|
  {
    if s != [] {
      MembersCarryId(s[..|s| - 1], id);
    }
  }

  /** The keys of any prefix of the input are a prefix of the keys: an id's
      position is fixed when it first appears and later entries only add
      ids at the end. */
  lemma {:induction false} IdsPrefix(s: seq<Entry>, k: nat)
    requires k <= |s|
    ensures Ids(s[..k]) <= Ids(s)
    decreases |s| - k
  {
    if k < |s| {
      IdsPrefix(s, k + 1);
      GroupingStep(s, k);
    } else {
      assert s[..k] == s;
    }
  }

  /** Groups are ordered by first appearance: every occurrence of a later
      key is preceded by an occurrence of each earlier key. */
  lemma GroupOrder(s: seq<Entry>, i: nat, j: nat, k: nat)
    requires i < j < |Ids(s)|
    requires k < |s| && s[k].simulationId == Ids(s)[j]
    ensures exists k' :: 0 <= k' < k && s[k'].simulationId == Ids(s)[i]
  {
    var prefix := s[..k + 1];
    IdsPrefix(s, k + 1);
    IdsDistinct(prefix);
    IdsDistinct(s);
    assert prefix[k].simulationId == Ids(s)[j];
    var ids := Ids(prefix);
    assert Ids(s)[j] in ids;
    var jj :| 0 <= jj < |ids| && ids[jj] == Ids(s)[j];
    assert ids[jj] == Ids(s)[jj];
    assert jj == j;
    assert ids[i] == Ids(s)[i];
    assert ids[i] in ids;
    var k' :| 0 <= k' < |prefix| && prefix[k'].simulationId == Ids(s)[i];
    assert k' != k;
  }

  /** An entry whose id is already a key at position `p` extends that group
      and no other. */
  lemma GroupsExtend(s: seq<Entry>, p: nat)
    requires s != []
    requires p < |Ids(s[..|s| - 1])| && Ids(s[..|s| - 1])[p] == s[|s| - 1].simulationId
    ensures var before := GroupsOf(s[..|s| - 1], Ids(s[..|s| - 1]));
      GroupsOf(s, Ids(s)) == before[p := before[p] + [s[|s| - 1]]]
  {
    var prefix, e := s[..|s| - 1], s[|s| - 1];
    var keys := Ids(prefix);
    IdsDistinct(prefix);
    var before := GroupsOf(prefix, keys);
    var after := GroupsOf(s, Ids(s));
    forall q | 0 <= q < |keys|
      ensures after[q] == before[p := before[p] + [e]][q]
    {
      if q != p {
        assert keys[q] != e.simulationId;
      }
    }
  }

  /** An entry with a new id adds a new group holding just that entry. */
  lemma GroupsAddNew(s: seq<Entry>)
    requires s != []
    requires s[|s| - 1].simulationId !in Ids(s[..|s| - 1])
    ensures GroupsOf(s, Ids(s)) == GroupsOf(s[..|s| - 1], Ids(s[..|s| - 1])) + [[s[|s| - 1]]]
  {
    var prefix, e := s[..|s| - 1], s[|s| - 1];
    var keys := Ids(prefix);
    assert Ids(s) == keys + [e.simulationId];
    MembersOfNew(s);
    GroupsOfSnoc(s, keys, e.simulationId);
    GroupsUnaffected(s, keys);
  }

  /** The group of an id that first appears in the last entry is that entry. */
  lemma MembersOfNew(s: seq<Entry>)
    requires s != []
    requires s[|s| - 1].simulationId !in Ids(s[..|s| - 1])
    ensures Members(s, s[|s| - 1].simulationId) == [s[|s| - 1]]
  {
    MembersOfAbsent(s[..|s| - 1], s[|s| - 1].simulationId);
  }

  /** One more key adds its group at the end. */
  lemma GroupsOfSnoc(s: seq<Entry>, keys: seq<int>, id: int)
    ensures GroupsOf(s, keys + [id]) == GroupsOf(s, keys) + [Members(s, id)]
  {
    var lhs, rhs := GroupsOf(s, keys + [id]), GroupsOf(s, keys) + [Members(s, id)];
    forall q | 0 <= q < |keys|
      ensures lhs[q] == rhs[q]
    {
      assert (keys + [id])[q] == keys[q];
    }
  }

  /** Groups of keys other than the last entry's id do not see that entry. */
  lemma GroupsUnaffected(s: seq<Entry>, keys: seq<int>)
    requires s != []
    requires s[|s| - 1].simulationId !in keys
    ensures GroupsOf(s, keys) == GroupsOf(s[..|s| - 1], keys)
  {
    forall q | 0 <= q < |keys|
      ensures Members(s, keys[q]) == Members(s[..|s| - 1], keys[q])
    {
      assert keys[q] in keys;
    }
  }

  /** Grouping loses and duplicates nothing: the groups, concatenated in key
      order, are a permutation of the input. */
  lemma {:induction false} GroupingPermutation(s: seq<Entry>)
    ensures multiset(Flatten(GroupsOf(s, Ids(s)))) == multiset(s)
    decreases |s|
  {
    if s == [] {
      assert GroupsOf(s, Ids(s)) == [];
    } else {
      var prefix, e := s[..|s| - 1], s[|s| - 1];
      var keys := Ids(prefix);
      var before := GroupsOf(prefix, keys);
      GroupingPermutation(prefix);
      assert s == prefix + [e];
      if e.simulationId in keys {
        var p :| 0 <= p < |keys| && keys[p] == e.simulationId;
        GroupsExtend(s, p);
        FlattenUpdate(before, p, [e]);
      } else {
        GroupsAddNew(s);
        FlattenSnoc(before, [e]);
      }
    }
  }

  /** At most `num_simulations_to_plot` groups are loaded, and they are the
      first groups in key order; a missing results file loads nothing. */
  lemma SelectionBound(s: seq<Entry>, numSimulationsToPlot: int)
    ensures var selected := GroupsOf(s, Take(Ids(s), numSimulationsToPlot));
      && (numSimulationsToPlot >= 0 ==> |selected| <= numSimulationsToPlot)
      && |selected| <= |Ids(s)|
      && selected == GroupsOf(s, Ids(s))[..|selected|]
  {
  }

  /** Entries that all carry `id` form exactly the group of `id`. */
  lemma {:induction false} MembersUniform(x: seq<Entry>, id: int, other: int)
    requires forall k :: 0 <= k < |x| ==> x[k].simulationId == id
    ensures Members(x, id) == x
    ensures other != id ==> Members(x, other) == []
    decreases |x|
  {
    if x != [] {
      MembersUniform(x[..|x| - 1], id, other);
    }
  }

  /** Appending a non-empty run of entries of a new id adds that id as the last key. */
  lemma {:induction false} IdsAppendFresh(s: seq<Entry>, x: seq<Entry>, id: int)
    requires x != []
    requires forall k :: 0 <= k < |x| ==> x[k].simulationId == id
    requires id !in Ids(s)
    ensures Ids(s + x) == Ids(s) + [id]
    decreases |x|
  {
    var x' := x[..|x| - 1];
    assert (s + x)[..|s + x| - 1] == s + x';
    if x' != [] {
      IdsAppendFresh(s, x', id);
    } else {
      assert s + x' == s;
    }
  }

  /** Appending a non-empty run of entries of a new id adds one group: that run. */
  lemma GroupsAppendFresh(s: seq<Entry>, x: seq<Entry>, id: int)
    requires x != []
    requires forall k :: 0 <= k < |x| ==> x[k].simulationId == id
    requires id !in Ids(s)
    ensures Ids(s + x) == Ids(s) + [id]
    ensures GroupsOf(s + x, Ids(s + x)) == GroupsOf(s, Ids(s)) + [x]
  {
    IdsAppendFresh(s, x, id);
    var keys := Ids(s);
    GroupsOfSnoc(s + x, keys, id);
    forall q | 0 <= q < |keys|
      ensures Members(s + x, keys[q]) == Members(s, keys[q])
    {
      assert keys[q] in keys;
      MembersInOrder(s, x, keys[q]);
      MembersUniform(x, id, keys[q]);
    }
    assert GroupsOf(s + x, keys) == GroupsOf(s, keys);
    MembersInOrder(s, x, id);
    MembersUniform(x, id, id);
    MembersOfAbsent(s, id);
    assert Members(s + x, id) == x;
  }

  /** A path as a batch writes it: at least one entry, all tagged `id`. */
  predicate TaggedRun(path: seq<Entry>, id: int)
  {
    path != [] && forall k :: 0 <= k < |path| ==> path[k].simulationId == id
  }

  /** One more path of the next id extends the keys by that id and the
      groups by that path. */
  lemma RoundTripStep(records: seq<Entry>, paths: seq<seq<Entry>>, before: seq<Entry>, path: seq<Entry>,
                      beforePaths: seq<seq<Entry>>, start: int, n: nat)
    requires 0 < n && TaggedRun(path, start + n - 1)
    requires records == before + path && paths == beforePaths + [path]
    requires Ids(before) == Consecutive(start, n - 1)
    requires GroupsOf(before, Ids(before)) == beforePaths
    ensures Ids(records) == Consecutive(start, n)
    ensures GroupsOf(records, Ids(records)) == paths
  {
    var id := start + n - 1;
    assert id !in Ids(before);
    GroupsAppendFresh(before, path, id);
    assert Ids(before) + [id] == Consecutive(start, n);
  }

  /** Grouping the concatenation of paths tagged `start, start + 1, ...`
      gives back those ids, in order, and those paths. */
  lemma {:induction false} FlattenRoundTrip(paths: seq<seq<Entry>>, start: int)
    requires forall k :: 0 <= k < |paths| ==> TaggedRun(paths[k], start + k)
    ensures Ids(Flatten(paths)) == Consecutive(start, |paths|)
    ensures GroupsOf(Flatten(paths), Ids(Flatten(paths))) == paths
    decreases |paths|
  {
    var n := |paths|;
    if n == 0 {
      assert Ids([]) == [];
    } else {
      var before, path := paths[..n - 1], paths[n - 1];
      FlattenRoundTrip(before, start);
      assert paths == before + [path];
      FlattenSnoc(before, path);
      RoundTripStep(Flatten(paths), paths, Flatten(before), path, before, start, n);
    }
  }

  /** Loading what one batch wrote gives back the batch's paths: the keys
      are its ids `start, start + 1, ...` in order and each group is that
      simulation's records. */
  lemma BatchRoundTrip(p: Params, start: int, n: nat, d: Draws)
    requires Accepts(p)
    ensures BatchRecords(p, start, n, d).Ok?
    ensures var records := BatchRecords(p, start, n, d).value;
      && Ids(records) == Consecutive(start, n)
      && GroupsOf(records, Ids(records)) == BatchPaths(p, start, n, d)
  {
    BatchIsConcatenation(p, start, n, d);
    var paths := BatchPaths(p, start, n, d);
    forall k | 0 <= k < n
      ensures TaggedRun(paths[k], start + k)
    {
      var path := PathRecords(p, start + k, InputsFor(d, p.steps, start + k));
      assert paths[k] == path.value;
    }
    FlattenRoundTrip(paths, start);
  }
}
