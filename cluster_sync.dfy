/** The Raft synchronisation check of apps/upgrade-journey-raft/check_cluster_sync.py: ask for the
    node count, then poll the cluster statistics endpoint once per tick, remember the last
    applied index reported by each node, and stop on the first tick at which as many nodes as
    the cluster has have reported and all report the same index; give up after 2400 ticks.
    The HTTP endpoints are inputs (the discovery answer and one statistics answer per tick);
    the half-second sleep and the logging are not modelled. */
module ClusterSync {
  import opened Wrappers
  import opened Seqs

  /** The number of ticks after which the check gives up (`cutoff`). */
  const Cutoff: nat := 2400

  /** One answer of `GET /v1/cluster/statistics`: the answering node's id and its Raft
      applied index. */
  datatype Observation = Observation(id: string, appliedIndex: int)

  /** How `check_cluster_sync` ends: it returns after a failed discovery (NoNodeCount) or on
      convergence (Synced), or raises: a statistics answer that was not 200 cannot be
      unpacked (ReadFailed), or the ticks ran out (TimedOut). Ticks are counted from 1. */
  datatype SyncOutcome = NoNodeCount | Synced(tick: nat) | ReadFailed(tick: nat) | TimedOut

  /** `_get_nodes_count` (check_cluster_sync.py:7-14): the length of the `nodes` list of a 200
      answer, `-1` when the answer was not 200 (`None` here). */
  function NodesCount(discovery: Option<seq<string>>): (n: int)
    ensures n >= -1
    ensures n == -1 <==> discovery.None?
    ensures discovery.Some? ==> n == |discovery.value|
  {
    match discovery
    case None => -1
    case Some(nodes) => |nodes|
  }

  /** What `is_in_sync` computes: the map holds exactly one distinct value. */
  ghost predicate InSync(nodes: map<string, int>)
  {
    |nodes.Values| == 1
  }

  /** The reading of "in sync" as a property of the nodes: some node is known and all known
      nodes report the same index. */
  ghost predicate AllEqual(nodes: map<string, int>)
  {
    |nodes| > 0 && forall a, b :: a in nodes && b in nodes ==> nodes[a] == nodes[b]
  }

  lemma {:induction false} InSyncIffAllEqual(nodes: map<string, int>)
    ensures InSync(nodes) <==> AllEqual(nodes)
  {
    if AllEqual(nodes) {
      var k :| k in nodes;
      assert nodes.Values == {nodes[k]};
    } else if |nodes| == 0 {
      assert nodes.Keys == {};
      assert nodes.Values == {};
    } else {
      var a, b :| a in nodes && b in nodes && nodes[a] != nodes[b];
      assert nodes[a] in nodes.Values && nodes[b] in nodes.Values;
      SubsetCardinality({nodes[a], nodes[b]}, nodes.Values);
    }
  }

  /** An empty map is never in sync. */
  lemma EmptyIsNotInSync()
    ensures !InSync(map[])
  {
    var empty: map<string, int> := map[];
    assert empty.Values == {};
  }

  /** `is_in_sync` (check_cluster_sync.py:24-28): collects the distinct values in a loop and
      compares their number with 1. */
  method IsInSync(nodes: map<string, int>) returns (b: bool)
    ensures b <==> InSync(nodes)
    ensures b <==> AllEqual(nodes)
  {
    var uniqueVals: set<int> := {};
    var remaining := nodes.Keys;
    while remaining != {}
      invariant remaining <= nodes.Keys
      invariant uniqueVals == set k | k in nodes.Keys - remaining :: nodes[k]
      decreases remaining
    {
      var k :| k in remaining;
      uniqueVals := uniqueVals + {nodes[k]};
      remaining := remaining - {k};
    }
    assert uniqueVals == nodes.Values;
    b := |uniqueVals| == 1;
    InSyncIffAllEqual(nodes);
  }

  /** The `nodes` map after the first `t` ticks: tick `i + 1` reads `stats(i)` and sets that
      node's entry, leaving the others as they were (last write wins). */
  function Observed(stats: nat -> Option<Observation>, t: nat): map<string, int>
    decreases t
  {
    if t == 0 then map[]
    else
      match stats(t - 1)
      case Some(o) => Observed(stats, t - 1)[o.id := o.appliedIndex]
      case None => Observed(stats, t - 1)
  }

  /** The first `t` statistics reads were answered with 200. */
  ghost predicate ReadsSucceed(stats: nat -> Option<Observation>, t: nat)
  {
    forall i :: 0 <= i < t ==> stats(i).Some?
  }

  /** The exit test of tick `t` (check_cluster_sync.py:45). */
  ghost predicate ConvergedAt(replicas: int, stats: nat -> Option<Observation>, t: nat)
  {
    |Observed(stats, t)| == replicas && InSync(Observed(stats, t))
  }

  /** No tick from 1 to `t` passed the exit test. */
  ghost predicate NotConvergedUpTo(replicas: int, stats: nat -> Option<Observation>, t: nat)
  {
    forall u :: 1 <= u <= t ==> !ConvergedAt(replicas, stats, u)
  }

  /** The check returns on tick `t`: the reads so far succeeded, tick `t` is the first to pass
      the exit test. */
  ghost predicate SyncsAt(replicas: int, stats: nat -> Option<Observation>, t: nat)
  {
    1 <= t <= Cutoff && ReadsSucceed(stats, t)
    && NotConvergedUpTo(replicas, stats, t - 1) && ConvergedAt(replicas, stats, t)
  }

  /** The check raises on tick `t` because that tick's statistics read failed. */
  ghost predicate ReadFailsAt(replicas: int, stats: nat -> Option<Observation>, t: nat)
  {
    1 <= t <= Cutoff && ReadsSucceed(stats, t - 1) && stats(t - 1).None?
    && NotConvergedUpTo(replicas, stats, t - 1)
  }

  /** The check raises after the last tick: every read succeeded and no tick passed the test. */
  ghost predicate TimesOut(replicas: int, stats: nat -> Option<Observation>)
  {
    ReadsSucceed(stats, Cutoff) && NotConvergedUpTo(replicas, stats, Cutoff)
  }

  /** `check_cluster_sync` (check_cluster_sync.py:31-52). Besides the outcome it returns the
      final `nodes` map, the number of statistics reads and the number of sleeps: one read
      per tick, and a sleep after every tick that did not converge. */
  method CheckClusterSync(discovery: Option<seq<string>>, stats: nat -> Option<Observation>)
    returns (outcome: SyncOutcome, nodes: map<string, int>, statReads: nat, sleeps: nat)
    ensures outcome == NoNodeCount <==> discovery.None?
    ensures outcome == NoNodeCount ==> statReads == 0 && sleeps == 0 && nodes == map[]
    ensures outcome.Synced? ==>
      && SyncsAt(NodesCount(discovery), stats, outcome.tick)
      && nodes == Observed(stats, outcome.tick)
      && statReads == outcome.tick && sleeps == outcome.tick - 1
    ensures outcome.ReadFailed? ==>
      && ReadFailsAt(NodesCount(discovery), stats, outcome.tick)
      && nodes == Observed(stats, outcome.tick - 1)
      && statReads == outcome.tick && sleeps == outcome.tick - 1
    ensures outcome == TimedOut ==>
      && discovery.Some?
      && TimesOut(NodesCount(discovery), stats)
      && nodes == Observed(stats, Cutoff)
      && statReads == Cutoff && sleeps == Cutoff
  {
    var replicas := NodesCount(discovery);
    nodes, statReads, sleeps := map[], 0, 0;
    if replicas == -1 {
      return NoNodeCount, nodes, statReads, sleeps;
    }
    var sec := 0;
    while sec < Cutoff
      invariant 0 <= sec <= Cutoff
      invariant ReadsSucceed(stats, sec)
      invariant NotConvergedUpTo(replicas, stats, sec)
      invariant nodes == Observed(stats, sec)
      invariant statReads == sec && sleeps == sec
    {
      sec := sec + 1;
      var answer := stats(sec - 1);
      statReads := statReads + 1;
      if answer.None? {
        assert ReadFailsAt(replicas, stats, sec);
        return ReadFailed(sec), nodes, statReads, sleeps;
      }
      nodes := nodes[answer.value.id := answer.value.appliedIndex];
      assert nodes == Observed(stats, sec);
      assert ReadsSucceed(stats, sec);
      var inSync := IsInSync(nodes);
      if |nodes| == replicas && inSync {
        assert SyncsAt(replicas, stats, sec);
        return Synced(sec), nodes, statReads, sleeps;
      }
      NotConvergedExtends(replicas, stats, sec);
      sleeps := sleeps + 1;
    }
    outcome := TimedOut;
  }

  /** A tick that fails the exit test extends the run of ticks that failed it. */
  lemma NotConvergedExtends(replicas: int, stats: nat -> Option<Observation>, t: nat)
    requires t >= 1 && NotConvergedUpTo(replicas, stats, t - 1) && !ConvergedAt(replicas, stats, t)
    ensures NotConvergedUpTo(replicas, stats, t)
  {
  }

  /** A node is in the map after tick `t` exactly when one of the first `t` answers came from it. */
  lemma {:induction false} ObservedKeys(stats: nat -> Option<Observation>, t: nat, k: string)
    ensures k in Observed(stats, t) <==> exists i :: 0 <= i < t && stats(i).Some? && stats(i).value.id == k
    decreases t
  {
    if t > 0 {
      ObservedKeys(stats, t - 1, k);
    }
  }

  /** Each node's entry is the index of that node's latest answer. */
  lemma {:induction false} LastWriteWins(stats: nat -> Option<Observation>, t: nat, i: nat)
    requires i < t && stats(i).Some?
    requires forall j :: i < j < t && stats(j).Some? ==> stats(j).value.id != stats(i).value.id
    ensures stats(i).value.id in Observed(stats, t)
    ensures Observed(stats, t)[stats(i).value.id] == stats(i).value.appliedIndex
    decreases t
  {
    if t - 1 > i {
      LastWriteWins(stats, t - 1, i);
    }
  }

  /** One tick adds the answering node's entry, or overwrites it. */
  lemma ObservedStep(stats: nat -> Option<Observation>, t: nat)
    ensures Observed(stats, t).Keys <= Observed(stats, t + 1).Keys
    ensures |Observed(stats, t + 1)| <= |Observed(stats, t)| + 1
  {
    var m := Observed(stats, t);
    match stats(t)
    case None =>
    case Some(o) =>
      var m' := m[o.id := o.appliedIndex];
      assert Observed(stats, t + 1) == m';
      if o.id in m {
        assert m'.Keys == m.Keys;
      } else {
        assert m'.Keys == m.Keys + {o.id};
      }
  }

  /** Entries are never removed, and each tick adds at most one. */
  lemma {:induction false} ObservedGrows(stats: nat -> Option<Observation>, t: nat, u: nat)
    requires t <= u
    ensures Observed(stats, t).Keys <= Observed(stats, u).Keys
    ensures |Observed(stats, u)| <= |Observed(stats, t)| + (u - t)
    decreases u - t
  {
    if t < u {
      ObservedGrows(stats, t, u - 1);
      ObservedStep(stats, u - 1);
    }
  }

  /** Once more nodes have answered than discovery reported, no later tick can converge, so the
      check cannot return on such a tick: a run still going then times out or fails a read. */
  lemma TooManyNodesNeverConverge(replicas: int, stats: nat -> Option<Observation>, t: nat, u: nat)
    requires t <= u && |Observed(stats, t)| > replicas
    ensures !ConvergedAt(replicas, stats, u)
    ensures !SyncsAt(replicas, stats, u)
  {
    ObservedGrows(stats, t, u);
    SubsetCardinality(Observed(stats, t).Keys, Observed(stats, u).Keys);
  }

  /** A lone reporting node is in sync, so it ends the check exactly when the cluster has one
      node. */
  lemma LoneNodeConvergesOnlyForOneReplica(replicas: int, stats: nat -> Option<Observation>, t: nat)
    requires |Observed(stats, t)| == 1
    ensures ConvergedAt(replicas, stats, t) <==> replicas == 1
  {
    var m := Observed(stats, t);
    assert m.Keys != {};
    var k :| k in m;
    assert |m.Keys - {k}| == 0;
    assert m.Keys == {k};
    assert m.Values == {m[k]};
  }

  /** After a successful first read one node is known, so the first tick converges exactly
      for a one-node cluster; a cluster whose node list is empty never converges. */
  lemma FirstTickAndEmptyCluster(stats: nat -> Option<Observation>, replicas: int, t: nat)
    requires ReadsSucceed(stats, 1) && 1 <= t
    ensures ConvergedAt(replicas, stats, 1) <==> replicas == 1
    ensures !ConvergedAt(0, stats, t)
  {
    assert stats(0).Some?;
    assert Observed(stats, 1) == map[][stats(0).value.id := stats(0).value.appliedIndex];
    LoneNodeConvergesOnlyForOneReplica(replicas, stats, 1);
    ObservedGrows(stats, 1, t);
    assert stats(0).value.id in Observed(stats, t);
    assert |Observed(stats, t)| > 0;
  }

  /** Three nodes report index 5 on the first three ticks: the check converges on tick 3, and
      not before. */
  lemma ThreeNodesConvergeOnThirdTick()
    ensures var stats := (i: nat) => Some(Observation(if i == 0 then "A" else if i == 1 then "B" else "C", 5));
      && !ConvergedAt(3, stats, 1) && !ConvergedAt(3, stats, 2) && ConvergedAt(3, stats, 3)
  {
    var stats := (i: nat) => Some(Observation(if i == 0 then "A" else if i == 1 then "B" else "C", 5));
    var m1 := Observed(stats, 1);
    var m2 := Observed(stats, 2);
    var m3 := Observed(stats, 3);
    assert m1 == map["A" := 5];
    assert m2 == map["A" := 5, "B" := 5];
    assert m3 == map["A" := 5, "B" := 5, "C" := 5];
    assert m1.Keys == {"A"} && m2.Keys == {"A", "B"} && m3.Keys == {"A", "B", "C"};
    assert m3.Values == {5};
  }

  /** Index 5 from A and B, then 6 from A and from C: three nodes are known on tick 4 but
      disagree, so the check does not converge there. */
  lemma MismatchedIndicesDoNotConverge()
    ensures var stats := (i: nat) => Some(if i == 0 then Observation("A", 5) else if i == 1 then Observation("B", 5)
                                          else if i == 2 then Observation("A", 6) else Observation("C", 6));
      !ConvergedAt(3, stats, 4)
  {
    var stats := (i: nat) => Some(if i == 0 then Observation("A", 5) else if i == 1 then Observation("B", 5)
                                  else if i == 2 then Observation("A", 6) else Observation("C", 6));
    var m := Observed(stats, 4);
    assert m == map["A" := 6, "B" := 5, "C" := 6];
    assert m["B"] in m.Values && m["A"] in m.Values;
    assert 6 in m.Values - {5};
    assert |m.Values - {5}| >= 1;
    assert |m.Values| == |m.Values - {5}| + 1;
  }
}
