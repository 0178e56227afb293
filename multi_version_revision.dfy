/**
 * The multi-version revision test (`tests/integration/pilot/multi_version_revision_test.go`):
 * revision names derived from control-plane versions, and the schedule of
 * subtests that sends every kind of traffic between every pair of distinct
 * echo instances.
 */
module MultiVersionRevision {
  import opened Echo

  /** The control-plane versions installed, newest first. */
  const Versions: seq<string> := ["1.10.0", "1.9.5", "1.8.6", "1.7.6", "1.6.11"]

  /** The traffic types each pair of instances is tested with, in order. */
  const TrafficTypes: seq<string> := ["http", "tcp", "grpc"]

  /** The revision name of a version: every "." replaced by "-" (`strings.ReplaceAll`). */
  function RevisionName(v: string): (r: string)
    ensures |r| == |v|
    ensures '.' !in r
    ensures forall i :: 0 <= i < |v| ==> r[i] == (if v[i] == '.' then '-' else v[i])
  {
    if v == [] then []
    else RevisionName(v[..|v| - 1]) + [if v[|v| - 1] == '.' then '-' else v[|v| - 1]]
  }

  /** "revision-<rev>": the prefix of the revision's namespace and the name of its echo service. */
  function RevisionLabel(rev: string): string
  {
    "revision-" + rev
  }

  /** A namespace pointed at a revisioned control plane, as requested from the framework. */
  datatype RevisionedNamespace = RevisionedNamespace(revision: string, prefix: string, inject: bool)

  /** The echo service deployed in a revisioned namespace. */
  function ServiceName(rn: RevisionedNamespace): string
  {
    RevisionLabel(rn.revision)
  }

  /** One revisioned namespace per version, in the order of the versions. */
  method RevisionedNamespaces(versions: seq<string>) returns (rns: seq<RevisionedNamespace>)
    ensures |rns| == |versions|
    ensures forall i :: 0 <= i < |rns| ==>
              && rns[i].revision == RevisionName(versions[i])
              && '.' !in rns[i].revision
              && rns[i].prefix == ServiceName(rns[i]) == "revision-" + rns[i].revision
              && rns[i].inject
  {
    rns := [];
    for i := 0 to |versions|
      invariant |rns| == i
      invariant forall j :: 0 <= j < i ==>
                  rns[j] == RevisionedNamespace(RevisionName(versions[j]), RevisionLabel(RevisionName(versions[j])), true)
    {
      var rev := RevisionName(versions[i]);
      rns := rns + [RevisionedNamespace(rev, RevisionLabel(rev), true)];
    }
  }

  /** The installed versions give pairwise distinct revisions, so no two revisioned namespaces or services share a name. */
  lemma VersionRevisionsDistinct()
    ensures forall i, j :: 0 <= i < j < |Versions| ==> RevisionLabel(RevisionName(Versions[i])) != RevisionLabel(RevisionName(Versions[j]))
  {
    forall i, j | 0 <= i < j < |Versions|
      ensures RevisionLabel(RevisionName(Versions[i])) != RevisionLabel(RevisionName(Versions[j]))
    {
      var a, b := RevisionName(Versions[i]), RevisionName(Versions[j]);
      assert RevisionLabel(a)[9..] == a && RevisionLabel(b)[9..] == b;
      var k := if |Versions[i]| != |Versions[j]| then 0 else if Versions[i][2] != Versions[j][2] then 2 else 3;
      assert |a| != |b| || a[k] != b[k];
    }
  }

  /** One subtest: a call of `trafficType` from `source` to `dest`. */
  datatype SubTest = SubTest(name: string, trafficType: string, source: Instance, dest: Instance)

  /** "<type>-<sourceService>-><destService>". */
  function SubTestName(trafficType: string, source: Instance, dest: Instance): string
  {
    trafficType + "-" + source.service + "->" + dest.service
  }

  function MakeSubTest(trafficType: string, source: Instance, dest: Instance): SubTest
  {
    SubTest(SubTestName(trafficType, source, dest), trafficType, source, dest)
  }

  /** The subtests of one ordered pair, one per traffic type in `types`, in order. */
  function PairTests(source: Instance, dest: Instance, types: seq<string>): (r: seq<SubTest>)
  {
    if types == [] then []
    else PairTests(source, dest, types[..|types| - 1]) + [MakeSubTest(types[|types| - 1], source, dest)]
  }

  /** The concatenation of `f(x)` for each `x` of `xs`, in order. */
  function FlatMap<A, B>(xs: seq<A>, f: A -> seq<B>): seq<B>
  {
    if xs == [] then [] else FlatMap(xs[..|xs| - 1], f) + f(xs[|xs| - 1])
  }

  /** The subtests from `source` to one destination: none to itself, else one per traffic type. */
  function PairsFrom(source: Instance): Instance -> seq<SubTest>
  {
    dest => if source == dest then [] else PairTests(source, dest, TrafficTypes)
  }

  /** The subtests from `source` to each of `dests` other than itself, destination by destination. */
  function Row(source: Instance, dests: seq<Instance>): seq<SubTest>
  {
    FlatMap(dests, PairsFrom(source))
  }

  function RowTo(dests: seq<Instance>): Instance -> seq<SubTest>
  {
    source => Row(source, dests)
  }

  /** The subtests from each of `sources`, source by source, to each of `dests`. */
  function Schedule(sources: seq<Instance>, dests: seq<Instance>): seq<SubTest>
  {
    FlatMap(sources, RowTo(dests))
  }

  /** The subtests `testAllEchoCalls` starts, in the order it starts them. */
  method TestAllEchoCalls(echoInstances: seq<Instance>) returns (tests: seq<SubTest>)
    ensures tests == Schedule(echoInstances, echoInstances)
  {
    tests := [];
    for s := 0 to |echoInstances|
      invariant tests == Schedule(echoInstances[..s], echoInstances)
    {
      var source := echoInstances[s];
      assert echoInstances[..s + 1][..s] == echoInstances[..s];
      for d := 0 to |echoInstances|
        invariant tests == Schedule(echoInstances[..s], echoInstances) + Row(source, echoInstances[..d])
      {
        var dest := echoInstances[d];
        assert echoInstances[..d + 1][..d] == echoInstances[..d];
        if source == dest {
          continue;
        }
        for t := 0 to |TrafficTypes|
          invariant tests == Schedule(echoInstances[..s], echoInstances) + Row(source, echoInstances[..d])
                             + PairTests(source, dest, TrafficTypes[..t])
        {
          assert TrafficTypes[..t + 1][..t] == TrafficTypes[..t];
          tests := tests + [MakeSubTest(TrafficTypes[t], source, dest)];
        }
        assert TrafficTypes[..|TrafficTypes|] == TrafficTypes;
      }
      assert echoInstances[..|echoInstances|] == echoInstances;
    }
    assert echoInstances[..|echoInstances|] == echoInstances;
  }

  /** A pair's subtests are http, tcp and grpc, in that order. */
  lemma PairTestsInOrder(source: Instance, dest: Instance)
    ensures PairTests(source, dest, TrafficTypes)
         == [MakeSubTest("http", source, dest), MakeSubTest("tcp", source, dest), MakeSubTest("grpc", source, dest)]
  {
    var t1, t2 := TrafficTypes[..1], TrafficTypes[..2];
    assert t1[..0] == [] && t1[0] == "http";
    assert PairTests(source, dest, t1) == [MakeSubTest("http", source, dest)];
    assert t2[..1] == t1 && t2[1] == "tcp";
    assert PairTests(source, dest, t2) == [MakeSubTest("http", source, dest), MakeSubTest("tcp", source, dest)];
    assert TrafficTypes[..2] == t2 && TrafficTypes[2] == "grpc";
  }

  lemma {:induction false} PairTestsMembers(source: Instance, dest: Instance, types: seq<string>, c: SubTest)
    ensures |PairTests(source, dest, types)| == |types|
    ensures c in PairTests(source, dest, types) <==> c.trafficType in types && c == MakeSubTest(c.trafficType, source, dest)
  {
    if types != [] {
      PairTestsMembers(source, dest, types[..|types| - 1], c);
      assert types == types[..|types| - 1] + [types[|types| - 1]];
    }
  }

  lemma {:induction false} FlatMapAppend<A, B>(xs: seq<A>, ys: seq<A>, f: A -> seq<B>)
    ensures FlatMap(xs + ys, f) == FlatMap(xs, f) + FlatMap(ys, f)
  {
    if ys == [] {
      assert xs + ys == xs;
    } else {
      var zs := xs + ys;
      assert zs[..|zs| - 1] == xs + ys[..|ys| - 1] && zs[|zs| - 1] == ys[|ys| - 1];
      FlatMapAppend(xs, ys[..|ys| - 1], f);
    }
  }

  lemma {:induction false} FlatMapMembers<A, B>(xs: seq<A>, f: A -> seq<B>, b: B)
    ensures b in FlatMap(xs, f) <==> exists i :: 0 <= i < |xs| && b in f(xs[i])
  {
    if xs != [] {
      var init := xs[..|xs| - 1];
      FlatMapMembers(init, f, b);
      if exists i :: 0 <= i < |init| && b in f(init[i]) {
        var i :| 0 <= i < |init| && b in f(init[i]);
        assert xs[i] == init[i];
      }
      if exists i :: 0 <= i < |xs| && b in f(xs[i]) {
        var i :| 0 <= i < |xs| && b in f(xs[i]);
        if i < |init| {
          assert init[i] == xs[i];
        }
      }
    }
  }

  lemma {:induction false} RowMembers(source: Instance, dests: seq<Instance>, c: SubTest)
    ensures c in Row(source, dests) <==>
              c.source == source && c.dest in dests && c.dest != source
              && c.trafficType in TrafficTypes && c == MakeSubTest(c.trafficType, c.source, c.dest)
  {
    FlatMapMembers(dests, PairsFrom(source), c);
    forall d | d in dests
      ensures c in PairsFrom(source)(d) <==>
                source != d && c.trafficType in TrafficTypes && c == MakeSubTest(c.trafficType, source, d)
    {
      PairTestsMembers(source, d, TrafficTypes, c);
    }
  }

  lemma {:induction false} ScheduleMembers(sources: seq<Instance>, dests: seq<Instance>, c: SubTest)
    ensures c in Schedule(sources, dests) <==>
              c.source in sources && c.dest in dests && c.source != c.dest
              && c.trafficType in TrafficTypes && c == MakeSubTest(c.trafficType, c.source, c.dest)
  {
    FlatMapMembers(sources, RowTo(dests), c);
    forall s | s in sources
      ensures c in RowTo(dests)(s) <==>
                c.source == s && c.dest in dests && c.dest != s
                && c.trafficType in TrafficTypes && c == MakeSubTest(c.trafficType, c.source, c.dest)
    {
      RowMembers(s, dests, c);
    }
  }

  /**
   * The schedule holds exactly one kind of subtest: a call of one of the
   * traffic types between two distinct instances, named after its type,
   * source and destination. In particular no instance calls itself.
   */
  lemma AllPairsScheduled(xs: seq<Instance>, c: SubTest)
    ensures c in Schedule(xs, xs) <==>
              c.source in xs && c.dest in xs && c.source != c.dest && c.trafficType in TrafficTypes
              && c.name == SubTestName(c.trafficType, c.source, c.dest)
  {
    ScheduleMembers(xs, xs, c);
  }

  /** The schedule runs source by source: the subtests of earlier sources come first. */
  lemma ScheduleSourceMajor(xs: seq<Instance>, ys: seq<Instance>, dests: seq<Instance>)
    ensures Schedule(xs + ys, dests) == Schedule(xs, dests) + Schedule(ys, dests)
  {
    FlatMapAppend(xs, ys, RowTo(dests));
  }

  /** Within one source the schedule runs destination by destination. */
  lemma RowDestinationMajor(source: Instance, xs: seq<Instance>, ys: seq<Instance>)
    ensures Row(source, xs + ys) == Row(source, xs) + Row(source, ys)
  {
    FlatMapAppend(xs, ys, PairsFrom(source));
  }

  /** Instances without repetition. */
  predicate Distinct(xs: seq<Instance>)
  {
    forall i, j :: 0 <= i < j < |xs| ==> xs[i] != xs[j]
  }

  lemma {:induction false} RowLength(source: Instance, dests: seq<Instance>)
    ensures |Row(source, dests)| == 3 * (|dests| - multiset(dests)[source])
  {
    if dests != [] {
      var init, d := dests[..|dests| - 1], dests[|dests| - 1];
      RowLength(source, init);
      assert dests == init + [d];
      assert multiset(dests) == multiset(init) + multiset{d};
      PairTestsMembers(source, d, TrafficTypes, MakeSubTest("http", source, d));
      assert Row(source, dests) == Row(source, init) + PairsFrom(source)(d);
    }
  }

  lemma {:induction false} DistinctOnce(xs: seq<Instance>, x: Instance)
    requires Distinct(xs) && x in xs
    ensures multiset(xs)[x] == 1
  {
    var init, last := xs[..|xs| - 1], xs[|xs| - 1];
    assert xs == init + [last];
    assert multiset(xs) == multiset(init) + multiset{last};
    if last == x {
      assert forall j :: 0 <= j < |init| ==> init[j] == xs[j] != xs[|xs| - 1];
      assert x !in multiset(init);
    } else {
      DistinctOnce(init, x);
    }
  }

  lemma {:induction false} FlatMapUniformLength<A, B>(xs: seq<A>, f: A -> seq<B>, c: int)
    requires forall x :: x in xs ==> |f(x)| == c
    ensures |FlatMap(xs, f)| == |xs| * c
  {
    if xs != [] {
      var init := xs[..|xs| - 1];
      assert forall x :: x in init ==> x in xs;
      FlatMapUniformLength(init, f, c);
      assert |init| * c + c == |xs| * c;
    }
  }

  lemma ScheduleLength(sources: seq<Instance>, dests: seq<Instance>)
    requires Distinct(dests)
    requires forall s :: s in sources ==> s in dests
    ensures |Schedule(sources, dests)| == |sources| * ((|dests| - 1) * 3)
  {
    forall s | s in sources
      ensures |RowTo(dests)(s)| == (|dests| - 1) * 3
    {
      RowLength(s, dests);
      DistinctOnce(dests, s);
    }
    FlatMapUniformLength(sources, RowTo(dests), (|dests| - 1) * 3);
  }

  /** n distinct instances give n * (n - 1) * 3 subtests. */
  lemma SubTestCount(xs: seq<Instance>)
    requires Distinct(xs)
    ensures |Schedule(xs, xs)| == |xs| * (|xs| - 1) * 3
  {
    ScheduleLength(xs, xs);
    assert |xs| * ((|xs| - 1) * 3) == |xs| * (|xs| - 1) * 3;
  }
}
