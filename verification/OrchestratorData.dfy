/** The fixed four-stage workflow: its stages, and which artifacts each stage gets to see. */
module OrchestratorData {
  import opened Options
  import opened AgentResults

  datatype Stage = Stage(profileId: string, output: ArtifactType)

  const STAGES := [Stage("explorer", ExplorationReport), Stage("planner", ImplementationPlan),
                   Stage("coder", ChangeSummary), Stage("reviewer", ReviewReport)]

  /** Which artifacts produced by earlier stages a stage receives. */
  predicate Receives(stage: nat, kind: ArtifactType) {
    match stage
    case 1 => kind == ExplorationReport
    case 2 => kind == ExplorationReport || kind == ImplementationPlan
    case 3 => kind == ImplementationPlan || kind == ChangeSummary || kind == TestResult
    case _ => false
  }

  function Taken(stage: nat, a: Artifact): seq<Artifact> {
    if Receives(stage, a.kind) then [a] else []
  }

  function Received(stage: nat, produced: seq<Artifact>): seq<Artifact> {
    if produced == [] then [] else Taken(stage, produced[0]) + Received(stage, produced[1..])
  }

  function Tests(artifacts: seq<Artifact>): seq<Artifact> {
    if artifacts == [] then []
    else (if artifacts[0].kind == TestResult then [artifacts[0]] else []) + Tests(artifacts[1..])
  }

  function Scope(stage: nat, initial: seq<Artifact>, produced: seq<Artifact>): seq<Artifact> {
    (if stage <= 1 then initial else []) + Received(stage, produced) + (if stage == 3 then Tests(initial) else [])
  }

  /** A stage's own typed artifact. */
  function Own(stage: nat, r: AgentResult): Artifact
    requires stage < 4
  {
    Artifact(STAGES[stage].output, STAGES[stage].profileId, r.summary)
  }

  /** The typed artifact, followed by the test results of the run. */
  function Output(stage: nat, r: AgentResult): seq<Artifact>
    requires stage < 4
  {
    [Own(stage, r)] + Tests(r.artifacts)
  }

  /** All artifacts of the completed stages, stage by stage. */
  function Produced(results: seq<AgentResult>): seq<Artifact>
    requires |results| <= 4
  {
    if results == [] then []
    else Produced(results[..|results| - 1]) + Output(|results| - 1, results[|results| - 1])
  }

  lemma {:induction false} ReceivedConcat(stage: nat, a: seq<Artifact>, b: seq<Artifact>)
    ensures Received(stage, a + b) == Received(stage, a) + Received(stage, b)
  {
    if a == [] {
      assert a + b == b;
    } else {
      assert (a + b)[1..] == a[1..] + b && (a + b)[0] == a[0];
      calc {
        Received(stage, a + b);
        Taken(stage, a[0]) + Received(stage, a[1..] + b);
        { ReceivedConcat(stage, a[1..], b); }
        Taken(stage, a[0]) + (Received(stage, a[1..]) + Received(stage, b));
        (Taken(stage, a[0]) + Received(stage, a[1..])) + Received(stage, b);
        Received(stage, a) + Received(stage, b);
      }
    }
  }

  lemma {:induction false} ReceivedTests(stage: nat, artifacts: seq<Artifact>)
    requires 1 <= stage <= 3
    ensures Received(stage, Tests(artifacts)) == if stage == 3 then Tests(artifacts) else []
  {
    if artifacts == [] {
    } else {
      ReceivedTests(stage, artifacts[1..]);
      if artifacts[0].kind == TestResult {
        assert Tests(artifacts) == [artifacts[0]] + Tests(artifacts[1..]);
        assert Tests(artifacts)[1..] == Tests(artifacts[1..]);
      } else {
        assert Tests(artifacts) == Tests(artifacts[1..]);
      }
    }
  }

  /** What a stage receives of the output of an earlier one. */
  function Part(stage: nat, from: nat, r: AgentResult): seq<Artifact>
    requires from < 4
  {
    (if Receives(stage, STAGES[from].output) then [Own(from, r)] else [])
    + (if stage == 3 then Tests(r.artifacts) else [])
  }

  lemma ReceivedOne(stage: nat, a: Artifact)
    ensures Received(stage, [a]) == Taken(stage, a)
  {
    assert [a][1..] == [];
  }

  lemma ProducedMore(r: seq<AgentResult>)
    requires 0 < |r| <= 4
    ensures Produced(r) == Produced(r[..|r| - 1]) + Output(|r| - 1, r[|r| - 1])
  {
  }

  lemma ReceivedStepwise(stage: nat, results: seq<AgentResult>)
    requires 0 < |results| <= stage <= 3
    ensures Received(stage, Produced(results)) ==
            Received(stage, Produced(results[..|results| - 1])) + Part(stage, |results| - 1, results[|results| - 1])
  {
    hide Received, Tests, Produced;
    var n := |results| - 1;
    var r := results[n];
    var own := [Own(n, r)];
    assert Output(n, r) == own + Tests(r.artifacts);
    ReceivedOne(stage, own[0]);
    ReceivedConcat(stage, own, Tests(r.artifacts));
    ReceivedTests(stage, r.artifacts);
    ProducedMore(results);
    ReceivedConcat(stage, Produced(results[..n]), Output(n, r));
  }

  /** The explorer sees the initial artifacts, and nothing else. */
  lemma ExplorerScope(initial: seq<Artifact>)
    ensures Scope(0, initial, Produced([])) == initial
  {
  }

  lemma NothingReceived(stage: nat)
    ensures Received(stage, []) == [] && Produced([]) == []
  {
  }

  /** The planner sees the initial artifacts and the one report. */
  lemma PlannerScope(initial: seq<Artifact>, r: seq<AgentResult>)
    requires |r| == 1
    ensures Scope(1, initial, Produced(r)) == initial + [Artifact(ExplorationReport, "explorer", r[0].summary)]
  {
    hide Received, Produced, Output;
    var report := Own(0, r[0]);
    NothingReceived(1);
    assert r[..0] == [];
    ReceivedStepwise(1, r);
    assert Received(1, Produced(r)) == [report];
    assert initial + [report] + [] == initial + [report];
  }

  /** The coder sees exactly the report and the plan. */
  lemma CoderScope(initial: seq<Artifact>, r: seq<AgentResult>)
    requires |r| == 2
    ensures Scope(2, initial, Produced(r)) == [Artifact(ExplorationReport, "explorer", r[0].summary),
                                               Artifact(ImplementationPlan, "planner", r[1].summary)]
  {
    hide Received, Produced, Output;
    NothingReceived(2);
    var first := r[..1];
    assert first[..0] == [] && first[0] == r[0];
    ReceivedStepwise(2, first);
    ReceivedStepwise(2, r);
    var report, plan := Own(0, r[0]), Own(1, r[1]);
    assert Received(2, Produced(r)) == [report, plan];
    assert [] + [report, plan] + [] == [report, plan];
  }

  /** The reviewer sees plan and changes with every test result in its place, then the initial tests. */
  lemma ReviewerScope(initial: seq<Artifact>, r: seq<AgentResult>)
    requires |r| == 3
    ensures Scope(3, initial, Produced(r)) ==
            Tests(r[0].artifacts)
            + ([Artifact(ImplementationPlan, "planner", r[1].summary)] + Tests(r[1].artifacts))
            + ([Artifact(ChangeSummary, "coder", r[2].summary)] + Tests(r[2].artifacts))
            + Tests(initial)
  {
    hide Received, Produced, Output, Tests;
    NothingReceived(3);
    var one, two := r[..1], r[..2];
    assert one[..0] == [] && one[0] == r[0] && two[..1] == one && two[1] == r[1];
    ReceivedStepwise(3, one);
    ReceivedStepwise(3, two);
    ReceivedStepwise(3, r);
    var seen := Tests(r[0].artifacts) + ([Own(1, r[1])] + Tests(r[1].artifacts))
                + ([Own(2, r[2])] + Tests(r[2].artifacts));
    assert Received(3, Produced(r)) == seen;
    assert [] + seen == seen;
  }

  /** What a completed stage produces. */
  lemma OutputExactly(stage: nat, r: AgentResult)
    requires stage < 4
    ensures stage == 0 ==> Output(stage, r) == [Artifact(ExplorationReport, "explorer", r.summary)] + Tests(r.artifacts)
    ensures stage == 1 ==> Output(stage, r) == [Artifact(ImplementationPlan, "planner", r.summary)] + Tests(r.artifacts)
    ensures stage == 2 ==> Output(stage, r) == [Artifact(ChangeSummary, "coder", r.summary)] + Tests(r.artifacts)
    ensures stage == 3 ==> Output(stage, r) == [Artifact(ReviewReport, "reviewer", r.summary)] + Tests(r.artifacts)
  {
    hide Tests;
  }

  lemma ProducedInFull(r: seq<AgentResult>)
    requires |r| == 4
    ensures Produced(r) == Output(0, r[0]) + Output(1, r[1]) + Output(2, r[2]) + Output(3, r[3])
  {
    hide Output;
    var one, two, three := r[..1], r[..2], r[..3];
    assert three[..2] == two && two[..1] == one && one[..0] == [];
    ProducedMore(r);
    ProducedMore(three);
    ProducedMore(two);
    ProducedMore(one);
    assert Produced([]) + Output(0, r[0]) == Output(0, r[0]);
  }

  lemma {:induction false} TestsConcat(a: seq<Artifact>, b: seq<Artifact>)
    ensures Tests(a + b) == Tests(a) + Tests(b)
  {
    if a == [] {
      assert a + b == b;
    } else {
      var first := if a[0].kind == TestResult then [a[0]] else [];
      assert (a + b)[1..] == a[1..] + b && (a + b)[0] == a[0];
      calc {
        Tests(a + b);
        first + Tests(a[1..] + b);
        { TestsConcat(a[1..], b); }
        first + (Tests(a[1..]) + Tests(b));
        (first + Tests(a[1..])) + Tests(b);
        Tests(a) + Tests(b);
      }
    }
  }

  lemma TestsSnoc(artifacts: seq<Artifact>, i: nat)
    requires i < |artifacts|
    ensures Tests(artifacts[..i + 1]) ==
            Tests(artifacts[..i]) + if artifacts[i].kind == TestResult then [artifacts[i]] else []
  {
    assert artifacts[..i + 1] == artifacts[..i] + [artifacts[i]];
    TestsConcat(artifacts[..i], [artifacts[i]]);
    assert [artifacts[i]][1..] == [];
  }

  /** Tests picks exactly the test results, in their order: `at` says where each of them stood. */
  lemma {:induction false} TestsExactly(artifacts: seq<Artifact>) returns (at: seq<nat>)
    ensures |at| == |Tests(artifacts)|
    ensures forall k :: 0 <= k < |at| ==> at[k] < |artifacts| && Tests(artifacts)[k] == artifacts[at[k]]
    ensures forall k :: 0 < k < |at| ==> at[k - 1] < at[k]
    ensures forall i :: 0 <= i < |artifacts| ==> (artifacts[i].kind == TestResult <==> i in at)
  {
    if artifacts == [] {
      at := [];
    } else {
      var n := |artifacts| - 1;
      at := TestsExactly(artifacts[..n]);
      TestsSnoc(artifacts, n);
      assert artifacts[..n + 1] == artifacts;
      if artifacts[n].kind == TestResult {
        at := at + [n];
      }
    }
  }

  /** The reviewer never gets the exploration report. */
  lemma {:induction false} NoReportForReviewer(produced: seq<Artifact>)
    ensures forall a :: a in Received(3, produced) ==> a.kind != ExplorationReport
  {
    if produced == [] {
    } else {
      NoReportForReviewer(produced[1..]);
    }
  }

  ghost function StageOf(profileId: string): nat {
    if profileId == "explorer" then 0 else if profileId == "planner" then 1
    else if profileId == "coder" then 2 else if profileId == "reviewer" then 3 else 4
  }

  lemma ReceivedSnoc(stage: nat, produced: seq<Artifact>, i: nat)
    requires i < |produced|
    ensures Received(stage, produced[..i + 1]) ==
            Received(stage, produced[..i]) + if Receives(stage, produced[i].kind) then [produced[i]] else []
  {
    assert produced[..i + 1] == produced[..i] + [produced[i]];
    ReceivedConcat(stage, produced[..i], [produced[i]]);
    ReceivedOne(stage, produced[i]);
  }

  /** The selection as it is carried out, by profile name. */
  method ArtifactsForStage(profileId: string, initial: seq<Artifact>, produced: seq<Artifact>)
    returns (scoped: seq<Artifact>)
    ensures forall stage: nat :: stage < 4 && STAGES[stage].profileId == profileId ==>
              scoped == Scope(stage, initial, produced)
  {
    scoped := [];
    if profileId == "explorer" || profileId == "planner" {
      scoped := initial;
    }

    ghost var stage := StageOf(profileId);
    ghost var head := scoped;
    for i := 0 to |produced|
      invariant scoped == head + Received(stage, produced[..i])
    {
      var kind := produced[i].kind;
      var wanted := (profileId == "planner" && kind == ExplorationReport)
        || (profileId == "coder" && (kind == ExplorationReport || kind == ImplementationPlan))
        || (profileId == "reviewer" && (kind == ImplementationPlan || kind == ChangeSummary || kind == TestResult));
      ReceivedSnoc(stage, produced, i);
      if wanted {
        scoped := scoped + [produced[i]];
      }
    }
    assert produced[..|produced|] == produced;
    if profileId == "reviewer" {
      ghost var middle := scoped;
      for i := 0 to |initial|
        invariant scoped == middle + Tests(initial[..i])
      {
        TestsSnoc(initial, i);
        if initial[i].kind == TestResult {
          scoped := scoped + [initial[i]];
        }
      }
      assert initial[..|initial|] == initial;
    }
  }
}
