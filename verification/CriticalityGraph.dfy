/** The performance-criticality graph: the foreground process family and who is protected. */
module CriticalityGraphs {

  datatype WorkloadPhase =
    | UnknownPhase
    | AppLaunching
    | ActiveInteraction
    | PassivePlayback
    | Compilation
    | Gaming
    | VideoMeeting
    | LargeFileTransfer
    | UserIdle
    | BatterySaver
    | PostBootStabilization

  /** `audioVideoName` and `compilerName` stand for the two classifications by process name. */
  datatype ProcessSnapshot = ProcessSnapshot(
    pid: nat,
    parentPid: nat,
    matchesUserIntent: bool,
    isRecentlyActive: bool,
    hasVisibleWindow: bool,
    isSystemCritical: bool,
    safetyProtected: bool,
    audioVideoName: bool,
    compilerName: bool,
    ioReadKBps: real,
    ioWriteKBps: real)

  datatype Reason =
    | ActiveForeground
    | ForegroundFamily
    | MatchesIntent
    | RecentlyActive
    | VisibleWindow
    | DeterministicProtected
    | AudioVideoDeadline
    | ActiveCompilation
    | WorkloadIo
    | NoDependency

  datatype CriticalityNode = CriticalityNode(
    pid: nat,
    criticality: real,
    onForegroundPath: bool,
    protectedFromIntervention: bool,
    reasons: seq<Reason>)

  datatype CriticalityEdge = CriticalityEdge(parent: nat, child: nat, weight: real)

  // ----- reachability over parent links -----

  predicate Link(processes: seq<ProcessSnapshot>, parent: nat, child: nat) {
    exists k | 0 <= k < |processes| :: processes[k].parentPid == parent && processes[k].pid == child
  }

  ghost predicate Path(processes: seq<ProcessSnapshot>, pids: seq<nat>) {
    |pids| > 0 && forall i | 0 <= i < |pids| - 1 :: Link(processes, pids[i], pids[i + 1])
  }

  /** `pid` is the foreground process or one of its descendants. */
  ghost predicate InFamily(processes: seq<ProcessSnapshot>, foreground: nat, pid: nat) {
    foreground != 0 && exists pids :: Path(processes, pids) && pids[0] == foreground && pids[|pids| - 1] == pid
  }

  lemma {:induction false} FamilyStep(processes: seq<ProcessSnapshot>, foreground: nat, k: nat)
    requires k < |processes| && InFamily(processes, foreground, processes[k].parentPid)
    ensures InFamily(processes, foreground, processes[k].pid)
  {
    var pids :| Path(processes, pids) && pids[0] == foreground && pids[|pids| - 1] == processes[k].parentPid;
    var longer := pids + [processes[k].pid];
    assert Link(processes, pids[|pids| - 1], processes[k].pid);
    assert Path(processes, longer);
  }

  ghost predicate ClosedFamily(processes: seq<ProcessSnapshot>, family: set<nat>) {
    forall k | 0 <= k < |processes| :: processes[k].parentPid in family ==> processes[k].pid in family
  }

  /** A closed set that holds the start of a path holds all of it. */
  lemma {:induction false} ClosedHoldsPath(processes: seq<ProcessSnapshot>, family: set<nat>, pids: seq<nat>, i: nat)
    requires ClosedFamily(processes, family) && Path(processes, pids) && pids[0] in family && i < |pids|
    ensures pids[i] in family
  {
    if i > 0 {
      ClosedHoldsPath(processes, family, pids, i - 1);
      assert Link(processes, pids[i - 1], pids[i - 1 + 1]);
    }
  }

  /**
   * The fixpoint loop: it ends, and its result is exactly the family, whatever the order of the
   * processes and even if parent links form cycles.
   */
  method ForegroundClosure(processes: seq<ProcessSnapshot>, foreground: nat) returns (family: set<nat>)
    ensures forall pid: nat :: pid in family <==> InFamily(processes, foreground, pid)
    ensures if foreground == 0 then family == {} else foreground in family
    ensures forall k | 0 <= k < |processes| && processes[k].parentPid in family :: processes[k].pid in family
    ensures forall other: set<nat> | ClosedFamily(processes, other) && (foreground != 0 ==> foreground in other) ::
        family <= other
  {
    family := {};
    if foreground != 0 {
      family := {foreground};
      assert Path(processes, [foreground]);
    }
    ghost var universe := {foreground} + set k | 0 <= k < |processes| :: processes[k].pid;
    var changed := true;
    while changed
      invariant foreground != 0 ==> foreground in family
      invariant family <= universe
      invariant forall pid | pid in family :: InFamily(processes, foreground, pid)
      invariant !changed ==> ClosedFamily(processes, family)
      decreases universe - family, changed
    {
      changed := false;
      ghost var before := family;
      for k := 0 to |processes|
        invariant before <= family <= universe
        invariant forall pid | pid in family :: InFamily(processes, foreground, pid)
        invariant changed <==> before != family
        invariant !changed ==> forall j | 0 <= j < k :: processes[j].parentPid in family ==> processes[j].pid in family
      {
        var process := processes[k];
        if process.parentPid in family && process.pid !in family {
          FamilyStep(processes, foreground, k);
          family := family + {process.pid};
          changed := true;
        }
      }
      if changed {
        assert before < family;
        assert universe - family < universe - before;
      }
    }
    forall pid: nat | InFamily(processes, foreground, pid)
      ensures pid in family
    {
      var pids :| Path(processes, pids) && pids[0] == foreground && pids[|pids| - 1] == pid;
      ClosedHoldsPath(processes, family, pids, |pids| - 1);
    }
    forall other: set<nat> | ClosedFamily(processes, other) && (foreground != 0 ==> foreground in other)
      ensures family <= other
    {
      FamilyIsLeast(processes, foreground, family, other);
    }
  }

  /** No smaller family is closed under parent links. */
  lemma {:induction false} FamilyIsLeast(processes: seq<ProcessSnapshot>, foreground: nat, family: set<nat>,
                                         other: set<nat>)
    requires forall pid | pid in family :: InFamily(processes, foreground, pid)
    requires ClosedFamily(processes, other) && (foreground != 0 ==> foreground in other)
    ensures family <= other
  {
    forall pid | pid in family
      ensures pid in other
    {
      var pids :| Path(processes, pids) && pids[0] == foreground && pids[|pids| - 1] == pid;
      ClosedHoldsPath(processes, other, pids, |pids| - 1);
    }
  }

  // ----- nodes -----

  function Score(reason: Reason): real {
    match reason
    case ActiveForeground => 100.0
    case ForegroundFamily => 92.0
    case MatchesIntent => 95.0
    case RecentlyActive => 82.0
    case VisibleWindow => 72.0
    case DeterministicProtected => 100.0
    case AudioVideoDeadline => 96.0
    case ActiveCompilation => 88.0
    case WorkloadIo => 75.0
    case NoDependency => 10.0
  }

  /** When a reason other than `NoDependency` is given. */
  predicate Applies(reason: Reason, process: ProcessSnapshot, foreground: nat, inFamily: bool,
                    workload: WorkloadPhase) {
    match reason
    case ActiveForeground => process.pid == foreground
    case ForegroundFamily => inFamily && process.pid != foreground
    case MatchesIntent => process.matchesUserIntent
    case RecentlyActive => process.isRecentlyActive
    case VisibleWindow => process.hasVisibleWindow
    case DeterministicProtected => process.isSystemCritical || process.safetyProtected
    case AudioVideoDeadline =>
      process.audioVideoName && (workload.VideoMeeting? || workload.PassivePlayback? || workload.Gaming?)
    case ActiveCompilation => process.compilerName && workload.Compilation?
    case WorkloadIo =>
      process.ioReadKBps + process.ioWriteKBps > 1024.0 && (workload.AppLaunching? || workload.LargeFileTransfer?)
    case NoDependency => false
  }

  /** The dependencies of one process, as a predicate on reasons. */
  function AppliesTo(process: ProcessSnapshot, foreground: nat, inFamily: bool,
                     workload: WorkloadPhase): Reason -> bool {
    r => Applies(r, process, foreground, inFamily, workload)
  }

  ghost predicate SomeDependency(applies: Reason -> bool) {
    exists r :: r != NoDependency && applies(r)
  }

  function AddReason(node: CriticalityNode, reason: Reason): CriticalityNode {
    node.(reasons := node.reasons + [reason],
          criticality := if node.criticality < Score(reason) then Score(reason) else node.criticality)
  }

  /** The criticality is the highest score among the reasons. */
  ghost predicate Scored(node: CriticalityNode) {
    && (forall r | r in node.reasons :: Score(r) <= node.criticality)
    && (node.reasons != [] ==> exists r | r in node.reasons :: Score(r) == node.criticality)
    && (node.reasons == [] ==> node.criticality == 0.0)
  }

  function When(applies: bool, reason: Reason): seq<Reason> {
    if applies then [reason] else []
  }

  method Consider(node: CriticalityNode, applies: bool, reason: Reason) returns (node': CriticalityNode)
    requires Scored(node)
    ensures node'.pid == node.pid && Scored(node')
    ensures node'.reasons == node.reasons + When(applies, reason)
  {
    node' := node;
    if applies {
      node' := AddReason(node, reason);
      assert reason in node'.reasons;
      assert forall r | r in node.reasons :: r in node'.reasons;
    }
  }

  function UserFacing(applies: Reason -> bool): seq<Reason> {
    When(applies(ActiveForeground), ActiveForeground)
    + When(applies(ForegroundFamily), ForegroundFamily)
    + When(applies(MatchesIntent), MatchesIntent)
    + When(applies(RecentlyActive), RecentlyActive)
    + When(applies(VisibleWindow), VisibleWindow)
  }

  function WorkloadBound(applies: Reason -> bool): seq<Reason> {
    When(applies(DeterministicProtected), DeterministicProtected)
    + When(applies(AudioVideoDeadline), AudioVideoDeadline)
    + When(applies(ActiveCompilation), ActiveCompilation)
    + When(applies(WorkloadIo), WorkloadIo)
  }

  /** The dependencies that apply, in the order in which they are considered. */
  function Dependencies(applies: Reason -> bool): seq<Reason> {
    UserFacing(applies) + WorkloadBound(applies)
  }

  predicate IsUserFacing(r: Reason) {
    r.ActiveForeground? || r.ForegroundFamily? || r.MatchesIntent? || r.RecentlyActive? || r.VisibleWindow?
  }

  lemma UserFacingApply(applies: Reason -> bool, r: Reason)
    ensures r in UserFacing(applies) <==> IsUserFacing(r) && applies(r)
  {
  }

  lemma WorkloadBoundApply(applies: Reason -> bool, r: Reason)
    ensures r in WorkloadBound(applies) <==> !IsUserFacing(r) && r != NoDependency && applies(r)
  {
  }

  lemma DependenciesApply(applies: Reason -> bool, r: Reason)
    ensures r in Dependencies(applies) <==> r != NoDependency && applies(r)
  {
    hide UserFacing, WorkloadBound;
    UserFacingApply(applies, r);
    WorkloadBoundApply(applies, r);
  }

  /** Seventy separates the dependencies from their absence. */
  lemma CriticalMeansDependent(node: CriticalityNode, applies: Reason -> bool)
    requires Scored(node)
    requires node.reasons == if Dependencies(applies) == [] then [NoDependency] else Dependencies(applies)
    ensures node.criticality >= 70.0 <==> SomeDependency(applies)
    ensures NoDependency in node.reasons <==> !SomeDependency(applies)
    ensures forall r | r != NoDependency :: r in node.reasons <==> applies(r)
  {
    hide Dependencies;
    forall r
      ensures r in Dependencies(applies) <==> r != NoDependency && applies(r)
    {
      DependenciesApply(applies, r);
    }
    if Dependencies(applies) == [] {
      assert forall r :: r in node.reasons <==> r == NoDependency;
    } else {
      var r := node.reasons[0];
      assert r in node.reasons && Score(r) >= 70.0;
    }
  }

  method GiveReasons(pid: nat, applies: Reason -> bool) returns (node: CriticalityNode)
    ensures node.pid == pid && Scored(node) && node.reasons == Dependencies(applies)
  {
    node := CriticalityNode(pid, 0.0, false, false, []);
    assert Scored(node);
    hide Scored, When;
    node := Consider(node, applies(ActiveForeground), ActiveForeground);
    node := Consider(node, applies(ForegroundFamily), ForegroundFamily);
    node := Consider(node, applies(MatchesIntent), MatchesIntent);
    node := Consider(node, applies(RecentlyActive), RecentlyActive);
    node := Consider(node, applies(VisibleWindow), VisibleWindow);
    node := Consider(node, applies(DeterministicProtected), DeterministicProtected);
    node := Consider(node, applies(AudioVideoDeadline), AudioVideoDeadline);
    node := Consider(node, applies(ActiveCompilation), ActiveCompilation);
    node := Consider(node, applies(WorkloadIo), WorkloadIo);
    SameOrder(applies);
  }

  lemma SameOrder(applies: Reason -> bool)
    ensures Dependencies(applies) ==
            [] + When(applies(ActiveForeground), ActiveForeground) + When(applies(ForegroundFamily), ForegroundFamily)
            + When(applies(MatchesIntent), MatchesIntent) + When(applies(RecentlyActive), RecentlyActive)
            + When(applies(VisibleWindow), VisibleWindow)
            + When(applies(DeterministicProtected), DeterministicProtected)
            + When(applies(AudioVideoDeadline), AudioVideoDeadline)
            + When(applies(ActiveCompilation), ActiveCompilation) + When(applies(WorkloadIo), WorkloadIo)
  {
    hide When;
  }

  /** The node of a process: its reasons, the largest score among them, and protection exactly for some dependency. */
  ghost predicate NodeOf(node: CriticalityNode, process: ProcessSnapshot, foreground: nat, inFamily: bool,
                         workload: WorkloadPhase)
  {
    && node.pid == process.pid && Scored(node)
    && (forall r | r != NoDependency :: r in node.reasons <==> AppliesTo(process, foreground, inFamily, workload)(r))
    && (NoDependency in node.reasons <==> !SomeDependency(AppliesTo(process, foreground, inFamily, workload)))
    && (node.onForegroundPath <==> inFamily || process.matchesUserIntent)
    && (node.protectedFromIntervention <==> SomeDependency(AppliesTo(process, foreground, inFamily, workload)))
  }

  /** A score that a reason gives and none exceeds is that of the first reason in this order. */
  lemma Ladder(score: real, top: Reason, applies: Reason -> bool)
    requires score == Score(top)
    requires forall r | r != NoDependency && applies(r) :: Score(r) <= score
    requires if top == NoDependency then forall r | r != NoDependency :: !applies(r) else applies(top)
    ensures score ==
            if applies(ActiveForeground) || applies(DeterministicProtected) then 100.0
            else if applies(AudioVideoDeadline) then 96.0
            else if applies(MatchesIntent) then 95.0
            else if applies(ForegroundFamily) then 92.0
            else if applies(ActiveCompilation) then 88.0
            else if applies(RecentlyActive) then 82.0
            else if applies(WorkloadIo) then 75.0
            else if applies(VisibleWindow) then 72.0
            else 10.0
  {
    assert applies(ActiveForeground) ==> Score(ActiveForeground) <= score;
    assert applies(DeterministicProtected) ==> Score(DeterministicProtected) <= score;
    assert applies(AudioVideoDeadline) ==> Score(AudioVideoDeadline) <= score;
    assert applies(MatchesIntent) ==> Score(MatchesIntent) <= score;
    assert applies(ForegroundFamily) ==> Score(ForegroundFamily) <= score;
    assert applies(ActiveCompilation) ==> Score(ActiveCompilation) <= score;
    assert applies(RecentlyActive) ==> Score(RecentlyActive) <= score;
    assert applies(WorkloadIo) ==> Score(WorkloadIo) <= score;
    assert applies(VisibleWindow) ==> Score(VisibleWindow) <= score;
  }

  /** The highest score among the reasons is that of some reason, and of the absence of all if there is none. */
  lemma {:induction false} TopReason(node: CriticalityNode, applies: Reason -> bool) returns (top: Reason)
    requires Scored(node)
    requires forall r | r != NoDependency :: r in node.reasons <==> applies(r)
    requires NoDependency in node.reasons <==> !SomeDependency(applies)
    ensures node.criticality == Score(top)
    ensures forall r | r != NoDependency && applies(r) :: Score(r) <= node.criticality
    ensures if top == NoDependency then forall r | r != NoDependency :: !applies(r) else applies(top)
  {
    hide Score;
    forall r | r != NoDependency && applies(r)
      ensures Score(r) <= node.criticality
    {
      assert r in node.reasons;
    }
    if SomeDependency(applies) {
      var r :| r != NoDependency && applies(r);
      assert r in node.reasons;
    } else {
      assert NoDependency in node.reasons;
    }
    top :| top in node.reasons && Score(top) == node.criticality;
  }

  /** The dependencies on the user, in the fields of the process. */
  lemma UserFacingInFields(process: ProcessSnapshot, foreground: nat, inFamily: bool, workload: WorkloadPhase)
    ensures Applies(ActiveForeground, process, foreground, inFamily, workload) <==> process.pid == foreground
    ensures Applies(ForegroundFamily, process, foreground, inFamily, workload) <==>
            inFamily && process.pid != foreground
    ensures Applies(MatchesIntent, process, foreground, inFamily, workload) <==> process.matchesUserIntent
    ensures Applies(RecentlyActive, process, foreground, inFamily, workload) <==> process.isRecentlyActive
    ensures Applies(VisibleWindow, process, foreground, inFamily, workload) <==> process.hasVisibleWindow
  {
  }

  /** The dependencies on the system and its workload. */
  lemma WorkloadBoundInFields(process: ProcessSnapshot, foreground: nat, inFamily: bool, workload: WorkloadPhase)
    ensures Applies(DeterministicProtected, process, foreground, inFamily, workload) <==>
            process.isSystemCritical || process.safetyProtected
    ensures Applies(AudioVideoDeadline, process, foreground, inFamily, workload) <==>
            process.audioVideoName && (workload.VideoMeeting? || workload.PassivePlayback? || workload.Gaming?)
    ensures Applies(ActiveCompilation, process, foreground, inFamily, workload) <==>
            process.compilerName && workload.Compilation?
    ensures Applies(WorkloadIo, process, foreground, inFamily, workload) <==>
            && process.ioReadKBps + process.ioWriteKBps > 1024.0
            && (workload.AppLaunching? || workload.LargeFileTransfer?)
  {
  }

  /**
   * The criticality of a process in its own fields: the first of these that applies, from the foreground
   * process and protected ones down to a visible window; ten if none does. It is protected if any does.
   */
  lemma {:induction false} CriticalityMeans(node: CriticalityNode, process: ProcessSnapshot, foreground: nat,
                                            inFamily: bool, workload: WorkloadPhase)
    requires NodeOf(node, process, foreground, inFamily, workload)
    ensures node.criticality ==
            if process.pid == foreground || process.isSystemCritical || process.safetyProtected then 100.0
            else if process.audioVideoName && (workload.VideoMeeting? || workload.PassivePlayback? || workload.Gaming?)
            then 96.0
            else if process.matchesUserIntent then 95.0
            else if inFamily then 92.0
            else if process.compilerName && workload.Compilation? then 88.0
            else if process.isRecentlyActive then 82.0
            else if process.ioReadKBps + process.ioWriteKBps > 1024.0
                    && (workload.AppLaunching? || workload.LargeFileTransfer?) then 75.0
            else if process.hasVisibleWindow then 72.0
            else 10.0
    ensures node.protectedFromIntervention <==>
            || process.pid == foreground || inFamily || process.matchesUserIntent || process.isRecentlyActive
            || process.hasVisibleWindow || process.isSystemCritical || process.safetyProtected
            || (process.audioVideoName && (workload.VideoMeeting? || workload.PassivePlayback? || workload.Gaming?))
            || (process.compilerName && workload.Compilation?)
            || (&& process.ioReadKBps + process.ioWriteKBps > 1024.0
                && (workload.AppLaunching? || workload.LargeFileTransfer?))
  {
    var applies := AppliesTo(process, foreground, inFamily, workload);
    UserFacingInFields(process, foreground, inFamily, workload);
    WorkloadBoundInFields(process, foreground, inFamily, workload);
    hide Applies, Scored, Score;
    assert forall r :: applies(r) <==> Applies(r, process, foreground, inFamily, workload);
    hide AppliesTo;
    var top := TopReason(node, applies);
    Ladder(node.criticality, top, applies);
    SomeOfNine(applies);
  }

  lemma SomeOfNine(applies: Reason -> bool)
    ensures SomeDependency(applies) <==>
            || applies(ActiveForeground) || applies(ForegroundFamily) || applies(MatchesIntent)
            || applies(RecentlyActive) || applies(VisibleWindow) || applies(DeterministicProtected)
            || applies(AudioVideoDeadline) || applies(ActiveCompilation) || applies(WorkloadIo)
  {
  }

  method BuildNode(process: ProcessSnapshot, foreground: nat, inFamily: bool, workload: WorkloadPhase)
    returns (node: CriticalityNode)
    ensures NodeOf(node, process, foreground, inFamily, workload)
  {
    var applies := AppliesTo(process, foreground, inFamily, workload);
    hide Dependencies, AppliesTo, SomeDependency, Applies;
    SystemCriticalIsDependent(process, foreground, inFamily, workload);
    node := GiveReasons(process.pid, applies);
    if node.reasons == [] {
      node := Consider(node, true, NoDependency);
      assert node.reasons == [NoDependency];
    }
    CriticalMeansDependent(node, applies);
    node := CriticalityNode(node.pid, node.criticality, inFamily || process.matchesUserIntent,
                            node.criticality >= 70.0 || process.isSystemCritical, node.reasons);
  }

  method BuildGraph(processes: seq<ProcessSnapshot>, foreground: nat, workload: WorkloadPhase)
    returns (nodes: seq<CriticalityNode>, edges: seq<CriticalityEdge>)
    ensures |nodes| == |processes| && |edges| <= |processes|
    ensures forall k | 0 <= k < |processes| ::
        NodeOf(nodes[k], processes[k], foreground, InFamily(processes, foreground, processes[k].pid), workload)
    ensures forall k | 0 <= k < |processes| && InFamily(processes, foreground, processes[k].pid) ::
        nodes[k].protectedFromIntervention
    ensures forall e | e in edges ::
        Link(processes, e.parent, e.child) && e.parent != 0
        && e.weight == if InFamily(processes, foreground, e.parent) then 1.0 else 0.45
    ensures forall j, k | 0 <= j < |processes| && 0 <= k < |processes|
        && processes[j].pid == processes[k].parentPid != 0 ::
        exists e | e in edges :: e.parent == processes[k].parentPid && e.child == processes[k].pid
  {
    hide AppliesTo, SomeDependency, InFamily, NodeOf;
    var byPid := set k | 0 <= k < |processes| :: processes[k].pid;
    var family := ForegroundClosure(processes, foreground);
    nodes, edges := [], [];
    for k := 0 to |processes|
      invariant |nodes| == k && |edges| <= k
      invariant forall j | 0 <= j < k :: NodeOf(nodes[j], processes[j], foreground, processes[j].pid in family,
                                                workload)
      invariant forall j | 0 <= j < k && processes[j].parentPid != 0 && processes[j].parentPid in byPid ::
          exists e | e in edges :: e.parent == processes[j].parentPid && e.child == processes[j].pid
      invariant forall e | e in edges ::
          Link(processes, e.parent, e.child) && e.parent != 0 && e.weight == if e.parent in family then 1.0 else 0.45
    {
      var process := processes[k];
      if process.parentPid != 0 && process.parentPid in byPid {
        assert Link(processes, process.parentPid, process.pid);
        ghost var before := edges;
        var edge := CriticalityEdge(process.parentPid, process.pid, if process.parentPid in family then 1.0 else 0.45);
        edges := edges + [edge];
        assert edge in edges && forall e | e in before :: e in edges;
      }
      var node := BuildNode(process, foreground, process.pid in family, workload);
      nodes := nodes + [node];
    }
    forall k | 0 <= k < |processes| && InFamily(processes, foreground, processes[k].pid)
      ensures nodes[k].protectedFromIntervention
    {
      FamilyIsProtected(nodes[k], processes[k], foreground, workload);
    }
  }

  lemma SystemCriticalIsDependent(process: ProcessSnapshot, foreground: nat, inFamily: bool, workload: WorkloadPhase)
    ensures process.isSystemCritical ==> SomeDependency(AppliesTo(process, foreground, inFamily, workload))
  {
    assert process.isSystemCritical ==> AppliesTo(process, foreground, inFamily, workload)(DeterministicProtected);
  }

  lemma FamilyIsDependent(process: ProcessSnapshot, foreground: nat, workload: WorkloadPhase)
    ensures SomeDependency(AppliesTo(process, foreground, true, workload))
  {
    var r := if process.pid == foreground then ActiveForeground else ForegroundFamily;
    assert AppliesTo(process, foreground, true, workload)(r);
  }

  lemma {:induction false} FamilyIsProtected(node: CriticalityNode, process: ProcessSnapshot, foreground: nat,
                                             workload: WorkloadPhase)
    requires NodeOf(node, process, foreground, true, workload)
    ensures node.protectedFromIntervention
  {
    hide AppliesTo, SomeDependency;
    FamilyIsDependent(process, foreground, workload);
  }
}
