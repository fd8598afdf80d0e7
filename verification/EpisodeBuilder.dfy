/** Segmentation of an ordered telemetry stream into workload episodes. */
module EpisodeBuilder {
  import opened Sequences
  import opened Wrappers

  /** The three flags say whether the parts of a frame that episode building reads are usable. */
  datatype Frame = Frame(
    timestampMs: int,
    sessionId: string,
    workloadPhase: string,
    behaviorClass: string,
    appFamily: string,
    foregroundIsObject: bool,
    resourcesUsable: bool,
    collectorsAvailable: bool)

  datatype Config = Config(maximumFrameGapMs: int, minimumFrames: int, baselineFrameCount: int)

  datatype Reason =
    | FirstFrame
    | TelemetryGap
    | SessionChanged
    | WorkloadPhaseChanged
    | ForegroundBehaviorChanged
    | InputExhausted

  datatype Episode = Episode(frames: seq<Frame>, index: nat, startReason: Reason, endReason: Reason, valid: bool)

  // ----- the meaning: maximal runs without a boundary -----

  /** Why a new episode starts between two consecutive frames, if it does. */
  function Boundary(previous: Frame, next: Frame, config: Config): Option<Reason> {
    if next.timestampMs - previous.timestampMs > config.maximumFrameGapMs then Some(TelemetryGap)
    else if next.sessionId != previous.sessionId then Some(SessionChanged)
    else if next.workloadPhase != previous.workloadPhase then Some(WorkloadPhaseChanged)
    else if next.behaviorClass != previous.behaviorClass || next.appFamily != previous.appFamily
    then Some(ForegroundBehaviorChanged)
    else None
  }

  function Runs(s: seq<Frame>, config: Config): (runs: seq<seq<Frame>>)
    ensures |s| > 0 ==> |runs| > 0
  {
    if |s| == 0 then []
    else if |s| == 1 then [s]
    else
      var n := |s| - 1;
      var before := Runs(s[..n], config);
      if Boundary(s[n - 1], s[n], config).Some? then before + [[s[n]]]
      else before[..|before| - 1] + [before[|before| - 1] + [s[n]]]
  }

  ghost predicate NoBoundaryInside(run: seq<Frame>, config: Config) {
    forall i | 0 < i < |run| :: Boundary(run[i - 1], run[i], config) == None
  }

  /** One more frame either opens a run or extends the last one; the runs before it stay. */
  lemma {:induction false} RunsStep(s: seq<Frame>, config: Config)
    requires |s| > 1
    ensures var n := |s| - 1;
            var before, after := Runs(s[..n], config), Runs(s, config);
            && |before| > 0
            && if Boundary(s[n - 1], s[n], config).Some?
               then after == before + [[s[n]]]
               else after == before[..|before| - 1] + [before[|before| - 1] + [s[n]]]
  {
    hide Boundary;
  }

  /** A run that is complete at some point stays as it is when the stream goes on. */
  lemma {:induction false} RunsGrow(s: seq<Frame>, config: Config, k: nat)
    requires 0 < k <= |s|
    ensures var before, after := Runs(s[..k], config), Runs(s, config);
            0 < |before| <= |after| && before[..|before| - 1] == after[..|before| - 1]
    decreases |s|
  {
    hide Runs, Boundary;
    if k < |s| {
      var n := |s| - 1;
      RunsGrow(s[..n], config, k);
      assert s[..n][..k] == s[..k];
      RunsStep(s, config);
      var before, middle, after := Runs(s[..k], config), Runs(s[..n], config), Runs(s, config);
      assert middle[..|middle| - 1] == after[..|middle| - 1];
      assert middle[..|before| - 1] == middle[..|middle| - 1][..|before| - 1];
      assert after[..|before| - 1] == after[..|middle| - 1][..|before| - 1];
    } else {
      assert s[..k] == s;
      NonEmptyRuns(s, config);
    }
  }

  lemma {:induction false} NonEmptyRuns(s: seq<Frame>, config: Config)
    requires |s| > 0
    ensures |Runs(s, config)| > 0
  {
  }

  /** The runs partition the stream, no run has a boundary inside, and one lies between any two. */
  ghost predicate Partition(runs: seq<seq<Frame>>, s: seq<Frame>, config: Config) {
    && Concat(runs) == s
    && (forall r | 0 <= r < |runs| :: |runs[r]| > 0 && NoBoundaryInside(runs[r], config))
    && (forall r | 0 < r < |runs| :: Boundary(runs[r - 1][|runs[r - 1]| - 1], runs[r][0], config).Some?)
  }

  lemma {:induction false} RunsPartition(s: seq<Frame>, config: Config)
    ensures Partition(Runs(s, config), s, config)
    ensures |s| > 0 ==> EndsWith(Runs(s, config), s[|s| - 1])
  {
    hide Boundary, Partition, Runs;
    if |s| <= 1 {
      FewRuns(s, config);
    } else {
      var n := |s| - 1;
      RunsPartition(s[..n], config);
      RunsStep(s, config);
      var before := Runs(s[..n], config);
      if Boundary(s[n - 1], s[n], config).Some? {
        OpenRun(before, s, config);
      } else {
        ExtendRun(before, s, config);
      }
    }
  }

  ghost predicate EndsWith(runs: seq<seq<Frame>>, frame: Frame) {
    |runs| > 0 && |runs[|runs| - 1]| > 0 && runs[|runs| - 1][|runs[|runs| - 1]| - 1] == frame
  }

  lemma {:induction false} FewRuns(s: seq<Frame>, config: Config)
    requires |s| <= 1
    ensures Partition(Runs(s, config), s, config) && (|s| == 1 ==> EndsWith(Runs(s, config), s[0]))
  {
    hide Boundary;
    if |s| == 1 {
      SingleRun(s, config);
    } else {
      NoRuns(config);
      assert s == [];
      assert Concat<Frame>([]) == [];
    }
  }

  lemma {:induction false} NoRuns(config: Config)
    ensures Runs([], config) == []
  {
  }

  lemma {:induction false} SingleRun(s: seq<Frame>, config: Config)
    requires |s| == 1
    ensures Partition(Runs(s, config), s, config) && EndsWith(Runs(s, config), s[0])
  {
    hide Boundary;
    var runs := [s];
    assert Runs(s, config) == runs by {
      hide Partition, EndsWith, Concat;
    }
    hide Runs;
    assert runs[..0] == [];
    assert Concat(runs) == Concat(runs[..0]) + runs[0];
    assert Concat(runs) == s;
    assert NoBoundaryInside(runs[0], config);
  }

  lemma {:induction false} OpenRun(before: seq<seq<Frame>>, s: seq<Frame>, config: Config)
    requires |s| > 1 && Partition(before, s[..|s| - 1], config) && EndsWith(before, s[|s| - 2])
    requires Boundary(s[|s| - 2], s[|s| - 1], config).Some?
    ensures Partition(before + [[s[|s| - 1]]], s, config)
  {
    hide Boundary;
    var after := before + [[s[|s| - 1]]];
    assert after[..|after| - 1] == before;
    assert s == s[..|s| - 1] + [s[|s| - 1]];
  }

  lemma {:induction false} ExtendRun(before: seq<seq<Frame>>, s: seq<Frame>, config: Config)
    requires |s| > 1 && Partition(before, s[..|s| - 1], config) && EndsWith(before, s[|s| - 2])
    requires Boundary(s[|s| - 2], s[|s| - 1], config) == None
    ensures Partition(before[..|before| - 1] + [before[|before| - 1] + [s[|s| - 1]]], s, config)
  {
    hide Boundary;
    var m := |before| - 1;
    var last := before[m] + [s[|s| - 1]];
    var after := before[..m] + [last];
    assert after[..m] == before[..m];
    assert Concat(after) == Concat(before[..m]) + last;
    assert s == s[..|s| - 1] + [s[|s| - 1]];
    forall i | 0 < i < |last|
      ensures Boundary(last[i - 1], last[i], config) == None
    {
      assert i < |before[m]| ==> Boundary(before[m][i - 1], before[m][i], config) == None;
    }
    assert NoBoundaryInside(last, config);
  }

  // ----- when a stream is accepted -----

  ghost predicate StrictlyIncreasing(s: seq<Frame>) {
    forall i | 0 < i < |s| :: s[i - 1].timestampMs < s[i].timestampMs
  }

  function BaselineCount(run: seq<Frame>, config: Config): nat {
    var wanted := if config.baselineFrameCount < 1 then 1 else config.baselineFrameCount;
    if wanted < |run| then wanted else |run|
  }

  /** A record can be built: time passes within the run, and its baseline frames carry resources. */
  predicate Buildable(run: seq<Frame>, config: Config) {
    && |run| > 0
    && run[0].timestampMs < run[|run| - 1].timestampMs
    && forall i | 0 <= i < BaselineCount(run, config) :: run[i].resourcesUsable
  }

  ghost predicate Acceptable(ordered: seq<Frame>, config: Config) {
    && StrictlyIncreasing(ordered)
    && (forall i | 0 <= i < |ordered| :: ordered[i].foregroundIsObject)
    && forall r | 0 <= r < |Runs(ordered, config)| :: Buildable(Runs(ordered, config)[r], config)
  }

  predicate Earlier(a: Frame, b: Frame) {
    a.timestampMs <= b.timestampMs
  }

  /** Episode `r` is run `r`; it started as the boundary before it says, and ended for `endReason`. */
  ghost predicate EpisodeIs(e: Episode, runs: seq<seq<Frame>>, r: nat, endReason: Reason, config: Config)
    requires r < |runs|
  {
    && e.frames == runs[r] && e.index == r
    && e.startReason == StartReason(runs, r, config) && e.endReason == endReason
    && (e.valid <==> |runs[r]| >= config.minimumFrames && forall f | f in runs[r] :: f.collectorsAvailable)
  }

  /** The episodes are the runs, in order, each ending for the reason for which the next one starts. */
  ghost predicate Describes(episodes: seq<Episode>, runs: seq<seq<Frame>>, config: Config) {
    && |episodes| == |runs|
    && forall r | 0 <= r < |runs| ::
         EpisodeIs(episodes[r], runs, r, if r == |runs| - 1 then InputExhausted
                   else StartReason(runs, r + 1, config), config)
  }

  /** Why run `r` starts: the boundary between the frames on either side. */
  ghost function StartReason(runs: seq<seq<Frame>>, r: nat, config: Config): Reason
    requires r < |runs|
  {
    if r == 0 || |runs[r - 1]| == 0 || |runs[r]| == 0 then FirstFrame
    else
      var boundary := Boundary(runs[r - 1][|runs[r - 1]| - 1], runs[r][0], config);
      if boundary.Some? then boundary.value else FirstFrame
  }

  // ----- the state of the loop -----

  ghost predicate Usable(s: seq<Frame>) {
    StrictlyIncreasing(s) && forall i | 0 <= i < |s| :: s[i].foregroundIsObject
  }

  /** All runs but the last have become episodes; the last one is being collected. */
  ghost predicate Progress(runs: seq<seq<Frame>>, episodes: seq<Episode>, current: seq<Frame>, startReason: Reason,
                           config: Config)
  {
    && |runs| == |episodes| + 1
    && (forall r | 0 <= r < |runs| :: |runs[r]| > 0)
    && current == runs[|episodes|] && startReason == StartReason(runs, |episodes|, config)
    && forall r | 0 <= r < |episodes| ::
         Buildable(runs[r], config) && EpisodeIs(episodes[r], runs, r, StartReason(runs, r + 1, config), config)
  }

  lemma {:induction false} SameStarts(runs: seq<seq<Frame>>, runs': seq<seq<Frame>>, n: nat, config: Config)
    requires n < |runs| && n < |runs'| && runs[..n] == runs'[..n]
    requires |runs[n]| > 0 && |runs'[n]| > 0 && runs[n][0] == runs'[n][0]
    requires forall r | 0 <= r < n :: |runs[r]| > 0
    ensures forall r | 0 <= r <= n :: StartReason(runs, r, config) == StartReason(runs', r, config)
  {
    hide Boundary;
    forall r | 0 <= r <= n
      ensures StartReason(runs, r, config) == StartReason(runs', r, config)
    {
      assert forall q | 0 <= q < n :: runs[q] == runs[..n][q] == runs'[q];
    }
  }

  lemma {:induction false} CollectMore(runs: seq<seq<Frame>>, episodes: seq<Episode>, current: seq<Frame>,
                                       startReason: Reason, frame: Frame, config: Config)
    requires Progress(runs, episodes, current, startReason, config)
    ensures Progress(runs[..|runs| - 1] + [current + [frame]], episodes, current + [frame], startReason, config)
  {
    hide Boundary, Buildable, StartReason;
    SameStarts(runs, runs[..|runs| - 1] + [current + [frame]], |episodes|, config);
  }

  lemma {:induction false} SameEpisode(e: Episode, runs: seq<seq<Frame>>, runs': seq<seq<Frame>>, r: nat,
                                       endReason: Reason,
                                       config: Config)
    requires r < |runs| && r < |runs'| && runs[r] == runs'[r]
    requires StartReason(runs, r, config) == StartReason(runs', r, config)
    ensures EpisodeIs(e, runs, r, endReason, config) <==> EpisodeIs(e, runs', r, endReason, config)
  {
    hide StartReason;
  }

  lemma {:induction false} LastStart(runs: seq<seq<Frame>>, frame: Frame, reason: Reason, config: Config)
    requires |runs| > 0 && |runs[|runs| - 1]| > 0
    requires Boundary(runs[|runs| - 1][|runs[|runs| - 1]| - 1], frame, config) == Some(reason)
    ensures StartReason(runs + [[frame]], |runs|, config) == reason
  {
    hide Boundary;
  }

  lemma {:induction false} CloseRun(runs: seq<seq<Frame>>, episodes: seq<Episode>, current: seq<Frame>,
                                    startReason: Reason, frame: Frame, e: Episode, config: Config)
    requires Progress(runs, episodes, current, startReason, config) && Buildable(current, config)
    requires Boundary(current[|current| - 1], frame, config) == Some(e.endReason)
    requires e.frames == current && e.index == |episodes| && e.startReason == startReason
    requires e.valid <==> |current| >= config.minimumFrames && forall f | f in current :: f.collectorsAvailable
    ensures Progress(runs + [[frame]], episodes + [e], [frame], e.endReason, config)
  {
    hide Boundary, Buildable, StartReason;
    var runs' := runs + [[frame]];
    SameStarts(runs, runs', |episodes|, config);
    LastStart(runs, frame, e.endReason, config);
    assert EpisodeIs(e, runs, |episodes|, e.endReason, config);
    hide EpisodeIs;
    SameEpisode(e, runs, runs', |episodes|, e.endReason, config);
    forall r | 0 <= r < |episodes|
      ensures EpisodeIs(episodes[r], runs', r, StartReason(runs', r + 1, config), config)
    {
      SameEpisode(episodes[r], runs, runs', r, StartReason(runs, r + 1, config), config);
    }
  }

  lemma {:induction false} LastEpisode(runs: seq<seq<Frame>>, episodes: seq<Episode>, current: seq<Frame>,
                                       startReason: Reason, e: Episode, config: Config)
    requires Progress(runs, episodes, current, startReason, config)
    requires e.frames == current && e.index == |episodes| && e.startReason == startReason
        && e.endReason == InputExhausted
    requires e.valid <==> |current| >= config.minimumFrames && forall f | f in current :: f.collectorsAvailable
    ensures Describes(episodes + [e], runs, config)
  {
    hide Boundary, Buildable, StartReason;
  }

  /** An unusable prefix, or one with a complete run that cannot be built. */
  ghost predicate Rejected(prefix: seq<Frame>, config: Config) {
    !Usable(prefix) || var runs := Runs(prefix, config); |runs| >= 2 && !Buildable(runs[|runs| - 2], config)
  }

  /** A rejected prefix rules the whole stream out. */
  lemma {:induction false} RuledOut(ordered: seq<Frame>, i: nat, config: Config)
    requires i < |ordered| && Rejected(ordered[..i + 1], config)
    ensures !Acceptable(ordered, config)
  {
    hide Boundary, Buildable, Runs;
    if Usable(ordered[..i + 1]) {
      RunsGrow(ordered, config, i + 1);
      var some, all := Runs(ordered[..i + 1], config), Runs(ordered, config);
      assert all[|some| - 2] == all[..|some| - 1][|some| - 2] == some[..|some| - 1][|some| - 2];
    }
  }

  lemma {:induction false} UsableStep(before: seq<Frame>, frame: Frame)
    requires Usable(before)
    ensures Usable(before + [frame]) <==>
            && frame.foregroundIsObject
            && (|before| > 0 ==> before[|before| - 1].timestampMs < frame.timestampMs)
  {
    var after := before + [frame];
    assert after[|before|] == frame;
    assert |before| > 0 ==> after[|before| - 1] == before[|before| - 1];
    assert forall i | 0 <= i < |before| :: before[i] == after[i];
  }

  lemma {:induction false} EmptyStream(config: Config)
    ensures Usable([]) && Acceptable([], config) && Describes([], Runs([], config), config)
  {
    NoRuns(config);
  }

  /** A usable stream is accepted exactly when its last run, the one still being collected, can be built. */
  lemma {:induction false} LastRunDecides(ordered: seq<Frame>, episodes: seq<Episode>, current: seq<Frame>,
                                          startReason: Reason, config: Config)
    requires Usable(ordered) && Progress(Runs(ordered, config), episodes, current, startReason, config)
    ensures Acceptable(ordered, config) <==> Buildable(current, config)
  {
    hide Runs, Buildable, Boundary, StartReason, EpisodeIs, StrictlyIncreasing;
    if Buildable(current, config) {
      AllBuilt(Runs(ordered, config), episodes, current, startReason, config);
    }
  }

  // ----- the implementation -----

  method BuildRecord(run: seq<Frame>, index: nat, startReason: Reason, endReason: Reason, config: Config)
    returns (episode: Result<Episode>)
    requires |run| > 0
    ensures episode.Success? <==> Buildable(run, config)
    ensures episode.Success? <==>
            && run[0].timestampMs < run[|run| - 1].timestampMs && run[0].resourcesUsable
            && forall i | 0 <= i < |run| && i < config.baselineFrameCount :: run[i].resourcesUsable
    ensures episode.Success? ==>
        var e := episode.value;
        && e.frames == run && e.index == index && e.startReason == startReason && e.endReason == endReason
        && (e.valid <==> |run| >= config.minimumFrames && forall f | f in run :: f.collectorsAvailable)
  {
    if run[|run| - 1].timestampMs <= run[0].timestampMs {
      return Failure(ValidationError);
    }
    for i := 0 to BaselineCount(run, config)
      invariant forall j | 0 <= j < i :: run[j].resourcesUsable
    {
      if !run[i].resourcesUsable {
        return Failure(ValidationError);
      }
    }
    var unavailable := 0;
    for i := 0 to |run|
      invariant unavailable >= 0
      invariant unavailable == 0 <==> forall f | f in run[..i] :: f.collectorsAvailable
    {
      assert run[..i + 1] == run[..i] + [run[i]];
      if !run[i].collectorsAvailable {
        unavailable := unavailable + 1;
      }
    }
    assert run[..|run|] == run;
    episode := Success(Episode(run, index, startReason, endReason, |run| >= config.minimumFrames && unavailable == 0));
  }

  /** The variables of the loop after the frames of `prefix`. */
  ghost predicate Collected(prefix: seq<Frame>, episodes: seq<Episode>, current: seq<Frame>, startReason: Reason,
                            previous: Option<Frame>, config: Config)
  {
    && Usable(prefix)
    && if |prefix| == 0 then current == [] && episodes == [] && startReason == FirstFrame && previous == None
       else
         && previous == Some(prefix[|prefix| - 1])
         && |current| > 0 && current[|current| - 1] == prefix[|prefix| - 1]
         && Progress(Runs(prefix, config), episodes, current, startReason, config)
  }

  /** A boundary flushes the frames collected so far into an episode. */
  method Flush(episodes: seq<Episode>, current: seq<Frame>, startReason: Reason, reason: Reason, config: Config,
               ghost prefix: seq<Frame>, frame: Frame)
    returns (result: Result<seq<Episode>>)
    requires |prefix| > 0 && Collected(prefix, episodes, current, startReason, Some(prefix[|prefix| - 1]), config)
    requires Usable(prefix + [frame]) && Boundary(prefix[|prefix| - 1], frame, config) == Some(reason)
    ensures result.Success? ==> Collected(prefix + [frame], result.value, [frame], reason, Some(frame), config)
    ensures result.Failure? ==> Rejected(prefix + [frame], config)
  {
    hide Boundary, Runs, Buildable, Progress, Usable;
    ghost var after := prefix + [frame];
    assert after[..|prefix|] == prefix;
    RunsStep(after, config);
    LastIsCurrent(Runs(prefix, config), episodes, current, startReason, config);
    var record := BuildRecord(current, |episodes|, startReason, reason, config);
    if record.Failure? {
      return Failure(record.error);
    }
    CloseRun(Runs(prefix, config), episodes, current, startReason, frame, record.value, config);
    result := Success(episodes + [record.value]);
  }

  lemma {:induction false} CollectedMore(prefix: seq<Frame>, episodes: seq<Episode>, current: seq<Frame>,
                                         startReason: Reason, previous: Option<Frame>, frame: Frame, config: Config)
    requires Collected(prefix, episodes, current, startReason, previous, config) && Usable(prefix + [frame])
    requires previous == None || Boundary(previous.value, frame, config) == None
    ensures Collected(prefix + [frame], episodes, current + [frame], startReason, Some(frame), config)
  {
    hide Boundary, Runs, Progress, Usable;
    var after := prefix + [frame];
    assert after[..|prefix|] == prefix;
    if |prefix| == 0 {
      FirstRun(after, config);
      assert current + [frame] == after;
    } else {
      RunsStep(after, config);
      CollectMore(Runs(prefix, config), episodes, current, startReason, frame, config);
      LastIsCurrent(Runs(prefix, config), episodes, current, startReason, config);
    }
  }

  /**
   * The loop: it succeeds exactly on acceptable streams, and then the episodes are the maximal runs
   * of the sorted input.
   */
  method BuildEpisodes(frames: seq<Frame>, config: Config) returns (result: Result<seq<Episode>>)
    ensures result.Success? <==> Acceptable(Sort(frames, Earlier), config)
    ensures result.Success? ==> Describes(result.value, Runs(Sort(frames, Earlier), config), config)
    ensures result.Success? ==>
        && Segmented(result.value, config) && Concat(FramesOf(result.value)) == Sort(frames, Earlier)
        && multiset(Concat(FramesOf(result.value))) == multiset(frames)
        && StrictlyIncreasing(Concat(FramesOf(result.value)))
  {
    hide Segmented, Concat;
    hide Boundary, Runs, Sort, Progress, Usable, Acceptable, Describes, Rejected;
    var ordered := Sort(frames, Earlier);
    SortPermutes(frames, Earlier);
    assert |ordered| == |frames| by {
      assert |multiset(ordered)| == |multiset(frames)|;
    }
    EmptyStream(config);
    if |frames| == 0 {
      EpisodesAreSegmented([], ordered, config);
      AcceptableIncreases(ordered, config);
      return Success([]);
    }
    var episodes: seq<Episode> := [];
    var current: seq<Frame> := [];
    var startReason := FirstFrame;
    var previous: Option<Frame> := None;
    for i := 0 to |ordered|
      invariant Collected(ordered[..i], episodes, current, startReason, previous, config)
    {
      var frame := ordered[i];
      assert ordered[..i + 1] == ordered[..i] + [frame];
      UsableStep(ordered[..i], frame);
      if !frame.foregroundIsObject || (previous.Some? && frame.timestampMs <= previous.value.timestampMs) {
        UnusableIsRejected(ordered[..i + 1], config);
        RuledOut(ordered, i, config);
        return Failure(ValidationError);
      }
      var boundary := if previous.Some? then Boundary(previous.value, frame, config) else None;
      if boundary.Some? {
        var flushed := Flush(episodes, current, startReason, boundary.value, config, ordered[..i], frame);
        if flushed.Failure? {
          RuledOut(ordered, i, config);
          return flushed;
        }
        episodes, current, startReason := flushed.value, [], boundary.value;
        assert current + [frame] == [frame];
      } else {
        CollectedMore(ordered[..i], episodes, current, startReason, previous, frame, config);
      }
      current := current + [frame];
      previous := Some(frame);
    }
    assert ordered[..|ordered|] == ordered;
    result := FlushLast(episodes, current, startReason, config, ordered);
    if result.Success? {
      EpisodesAreSegmented(result.value, ordered, config);
      AcceptableIncreases(ordered, config);
    }
  }

  lemma {:induction false} AcceptableIncreases(ordered: seq<Frame>, config: Config)
    requires Acceptable(ordered, config)
    ensures StrictlyIncreasing(ordered)
  {
  }

  lemma {:induction false} UnusableIsRejected(prefix: seq<Frame>, config: Config)
    requires !Usable(prefix)
    ensures Rejected(prefix, config)
  {
    hide Runs, Usable, Buildable;
  }

  /** The end of the input flushes the last run. */
  method FlushLast(episodes: seq<Episode>, current: seq<Frame>, startReason: Reason, config: Config,
                   ghost ordered: seq<Frame>)
    returns (result: Result<seq<Episode>>)
    requires |ordered| > 0 && Collected(ordered, episodes, current, startReason, Some(ordered[|ordered| - 1]), config)
    ensures result.Success? <==> Acceptable(ordered, config)
    ensures result.Success? ==> Describes(result.value, Runs(ordered, config), config)
  {
    hide Boundary, Runs, Buildable, Progress, Usable, Acceptable, Describes;
    LastRunDecides(ordered, episodes, current, startReason, config);
    var record := BuildRecord(current, |episodes|, startReason, InputExhausted, config);
    if record.Failure? {
      return Failure(record.error);
    }
    LastEpisode(Runs(ordered, config), episodes, current, startReason, record.value, config);
    result := Success(episodes + [record.value]);
  }

  lemma {:induction false} FirstRun(s: seq<Frame>, config: Config)
    requires |s| == 1
    ensures Progress(Runs(s, config), [], s, FirstFrame, config)
  {
  }

  lemma {:induction false} LastIsCurrent(runs: seq<seq<Frame>>, episodes: seq<Episode>, current: seq<Frame>,
                                         startReason: Reason, config: Config)
    requires Progress(runs, episodes, current, startReason, config)
    ensures |runs| == |episodes| + 1 && runs[|runs| - 1] == current
  {
  }

  lemma {:induction false} AllBuilt(runs: seq<seq<Frame>>, episodes: seq<Episode>, current: seq<Frame>,
                                    startReason: Reason, config: Config)
    requires Progress(runs, episodes, current, startReason, config) && Buildable(current, config)
    ensures forall r | 0 <= r < |runs| :: Buildable(runs[r], config)
  {
    hide Buildable, Boundary, StartReason, EpisodeIs;
  }

  // ----- what the result means -----

  function FramesOf(episodes: seq<Episode>): (runs: seq<seq<Frame>>)
    ensures |runs| == |episodes|
  {
    seq(|episodes|, i requires 0 <= i < |episodes| => episodes[i].frames)
  }

  /** The boundary between the two is why the first one ended and why the second one started. */
  ghost predicate Adjoins(e: Episode, next: Episode, config: Config) {
    && |e.frames| > 0 && |next.frames| > 0
    && e.endReason == next.startReason
    && Boundary(e.frames[|e.frames| - 1], next.frames[0], config) == Some(next.startReason)
  }

  /**
   * The episodes partition the sorted stream: no boundary inside one, and between two neighbours the
   * boundary that ends the first and starts the second. Nothing is dropped, repeated or reordered.
   */
  lemma {:induction false} EpisodesPartitionTheStream(episodes: seq<Episode>, ordered: seq<Frame>, config: Config)
    requires Describes(episodes, Runs(ordered, config), config)
    ensures Partition(FramesOf(episodes), ordered, config)
    ensures forall r | 0 < r < |episodes| :: Adjoins(episodes[r - 1], episodes[r], config)
    ensures |episodes| > 0 ==>
              episodes[0].startReason == FirstFrame && episodes[|episodes| - 1].endReason == InputExhausted
  {
    hide Boundary, Runs, Concat, NoBoundaryInside;
    var runs := Runs(ordered, config);
    RunsPartition(ordered, config);
    assert FramesOf(episodes) == runs;
    forall r | 0 < r < |episodes|
      ensures Adjoins(episodes[r - 1], episodes[r], config)
    {
      assert EpisodeIs(episodes[r - 1], runs, r - 1, StartReason(runs, r, config), config);
      assert episodes[r].startReason == StartReason(runs, r, config);
    }
  }

  // ----- the same in the fields of the frames -----

  predicate SameKey(a: Frame, b: Frame) {
    && a.sessionId == b.sessionId && a.workloadPhase == b.workloadPhase
    && a.behaviorClass == b.behaviorClass && a.appFamily == b.appFamily
  }

  /** One session, one phase, one behaviour of one application, and no gap over the limit. */
  ghost predicate Homogeneous(frames: seq<Frame>, config: Config) {
    && (forall i, j | 0 <= i < |frames| && 0 <= j < |frames| :: SameKey(frames[i], frames[j]))
    && (forall i | 0 <= i < |frames| - 1 ::
          frames[i + 1].timestampMs - frames[i].timestampMs <= config.maximumFrameGapMs)
  }

  /** Why a new episode starts with `next`: the first of these differences that is there. */
  ghost predicate StartsFor(reason: Reason, last: Frame, next: Frame, config: Config) {
    var gap := next.timestampMs - last.timestampMs > config.maximumFrameGapMs;
    match reason
    case TelemetryGap => gap
    case SessionChanged => !gap && next.sessionId != last.sessionId
    case WorkloadPhaseChanged =>
      !gap && next.sessionId == last.sessionId && next.workloadPhase != last.workloadPhase
    case ForegroundBehaviorChanged =>
      && !gap && next.sessionId == last.sessionId && next.workloadPhase == last.workloadPhase
      && (next.behaviorClass != last.behaviorClass || next.appFamily != last.appFamily)
    case _ => false
  }

  /** Episode `r` of several: homogeneous, first or last as its reasons say, and valid if it is long and complete. */
  ghost predicate WellMade(e: Episode, r: nat, last: bool, config: Config) {
    && |e.frames| > 0 && Homogeneous(e.frames, config) && e.index == r
    && (e.startReason == FirstFrame <==> r == 0) && (e.endReason == InputExhausted <==> last)
    && (e.valid <==> |e.frames| >= config.minimumFrames && forall f | f in e.frames :: f.collectorsAvailable)
  }

  /** Between two neighbours there is a gap or a difference, the reason why one ends and the other starts. */
  ghost predicate Parted(e: Episode, next: Episode, config: Config) {
    && |e.frames| > 0 && |next.frames| > 0 && e.endReason == next.startReason
    && StartsFor(next.startReason, e.frames[|e.frames| - 1], next.frames[0], config)
  }

  /** What the episodes of a stream are: homogeneous, and each as long as it can be. */
  ghost predicate Segmented(episodes: seq<Episode>, config: Config) {
    && (forall r | 0 <= r < |episodes| :: WellMade(episodes[r], r, r == |episodes| - 1, config))
    && (forall r | 0 < r < |episodes| :: Parted(episodes[r - 1], episodes[r], config))
  }

  lemma BoundaryMeans(previous: Frame, next: Frame, config: Config)
    ensures Boundary(previous, next, config) == None <==>
            SameKey(previous, next) && next.timestampMs - previous.timestampMs <= config.maximumFrameGapMs
    ensures Boundary(previous, next, config).Some? ==>
            StartsFor(Boundary(previous, next, config).value, previous, next, config)
  {
  }

  lemma {:induction false} RunIsHomogeneous(run: seq<Frame>, config: Config)
    requires NoBoundaryInside(run, config)
    ensures Homogeneous(run, config)
  {
    hide Boundary, SameKey;
    forall i | 0 <= i < |run| - 1
      ensures run[i + 1].timestampMs - run[i].timestampMs <= config.maximumFrameGapMs
    {
      assert Boundary(run[i + 1 - 1], run[i + 1], config) == None;
      BoundaryMeans(run[i], run[i + 1], config);
    }
    forall i, j | 0 <= i < |run| && 0 <= j < |run|
      ensures SameKey(run[i], run[j])
    {
      KeyOfFirst(run, i, config);
      KeyOfFirst(run, j, config);
      SameKeyTransitive(run[i], run[0], run[j]);
    }
  }

  lemma SameKeyTransitive(a: Frame, b: Frame, c: Frame)
    ensures SameKey(b, a) && SameKey(b, c) ==> SameKey(a, c)
  {
  }

  lemma {:induction false} KeyOfFirst(run: seq<Frame>, i: nat, config: Config)
    requires NoBoundaryInside(run, config) && i < |run|
    ensures SameKey(run[0], run[i])
  {
    if i > 0 {
      KeyOfFirst(run, i - 1, config);
      BoundaryMeans(run[i - 1], run[i], config);
    }
  }

  lemma AdjoiningIsParted(e: Episode, next: Episode, config: Config)
    requires Adjoins(e, next, config)
    ensures Parted(e, next, config)
    ensures next.startReason != FirstFrame && e.endReason != InputExhausted
  {
    hide Boundary;
    BoundaryMeans(e.frames[|e.frames| - 1], next.frames[0], config);
  }

  lemma {:induction false} EpisodeIsWellMade(episodes: seq<Episode>, runs: seq<seq<Frame>>, r: nat, config: Config)
    requires Describes(episodes, runs, config) && r < |runs| && |runs[r]| > 0 && NoBoundaryInside(runs[r], config)
    requires episodes[r].startReason == FirstFrame <==> r == 0
    requires episodes[r].endReason == InputExhausted <==> r == |episodes| - 1
    ensures WellMade(episodes[r], r, r == |episodes| - 1, config)
  {
    hide Boundary, NoBoundaryInside, Homogeneous, StartReason;
    RunIsHomogeneous(runs[r], config);
  }

  /** The episodes that are built are segmented so. */
  lemma {:induction false} EpisodesAreSegmented(episodes: seq<Episode>, ordered: seq<Frame>, config: Config)
    requires Describes(episodes, Runs(ordered, config), config)
    ensures Segmented(episodes, config) && Concat(FramesOf(episodes)) == ordered
  {
    hide Boundary, Runs, Concat, NoBoundaryInside, Homogeneous, StartReason, EpisodeIs, WellMade, Adjoins, Parted;
    var runs := Runs(ordered, config);
    EpisodesPartitionTheStream(episodes, ordered, config);
    RunsPartition(ordered, config);
    forall r | 0 < r < |episodes|
      ensures Parted(episodes[r - 1], episodes[r], config)
    {
      AdjoiningIsParted(episodes[r - 1], episodes[r], config);
    }
    forall r | 0 <= r < |episodes|
      ensures WellMade(episodes[r], r, r == |episodes| - 1, config)
    {
      if r > 0 {
        AdjoiningIsParted(episodes[r - 1], episodes[r], config);
      }
      if r < |episodes| - 1 {
        assert Adjoins(episodes[r + 1 - 1], episodes[r + 1], config);
        AdjoiningIsParted(episodes[r], episodes[r + 1], config);
      }
      EpisodeIsWellMade(episodes, runs, r, config);
    }
  }

  /** Each part of a concatenation is a slice of it. */
  lemma {:induction false} PartIsSlice(runs: seq<seq<Frame>>, r: nat) returns (start: nat)
    requires r < |runs|
    ensures start + |runs[r]| <= |Concat(runs)| && Concat(runs)[start..start + |runs[r]|] == runs[r]
  {
    var m := |runs| - 1;
    if r == m {
      start := |Concat(runs[..m])|;
    } else {
      start := PartIsSlice(runs[..m], r);
      assert Concat(runs)[start..start + |runs[r]|] == Concat(runs[..m])[start..start + |runs[r]|];
    }
  }

  lemma {:induction false} IncreasingEnds(s: seq<Frame>, low: nat, high: nat)
    requires StrictlyIncreasing(s) && low < high < |s|
    ensures s[low].timestampMs < s[high].timestampMs
    decreases high - low
  {
    if low + 1 < high {
      IncreasingEnds(s, low, high - 1);
    }
  }

  /** For well-formed frames only two things fail: a repeated timestamp, and a run of one frame. */
  lemma {:induction false} WellFormedAcceptance(ordered: seq<Frame>, config: Config)
    requires forall f | f in ordered :: f.foregroundIsObject && f.resourcesUsable
    ensures Acceptable(ordered, config) <==>
            && StrictlyIncreasing(ordered)
            && forall r | 0 <= r < |Runs(ordered, config)| :: |Runs(ordered, config)[r]| >= 2
  {
    hide Boundary, Runs, Concat, NoBoundaryInside;
    var runs := Runs(ordered, config);
    RunsPartition(ordered, config);
    if StrictlyIncreasing(ordered) {
      forall r | 0 <= r < |runs|
        ensures Buildable(runs[r], config) <==> |runs[r]| >= 2
      {
        WellFormedRun(ordered, runs, r, config);
      }
    }
  }

  lemma {:induction false} WellFormedRun(ordered: seq<Frame>, runs: seq<seq<Frame>>, r: nat, config: Config)
    requires forall f | f in ordered :: f.resourcesUsable
    requires StrictlyIncreasing(ordered) && Concat(runs) == ordered && r < |runs|
    ensures Buildable(runs[r], config) <==> |runs[r]| >= 2
  {
    hide Concat, StrictlyIncreasing;
    var start := PartIsSlice(runs, r);
    var run := runs[r];
    assert forall i | 0 <= i < |run| :: run[i] == ordered[start + i];
    if |run| >= 2 {
      IncreasingEnds(ordered, start, start + |run| - 1);
    }
  }
}
