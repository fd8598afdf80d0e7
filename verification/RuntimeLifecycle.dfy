/** Starting and stopping the runtime components, and the health and revision that the state store publishes. */
module RuntimeLifecycle {
  import opened Wrappers

  datatype Component = Collectors | Inference | Storage | Policy | Service | Certificate | Ui

  datatype Mode = MonitorOnly | RecommendationOnly | ManualCanary | RestrictedAutomatic | CertifiedAutomatic

  datatype HealthState = Starting | Healthy | Unavailable | Stopped

  datatype StatusCode =
    | Ok
    | AlreadyRunning
    | InvalidConfiguration
    | StartupFailed
    | CollectorUnavailable
    | InferenceUnavailable
    | StorageUnavailable
    | PolicyUnavailable
    | UiUnavailable
    | ShutdownFailed

  datatype Health = Health(component: Component, state: HealthState, code: StatusCode)

  // ----- one health entry per component -----

  /** The store keeps a list; this is the table that it stands for, later entries winning. */
  function Table(entries: seq<Health>): map<Component, Health> {
    if |entries| == 0 then map[]
    else
      var last := entries[|entries| - 1];
      Table(entries[..|entries| - 1])[last.component := last]
  }

  ghost predicate OnePerComponent(entries: seq<Health>) {
    forall i, j | 0 <= i < j < |entries| :: entries[i].component != entries[j].component
  }

  lemma {:induction false} TableHolds(entries: seq<Health>, i: nat)
    requires OnePerComponent(entries) && i < |entries|
    ensures entries[i].component in Table(entries) && Table(entries)[entries[i].component] == entries[i]
  {
    var n := |entries| - 1;
    if i < n {
      TableHolds(entries[..n], i);
    }
  }

  lemma {:induction false} TableHoldsOnly(entries: seq<Health>, id: Component)
    requires forall i | 0 <= i < |entries| :: entries[i].component != id
    ensures id !in Table(entries)
  {
    if |entries| > 0 {
      TableHoldsOnly(entries[..|entries| - 1], id);
    }
  }

  /** A list with one entry per component and its table have the same entries. */
  lemma {:induction false} TableEntries(entries: seq<Health>)
    requires OnePerComponent(entries)
    ensures forall health :: health in entries <==>
                health.component in Table(entries) && Table(entries)[health.component] == health
    ensures forall id | id in Table(entries) :: Table(entries)[id].component == id
  {
    hide Table, OnePerComponent;
    forall i | 0 <= i < |entries|
      ensures entries[i].component in Table(entries) && Table(entries)[entries[i].component] == entries[i]
    {
      TableHolds(entries, i);
    }
    forall id | id in Table(entries)
      ensures exists i | 0 <= i < |entries| :: entries[i].component == id
    {
      if forall i | 0 <= i < |entries| :: entries[i].component != id {
        TableHoldsOnly(entries, id);
      }
    }
  }

  /** Overwriting the entry of a component in place updates the table at that component. */
  lemma {:induction false} ReplaceUpdates(entries: seq<Health>, k: nat, health: Health)
    requires OnePerComponent(entries) && k < |entries| && entries[k].component == health.component
    ensures OnePerComponent(entries[k := health])
    ensures Table(entries[k := health]) == Table(entries)[health.component := health]
  {
    var n := |entries| - 1;
    var after := entries[k := health];
    if k < n {
      ReplaceUpdates(entries[..n], k, health);
      assert after[..n] == entries[..n][k := health];
      assert entries[n].component != health.component;
    } else {
      assert after[..n] == entries[..n];
    }
  }

  /** What the store hands out. */
  datatype RuntimeSnapshot = RuntimeSnapshot(
    revision: nat,
    mode: Mode,
    componentHealth: seq<Health>,
    runtimeStarted: bool)

  class RuntimeStateStore {
    var revision: nat
    var mode: Mode
    var componentHealth: seq<Health>
    var runtimeStarted: bool

    ghost predicate Valid()
      reads this
    {
      OnePerComponent(componentHealth)
    }

    ghost function Healths(): map<Component, Health>
      reads this
    {
      Table(componentHealth)
    }

    constructor ()
      ensures Valid() && revision == 0 && mode == MonitorOnly && Healths() == map[] && !runtimeStarted
    {
      revision := 0;
      mode := MonitorOnly;
      componentHealth := [];
      runtimeStarted := false;
    }

    /** A snapshot lists each component of the table once, with its entry. */
    method Snapshot() returns (snapshot: RuntimeSnapshot)
      requires Valid()
      ensures snapshot.revision == revision && snapshot.mode == mode && snapshot.runtimeStarted == runtimeStarted
      ensures OnePerComponent(snapshot.componentHealth)
      ensures forall health :: health in snapshot.componentHealth <==>
                  health.component in Healths() && Healths()[health.component] == health
      ensures forall id | id in Healths() :: Healths()[id].component == id
    {
      TableEntries(componentHealth);
      snapshot := RuntimeSnapshot(revision, mode, componentHealth, runtimeStarted);
    }

    method SetMode(mode: Mode)
      modifies `mode, `revision
      ensures this.mode == mode && revision == old(revision) + 1
    {
      this.mode := mode;
      revision := revision + 1;
    }

    method SetRuntimeStarted(started: bool)
      modifies `runtimeStarted, `revision
      ensures runtimeStarted == started && revision == old(revision) + 1
    {
      runtimeStarted := started;
      revision := revision + 1;
    }

    method SetComponentHealth(health: Health)
      requires Valid()
      modifies `componentHealth, `revision
      ensures Valid() && revision == old(revision) + 1
      ensures Healths() == old(Healths())[health.component := health]
    {
      var k := 0;
      while k < |componentHealth| && componentHealth[k].component != health.component
        invariant k <= |componentHealth|
        invariant forall i | 0 <= i < k :: componentHealth[i].component != health.component
      {
        k := k + 1;
      }
      if k == |componentHealth| {
        assert (componentHealth + [health])[..k] == componentHealth;
        componentHealth := componentHealth + [health];
      } else {
        ReplaceUpdates(componentHealth, k, health);
        componentHealth := componentHealth[k := health];
      }
      revision := revision + 1;
    }
  }

  // ----- well-nested starts and stops -----

  /** The calls that components see; a component is named by its position in the start order. */
  datatype Event = Started(index: nat) | Ended(index: nat)

  /**
   * The components that a log leaves started, oldest first, and nothing at all for a log in which
   * some stop does not match the latest start that is still open.
   */
  function Open(log: seq<Event>): Option<seq<nat>> {
    if |log| == 0 then Some([])
    else
      var before := Open(log[..|log| - 1]);
      if before.None? then None
      else match log[|log| - 1]
        case Started(i) => Some(before.value + [i])
        case Ended(i) =>
          var m := |before.value|;
          if m > 0 && before.value[m - 1] == i then Some(before.value[..m - 1]) else None
  }

  function Copies<T(==)>(s: seq<T>, x: T): nat {
    if |s| == 0 then 0 else Copies(s[..|s| - 1], x) + if s[|s| - 1] == x then 1 else 0
  }

  lemma {:induction false} OpenStep(log: seq<Event>)
    requires |log| > 0 && Open(log).Some?
    ensures var n := |log| - 1;
            && Open(log[..n]).Some?
            && var open := Open(log[..n]).value;
               if log[n].Started? then Open(log).value == open + [log[n].index]
               else |open| > 0 && open == Open(log).value + [log[n].index]
  {
  }

  lemma {:induction false} CopiesStep<T>(s: seq<T>, last: T, x: T)
    ensures Copies(s + [last], x) == Copies(s, x) + if last == x then 1 else 0
  {
    assert (s + [last])[..|s|] == s;
  }

  /** Each start has had its stop, except for the components that are still open. */
  lemma {:induction false} StartsBalanceStops(log: seq<Event>, i: nat)
    requires Open(log).Some?
    ensures Copies(log, Started(i)) == Copies(log, Ended(i)) + Copies(Open(log).value, i)
  {
    if |log| > 0 {
      var n := |log| - 1;
      OpenStep(log);
      StartsBalanceStops(log[..n], i);
      var before, after := Open(log[..n]).value, Open(log).value;
      hide Open;
      CopiesStep(if log[n].Started? then before else after, log[n].index, i);
    }
  }

  /** Once nothing is open, every component has been stopped exactly as often as it was started. */
  lemma {:induction false} NothingLeftStarted(log: seq<Event>, i: nat)
    requires Open(log) == Some([])
    ensures Copies(log, Started(i)) == Copies(log, Ended(i))
  {
    StartsBalanceStops(log, i);
  }

  function StopsInReverse(started: seq<nat>): seq<Event> {
    if |started| == 0 then [] else [Ended(started[|started| - 1])] + StopsInReverse(started[..|started| - 1])
  }

  function Starts(count: nat): seq<Event> {
    seq(count, i requires 0 <= i < count => Started(i))
  }

  function Positions(count: nat): (positions: seq<nat>)
    ensures |positions| == count && forall i | 0 <= i < count :: positions[i] == i
  {
    seq(count, i requires 0 <= i < count => i)
  }

  // ----- the orchestrator -----

  /** What a component's own start does: it returns a status, or it throws. */
  datatype Outcome = Returned(code: StatusCode) | Threw

  type HealthTable = map<Component, Health>

  /** The published health after stopping `started`, the latest first. */
  ghost function AfterStops(table: HealthTable, started: seq<Component>): HealthTable
    decreases |started|
  {
    if |started| == 0 then table
    else
      var last := started[|started| - 1];
      AfterStops(table[last := Health(last, Stopped, Ok)], started[..|started| - 1])
  }

  lemma {:induction false} AfterStopsMeans(table: HealthTable, started: seq<Component>, c: Component)
    ensures var after := AfterStops(table, started);
            if c in started then c in after && after[c] == Health(c, Stopped, Ok)
            else (c in after <==> c in table) && (c in table ==> after[c] == table[c])
    decreases |started|
  {
    if |started| > 0 {
      var last := started[|started| - 1];
      AfterStopsMeans(table[last := Health(last, Stopped, Ok)], started[..|started| - 1], c);
    }
  }

  /** The published health after starting `started`, in order, all of them well. */
  ghost function AfterStarts(table: HealthTable, started: seq<Component>): HealthTable {
    if |started| == 0 then table
    else
      var last := started[|started| - 1];
      AfterStarts(table, started[..|started| - 1])[last := Health(last, Healthy, Ok)]
  }

  lemma {:induction false} AfterStartsMeans(table: HealthTable, started: seq<Component>, c: Component)
    ensures var after := AfterStarts(table, started);
            if c in started then c in after && after[c] == Health(c, Healthy, Ok)
            else (c in after <==> c in table) && (c in table ==> after[c] == table[c])
  {
    if |started| > 0 {
      AfterStartsMeans(table, started[..|started| - 1], c);
    }
  }

  ghost predicate WithinRange(positions: seq<nat>, count: nat) {
    forall j | 0 <= j < |positions| :: positions[j] < count
  }

  /** The components at some positions. */
  ghost function At(components: seq<Component>, positions: seq<nat>): seq<Component>
    requires WithinRange(positions, |components|)
  {
    seq(|positions|, j requires 0 <= j < |positions| => components[positions[j]])
  }

  /** How many components start well before the first that does not. */
  ghost function Leading(outcomes: seq<Outcome>): (count: nat)
    ensures count <= |outcomes| && (forall i | 0 <= i < count :: outcomes[i] == Returned(Ok))
    ensures count < |outcomes| ==> outcomes[count] != Returned(Ok)
  {
    if |outcomes| > 0 && outcomes[0] == Returned(Ok) then 1 + Leading(outcomes[1..]) else 0
  }

  class RuntimeOrchestrator {
    const store: RuntimeStateStore
    const components: seq<Component>
    var startedComponents: seq<nat>
    var running: bool
    /** The calls made so far, whether a start has thrown since the last stop, and whether the store's flag is ours. */
    ghost var log: seq<Event>
    ghost var interrupted: bool
    ghost var synchronized: bool

    ghost predicate Valid()
      reads this, store
    {
      && store.Valid()
      && Open(log) == Some(startedComponents)
      && WithinRange(startedComponents, |components|)
      && (synchronized ==> store.runtimeStarted == running) && (running ==> synchronized)
      && (!interrupted ==> startedComponents == if running then Positions(|components|) else [])
    }

    constructor (store: RuntimeStateStore, components: seq<Component>)
      requires store.Valid()
      ensures Valid() && !running && !interrupted && log == [] && synchronized == !store.runtimeStarted
      ensures this.store == store && this.components == components
    {
      this.store := store;
      this.components := components;
      startedComponents := [];
      running := false;
      log := [];
      interrupted := false;
      synchronized := !store.runtimeStarted;
    }

    method RecordHealth(component: Component, state: HealthState, code: StatusCode)
      requires store.Valid()
      modifies store`componentHealth, store`revision
      ensures store.Valid() && store.revision == old(store.revision) + 1
      ensures store.Healths() == old(store.Healths())[component := Health(component, state, code)]
    {
      store.SetComponentHealth(Health(component, state, code));
    }

    /** Everything that is started is stopped, the latest first, exactly once; nothing is left. */
    method Stop()
      requires Valid()
      modifies this, store`componentHealth, store`revision, store`runtimeStarted
      ensures Valid() && !running && !store.runtimeStarted && startedComponents == [] && !interrupted && synchronized
      ensures log == old(log) + StopsInReverse(old(startedComponents))
      ensures store.revision == old(store.revision) + |old(startedComponents)| + 1
      ensures store.Healths() == AfterStops(old(store.Healths()), At(components, old(startedComponents)))
    {
      hide Table, Open, StopsInReverse, AfterStops, OnePerComponent, Positions;
      var k := |startedComponents|;
      ghost var ids := At(components, startedComponents);
      ghost var all := StopsInReverse(startedComponents);
      assert startedComponents[..k] == startedComponents && ids[..k] == ids;
      while k > 0
        invariant 0 <= k <= |startedComponents| && startedComponents == old(startedComponents)
        invariant store.Valid() && Open(log) == Some(startedComponents[..k])
        invariant log + StopsInReverse(startedComponents[..k]) == old(log) + all
        invariant store.revision == old(store.revision) + |startedComponents| - k
        invariant AfterStops(store.Healths(), ids[..k]) == AfterStops(old(store.Healths()), ids)
      {
        k := k - 1;
        var index := startedComponents[k];
        StopOne(log, startedComponents[..k + 1]);
        AfterStopsStep(store.Healths(), ids[..k + 1]);
        assert startedComponents[..k + 1][..k] == startedComponents[..k] && ids[..k + 1][..k] == ids[..k];
        log := log + [Ended(index)];
        RecordHealth(components[index], Stopped, Ok);
      }
      NoStops(log);
      AfterNoStops(store.Healths());
      assert startedComponents[..0] == [] && ids[..0] == [];
      startedComponents := [];
      running := false;
      interrupted := false;
      synchronized := true;
      store.SetRuntimeStarted(false);
    }

    /**
     * Starts the components in order. All of them run, or a refusing one has everything stopped again;
     * only a start that throws leaves the ones before it started until the next stop.
     */
    method Start(outcomes: seq<Outcome>) returns (result: Outcome)
      requires Valid() && |outcomes| == |components|
      modifies this, store`componentHealth, store`revision, store`runtimeStarted
      ensures Valid() && synchronized == (old(synchronized) || result != Threw)
      ensures old(running) ==> result == Returned(AlreadyRunning) && unchanged(this) && unchanged(store)
      ensures !old(running) ==>
                var k := Leading(outcomes);
                if k == |components| then
                  && result == Returned(Ok) && running && store.runtimeStarted
                  && startedComponents == old(startedComponents) + Positions(k)
                  && log == old(log) + Starts(k)
                  && store.revision == old(store.revision) + 2 * k + 1
                  && store.Healths() == AfterStarts(old(store.Healths()), components)
                else if outcomes[k] == Threw then
                  && result == Threw && !running && interrupted && store.runtimeStarted == old(store.runtimeStarted)
                  && startedComponents == old(startedComponents) + Positions(k)
                  && log == old(log) + Starts(k)
                  && store.revision == old(store.revision) + 2 * k + 1
                  && store.Healths() == AfterStarts(old(store.Healths()), components[..k])
                                        [components[k] := Health(components[k], Starting, Ok)]
                else
                  && result == outcomes[k] && !running && !interrupted && !store.runtimeStarted
                  && startedComponents == []
                  && log == old(log) + Starts(k) + StopsInReverse(old(startedComponents) + Positions(k))
                  && store.revision == old(store.revision) + 2 * k + 2 + |old(startedComponents) + Positions(k)| + 1
                  && store.Healths() == AfterRefusal(old(store.Healths()), components, k, outcomes[k].code,
                                                     old(startedComponents))
    {
      hide Table, Open, StopsInReverse, AfterStops, AfterStarts, OnePerComponent, Leading, Starts, Positions, At;
      if running {
        return Returned(AlreadyRunning);
      }
      NoStarts(log, startedComponents, store.Healths());
      assert components[..0] == [];
      for i := 0 to |components|
        invariant store.Valid() && !running
        invariant forall j | 0 <= j < i :: outcomes[j] == Returned(Ok)
        invariant log == old(log) + Starts(i) && Open(log) == Some(startedComponents)
        invariant startedComponents == old(startedComponents) + Positions(i)
        invariant WithinRange(startedComponents, |components|)
        invariant store.revision == old(store.revision) + 2 * i && store.runtimeStarted == old(store.runtimeStarted)
        invariant interrupted == old(interrupted) && synchronized == old(synchronized)
        invariant store.Healths() == AfterStarts(old(store.Healths()), components[..i])
      {
        var id := components[i];
        ghost var before := store.Healths();
        RecordHealth(id, HealthState.Starting, Ok);
        if outcomes[i] != Returned(Ok) {
          LeadingIs(outcomes, i);
          if outcomes[i] == Threw {
            interrupted := true;
            return Threw;
          }
          RecordHealth(id, Unavailable, outcomes[i].code);
          interrupted := true;
          assert before[id := Health(id, HealthState.Starting, Ok)][id := Health(id, Unavailable, outcomes[i].code)]
                 == before[id := Health(id, Unavailable, outcomes[i].code)];
          Stop();
          return outcomes[i];
        }
        StartOne(log, startedComponents, old(log), old(startedComponents), i);
        AfterStartsStep(old(store.Healths()), components, i);
        startedComponents := startedComponents + [i];
        log := log + [Started(i)];
        RecordHealth(id, Healthy, Ok);
      }
      LeadingIs(outcomes, |components|);
      assert components[..|components|] == components;
      assert !interrupted ==> startedComponents == Positions(|components|);
      running := true;
      synchronized := true;
      store.SetRuntimeStarted(true);
      result := Returned(Ok);
    }
  }

  /** The published health after `k` starts, the refusal of the next component, and the stop of everything started. */
  ghost function AfterRefusal(table: HealthTable, components: seq<Component>, k: nat, code: StatusCode,
                              leftover: seq<nat>): HealthTable
    requires k < |components| && WithinRange(leftover, |components|)
  {
    AfterStops(AfterStarts(table, components[..k])[components[k] := Health(components[k], Unavailable, code)],
               At(components, leftover + Positions(k)))
  }

  /** After a refusal the refusing component shows its own status, and all that had started show as stopped. */
  lemma {:induction false} RefusalIsPublished(table: HealthTable, components: seq<Component>, k: nat, code: StatusCode,
                                              leftover: seq<nat>, c: Component)
    requires k < |components| && WithinRange(leftover, |components|)
    ensures var after := AfterRefusal(table, components, k, code, leftover);
            var stopped := At(components, leftover + Positions(k));
            && (c in stopped ==> c in after && after[c] == Health(c, Stopped, Ok))
            && (c !in stopped && c == components[k] ==> c in after && after[c] == Health(c, Unavailable, code))
            && (c !in stopped && c != components[k] ==>
                  (c in after <==> c in table) && (c in table ==> after[c] == table[c]))
  {
    hide AfterStops, AfterStarts;
    var stopped := At(components, leftover + Positions(k));
    var refused := AfterStarts(table, components[..k])[components[k] := Health(components[k], Unavailable, code)];
    AfterStopsMeans(refused, stopped, c);
    AfterStartsMeans(table, components[..k], c);
    forall i | 0 <= i < k
      ensures components[i] in stopped
    {
      assert stopped[|leftover| + i] == components[i];
    }
  }

  lemma {:induction false} NoStarts(log: seq<Event>, started: seq<nat>, table: HealthTable)
    ensures log + Starts(0) == log && started + Positions(0) == started && AfterStarts(table, []) == table
  {
  }

  lemma {:induction false} LeadingIs(outcomes: seq<Outcome>, k: nat)
    requires k <= |outcomes| && forall i | 0 <= i < k :: outcomes[i] == Returned(Ok)
    requires k < |outcomes| ==> outcomes[k] != Returned(Ok)
    ensures Leading(outcomes) == k
  {
    if k > 0 {
      LeadingIs(outcomes[1..], k - 1);
    }
  }

  lemma {:induction false} StartOne(log: seq<Event>, open: seq<nat>, log0: seq<Event>, open0: seq<nat>, i: nat)
    requires log == log0 + Starts(i) && Open(log) == Some(open) && open == open0 + Positions(i)
    ensures log + [Started(i)] == log0 + Starts(i + 1) && open + [i] == open0 + Positions(i + 1)
    ensures Open(log + [Started(i)]) == Some(open + [i])
  {
    assert (log + [Started(i)])[..|log|] == log;
  }

  lemma {:induction false} AfterStartsStep(table: HealthTable, components: seq<Component>, i: nat)
    requires i < |components|
    ensures AfterStarts(table, components[..i + 1])
            == AfterStarts(table, components[..i])[components[i] := Health(components[i], Starting, Ok)]
                                                  [components[i] := Health(components[i], Healthy, Ok)]
  {
    assert components[..i + 1][..i] == components[..i];
  }

  lemma {:induction false} AfterStopsStep(table: HealthTable, started: seq<Component>)
    requires |started| > 0
    ensures var last := started[|started| - 1];
            AfterStops(table, started) == AfterStops(table[last := Health(last, Stopped, Ok)], started[..|started| - 1])
  {
  }

  lemma AfterNoStops(table: HealthTable)
    ensures AfterStops(table, []) == table
  {
  }

  lemma {:induction false} NoStops(log: seq<Event>)
    ensures log + StopsInReverse([]) == log
  {
  }

  /** Stopping the latest open component. */
  lemma {:induction false} StopOne(log: seq<Event>, open: seq<nat>)
    requires Open(log) == Some(open) && |open| > 0
    ensures var m := |open| - 1;
            && Open(log + [Ended(open[m])]) == Some(open[..m])
            && (log + [Ended(open[m])]) + StopsInReverse(open[..m]) == log + StopsInReverse(open)
  {
    assert (log + [Ended(open[|open| - 1])])[..|log|] == log;
  }
}
