/** The versions and Hook routes of one Flow, under interleaved publishing, pausing and archiving, with route
    activation failing at will. A graph is stored together with everything compiled from it. */
module FlowVersions {
  import opened Text

  type Graph = string

  datatype FlowStatus = Draft | Published | Paused | Archived

  datatype VersionStatus = Live | Retired

  datatype Version = Version(graph: Graph, status: VersionStatus)

  /** `active` is the active version number, 0 before the first publication. `routes` says of each version that
      ever had a Hook route whether it is active. */
  datatype Flow = Flow(status: FlowStatus, active: nat, versions: map<nat, Version>, routes: map<nat, bool>)

  // ---------- The statements and transactions ----------

  predicate IsMax(versions: map<nat, Version>, n: nat) {
    (n == 0 || n in versions) && forall v | v in versions :: v <= n
  }

  /** NextFlowVersion. */
  predicate IsNext(f: Flow, n: nat) {
    n >= 1 && IsMax(f.versions, n - 1)
  }

  function Retire(versions: map<nat, Version>): map<nat, Version> {
    map v | v in versions :: versions[v].(status := Retired)
  }

  /** SaveFlowVersion for a version to be published: saving the very same version again is no error. */
  function Save(f: Flow, n: nat, graph: Graph): (Flow, bool) {
    if n == 0 then (f, false)
    else if n in f.versions then (f, f.versions[n] == Version(graph, Live))
    else (f.(versions := Retire(f.versions)[n := Version(graph, Live)], status := Published, active := n), true)
  }

  /** ActivateHookRoute. */
  function Activate(f: Flow, n: nat): Flow {
    f.(routes := (map v | v in f.routes :: false)[n := true])
  }

  /** DisableHookRoutesForFlow; version 0 stands for all. */
  function Disable(f: Flow, n: nat): Flow {
    f.(routes := map v | v in f.routes :: if n == 0 || v == n then false else f.routes[v])
  }

  /** The versions whose route ListHookRoutesForProject returns. */
  function Listed(f: Flow): set<nat> {
    set v | v in f.routes && f.routes[v] && f.status.Published? && v in f.versions && f.versions[v].status.Live?
  }

  class Store {
    var flow: Flow

    constructor ()
      ensures flow == Flow(Draft, 0, map[], map[])
    {
      flow := Flow(Draft, 0, map[], map[]);
    }

    method NextFlowVersion() returns (n: nat)
      ensures IsNext(flow, n)
    {
      var highest := 0;
      var rest := flow.versions.Keys;
      while rest != {}
        invariant rest <= flow.versions.Keys
        invariant highest == 0 || highest in flow.versions
        invariant forall v | v in flow.versions && v !in rest :: v <= highest
      {
        ghost var _ := Member(rest);
        var v :| v in rest;
        if v > highest {
          highest := v;
        }
        rest := rest - {v};
      }
      return highest + 1;
    }

    method SaveFlowVersion(n: nat, graph: Graph) returns (ok: bool)
      modifies this
      ensures (flow, ok) == Save(old(flow), n, graph)
    {
      if n == 0 {
        return false;
      }
      if n in flow.versions {
        return flow.versions[n].graph == graph && flow.versions[n].status.Live?;
      }
      var versions := Retire(flow.versions);
      versions := versions[n := Version(graph, Live)];
      flow := flow.(versions := versions, status := Published, active := n);
      return true;
    }

    method ActivateHookRoute(n: nat)
      modifies this
      ensures flow == Activate(old(flow), n)
    {
      var routes := flow.routes[n := true];
      routes := map v | v in routes :: if v == n then routes[v] else false;
      assert routes == (map v | v in flow.routes :: false)[n := true];
      flow := flow.(routes := routes);
    }

    method DisableHookRoutesForFlow(n: nat) returns (found: bool)
      modifies this
      ensures flow == Disable(old(flow), n)
    {
      found := exists v | v in flow.routes :: n == 0 || v == n;
      flow := flow.(routes := map v | v in flow.routes :: if n == 0 || v == n then false else flow.routes[v]);
    }

    /** Publish, from start to end without interference. `valid` says whether the draft validates and compiles,
        `activates` whether the Hook and its route can be set up. */
    method Publish(draft: Graph, valid: bool, activates: bool) returns (version: Option<nat>)
      requires Sound(flow)
      modifies this
      ensures Sound(flow)
      ensures version.Some? <==> !old(flow).status.Archived? && valid && activates
      ensures version.Some? ==>
        version.value == old(flow).active + 1 && version.value in flow.versions
          && flow.versions[version.value].graph == draft && Listed(flow) == {version.value}
      ensures flow ==
        if old(flow).status.Archived? || !valid then old(flow) else PublishedAs(old(flow), draft, activates)
      ensures version.None? && flow != old(flow) ==> flow.status.Paused? && Listed(flow) == {}
    {
      if flow.status.Archived? || !valid {
        return None;
      }
      var n := NextFlowVersion();
      SoundNext(flow, n);
      SaveNext(flow, draft);
      ActivateSaved(flow, draft);
      PausedInstead(flow, draft);
      PublishedSound(flow, draft, activates);
      hide Save, Activate, PublishedAs, Sound, Listed, IsNext;
      var saved := SaveFlowVersion(n, draft);
      if !activates {
        flow := flow.(status := Paused);
        return None;
      }
      ActivateHookRoute(n);
      return Some(n);
    }

    /** Pause; `requested` 0 stands for the active version. */
    method Pause(requested: nat) returns (ok: bool)
      requires Sound(flow)
      modifies this
      ensures Sound(flow) && flow.versions == old(flow).versions && flow.active == old(flow).active
      ensures ok <==>
        old(flow).status.Published? && (requested == 0 || requested in old(flow).versions) && old(flow).active > 0
      ensures ok ==> flow == RouteDisabled(old(flow), PauseVersion(old(flow), requested), Paused) && Listed(flow) == {}
      ensures !ok ==> flow == old(flow)
    {
      if !flow.status.Published? {
        return false;
      }
      var n := if requested > 0 then requested else flow.active;
      if n == 0 || n !in flow.versions {
        return false;
      }
      var _ := DisableHookRoutesForFlow(n);
      flow := flow.(status := Paused);
      return true;
    }

    method Archive() returns (ok: bool)
      requires Sound(flow)
      modifies this
      ensures Sound(flow) && flow.versions == old(flow).versions && flow.active == old(flow).active
      ensures ok <==> old(flow).status.Published? || old(flow).status.Paused?
      ensures ok && old(flow).active > 0 ==> flow == RouteDisabled(old(flow), old(flow).active, Archived)
      ensures ok && old(flow).active == 0 ==> flow == old(flow).(status := Archived)
      ensures ok ==> Listed(flow) == {}
      ensures ok && flow.active in flow.routes && flow.active > 0 ==> !flow.routes[flow.active]
      ensures !ok ==> flow == old(flow)
    {
      if !flow.status.Published? && !flow.status.Paused? {
        return false;
      }
      if flow.active > 0 {
        var _ := DisableHookRoutesForFlow(flow.active);
      }
      flow := flow.(status := Archived);
      return true;
    }
  }

  // ---------- What every interleaving keeps ----------

  /** Version numbers are 1 to n, the last one is live and active and the others are retired, and at most one
      route is active. */
  ghost predicate Sound(f: Flow) {
    && (forall v :: v in f.versions <==> 1 <= v <= f.active)
    && (forall v | v in f.versions :: f.versions[v].status.Live? <==> v == f.active)
    && (forall v, w | v in f.routes && w in f.routes && f.routes[v] && f.routes[w] :: v == w)
  }

  lemma SoundNext(f: Flow, n: nat)
    requires Sound(f) && IsNext(f, n)
    ensures n == f.active + 1
  {
    assert f.active == 0 || f.active in f.versions;
  }

  lemma SaveSound(f: Flow, n: nat, graph: Graph)
    requires Sound(f) && n <= f.active + 1
    ensures Sound(Save(f, n, graph).0)
  {
  }

  /** Ingress lists no other version than the active one, and only while the Flow is published. */
  lemma ListedIsActive(f: Flow)
    requires Sound(f)
    ensures Listed(f) ==
      if f.status.Published? && f.active in f.routes && f.routes[f.active] && f.active > 0 then {f.active} else {}
  {
  }

  // ---------- Interleaved requests ----------

  /** Publishing: checked, numbered, saved. Pausing: checked, then only the status left to write. Archiving
      likewise. */
  datatype Stage =
    | Checked(graph: Graph)
    | Numbered(graph: Graph, n: nat)
    | Saved(n: nat)
    | PauseChecked(n: nat)
    | PauseDisabled
    | ArchiveChecked(n: nat)
    | ArchiveDisabled

  datatype System = System(flow: Flow, requests: map<nat, Stage>)

  datatype Action =
    | StartPublish(r: nat, graph: Graph)
    | Number(r: nat, n: nat)
    | SaveVersion(r: nat)
    | ActivateRoute(r: nat)
    | FailActivation(r: nat)
    | StartPause(r: nat, requested: nat)
    | StartArchive(r: nat)
    | DisableRoute(r: nat)
    | WriteStatus(r: nat)
    | Abandon(r: nat)

  function Go(s: System, r: nat, stage: Stage): System {
    s.(requests := s.requests[r := stage])
  }

  function End(s: System, r: nat, flow: Flow): System {
    System(flow, s.requests - {r})
  }

  /** An action that is not enabled changes nothing. */
  ghost function Do(s: System, a: Action): System {
    match a
    case StartPublish(r, graph) =>
      if r !in s.requests && !s.flow.status.Archived? then Go(s, r, Checked(graph)) else s
    case Number(r, n) =>
      if r in s.requests && s.requests[r].Checked? && IsNext(s.flow, n)
      then Go(s, r, Numbered(s.requests[r].graph, n)) else s
    case SaveVersion(r) =>
      if r in s.requests && s.requests[r].Numbered? then
        var n := s.requests[r].n;
        var saved := Save(s.flow, n, s.requests[r].graph);
        if saved.1 then Go(s.(flow := saved.0), r, Saved(n)) else End(s, r, s.flow)
      else s
    case ActivateRoute(r) =>
      if r in s.requests && s.requests[r].Saved? then End(s, r, Activate(s.flow, s.requests[r].n)) else s
    case FailActivation(r) =>
      if r in s.requests && s.requests[r].Saved? then End(s, r, s.flow.(status := Paused)) else s
    case StartPause(r, requested) =>
      var n := if requested > 0 then requested else s.flow.active;
      if r !in s.requests && s.flow.status.Published? && n > 0 then Go(s, r, PauseChecked(n)) else s
    case StartArchive(r) =>
      if r !in s.requests && (s.flow.status.Published? || s.flow.status.Paused?) then
        Go(s, r, if s.flow.active > 0 then ArchiveChecked(s.flow.active) else ArchiveDisabled)
      else s
    case DisableRoute(r) =>
      if r in s.requests && s.requests[r].PauseChecked? && s.requests[r].n !in s.flow.versions then End(s, r, s.flow)
      else if r in s.requests && s.requests[r].PauseChecked? then
        Go(s.(flow := Disable(s.flow, s.requests[r].n)), r, PauseDisabled)
      else if r in s.requests && s.requests[r].ArchiveChecked? then
        Go(s.(flow := Disable(s.flow, s.requests[r].n)), r, ArchiveDisabled)
      else s
    case WriteStatus(r) =>
      if r in s.requests && s.requests[r].PauseDisabled? then End(s, r, s.flow.(status := Paused))
      else if r in s.requests && s.requests[r].ArchiveDisabled? then End(s, r, s.flow.(status := Archived))
      else s
    case Abandon(r) => End(s, r, s.flow)
  }

  ghost function Run(s: System, actions: seq<Action>): System {
    if actions == [] then s else Do(Run(s, actions[..|actions| - 1]), actions[|actions| - 1])
  }

  /** A number handed out is at most one beyond the last version. */
  ghost predicate Inv(s: System) {
    Sound(s.flow) && forall r | r in s.requests && s.requests[r].Numbered? :: s.requests[r].n <= s.flow.active + 1
  }

  lemma StepInv(s: System, a: Action)
    requires Inv(s)
    ensures Inv(Do(s, a))
  {
    match a
    case Number(r, n) => if IsNext(s.flow, n) { SoundNext(s.flow, n); }
    case SaveVersion(r) =>
      if r in s.requests && s.requests[r].Numbered? {
        SaveSound(s.flow, s.requests[r].n, s.requests[r].graph);
      }
    case _ =>
  }

  /** Version and route safety: however publications, pauses, archivings and failed activations interleave, the
      version numbers stay 1 to n, exactly the active version is live, and ingress lists no other. */
  lemma {:induction false} RunInv(s: System, actions: seq<Action>)
    requires Inv(s)
    ensures Inv(Run(s, actions))
    ensures Listed(Run(s, actions).flow) <= {Run(s, actions).flow.active}
  {
    if actions != [] {
      RunInv(s, actions[..|actions| - 1]);
      StepInv(Run(s, actions[..|actions| - 1]), actions[|actions| - 1]);
    }
    ListedIsActive(Run(s, actions).flow);
  }

  lemma StepKeepsGraph(s: System, a: Action, v: nat)
    requires v in s.flow.versions
    ensures v in Do(s, a).flow.versions && Do(s, a).flow.versions[v].graph == s.flow.versions[v].graph
  {
  }

  /** A stored version is never changed or removed. */
  lemma {:induction false} GraphsAreImmutable(s: System, actions: seq<Action>, v: nat)
    requires v in s.flow.versions
    ensures v in Run(s, actions).flow.versions && Run(s, actions).flow.versions[v].graph == s.flow.versions[v].graph
  {
    if actions != [] {
      GraphsAreImmutable(s, actions[..|actions| - 1], v);
      StepKeepsGraph(Run(s, actions[..|actions| - 1]), actions[|actions| - 1], v);
    }
  }

  // ---------- A request on its own ----------

  /** The Flow after publishing the graph as its next version: the others are retired, and only the new route is
      active. If activation fails the version stays and the Flow is paused. */
  function PublishedAs(f: Flow, graph: Graph, activates: bool): Flow {
    var n := f.active + 1;
    Flow(if activates then Published else Paused, n,
         map v | v in f.versions.Keys + {n} ::
           if v == n then Version(graph, Live) else Version(f.versions[v].graph, Retired),
         if activates then map v | v in f.routes.Keys + {n} :: v == n else f.routes)
  }

  /** The Flow with a new status and the route of one version disabled; version 0 has no route. */
  function RouteDisabled(f: Flow, n: nat, status: FlowStatus): Flow {
    Flow(status, f.active, f.versions, map v | v in f.routes :: f.routes[v] && v != n)
  }

  lemma RunFour(s: System, a: Action, b: Action, c: Action, d: Action)
    ensures Run(s, [a, b, c, d]) == Do(Do(Do(Do(s, a), b), c), d)
  {
    RunTwo(s, a, b);
    RunTwo(Run(s, [a, b]), c, d);
    RunAppend(s, [a, b], [c, d]);
    assert [a, b] + [c, d] == [a, b, c, d];
  }

  lemma RunThree(s: System, a: Action, b: Action, c: Action)
    ensures Run(s, [a, b, c]) == Do(Do(Do(s, a), b), c)
  {
    RunTwo(s, a, b);
    RunOne(Run(s, [a, b]), c);
    RunAppend(s, [a, b], [c]);
    assert [a, b] + [c] == [a, b, c];
  }

  lemma SaveNext(f: Flow, graph: Graph)
    requires Sound(f)
    ensures var n := f.active + 1;
      && IsNext(f, n) && Save(f, n, graph).1
      && Save(f, n, graph).0 == PublishedAs(f, graph, true).(routes := f.routes)
  {
  }

  lemma ActivateSaved(f: Flow, graph: Graph)
    ensures Activate(PublishedAs(f, graph, true).(routes := f.routes), f.active + 1) == PublishedAs(f, graph, true)
  {
    assert Activate(PublishedAs(f, graph, true).(routes := f.routes), f.active + 1).routes
        == PublishedAs(f, graph, true).routes;
  }

  /** An undisturbed publication, and the refusal of one of an archived Flow. */
  lemma PublishAlone(f: Flow, r: nat, graph: Graph, activates: bool)
    requires Sound(f)
    ensures f.status.Archived? ==> Do(System(f, map[]), StartPublish(r, graph)) == System(f, map[])
    ensures !f.status.Archived? ==>
      Run(System(f, map[]), [StartPublish(r, graph), Number(r, f.active + 1), SaveVersion(r),
                             if activates then ActivateRoute(r) else FailActivation(r)])
      == System(PublishedAs(f, graph, activates), map[])
  {
    hide Do, Save, Activate, PublishedAs, IsNext, Sound;
    if f.status.Archived? {
      ArchivedRefuses(f, r, graph);
    } else {
      var last := if activates then ActivateRoute(r) else FailActivation(r);
      RunFour(System(f, map[]), StartPublish(r, graph), Number(r, f.active + 1), SaveVersion(r), last);
      PublishSaves(f, r, graph);
      ActivateSaved(f, graph);
      PausedInstead(f, graph);
      LastStep(PublishedAs(f, graph, true).(routes := f.routes), r, f.active + 1);
    }
  }

  lemma ArchivedRefuses(f: Flow, r: nat, graph: Graph)
    requires f.status.Archived?
    ensures Do(System(f, map[]), StartPublish(r, graph)) == System(f, map[])
  {
  }

  lemma PublishSaves(f: Flow, r: nat, graph: Graph)
    requires Sound(f) && !f.status.Archived?
    ensures Do(Do(Do(System(f, map[]), StartPublish(r, graph)), Number(r, f.active + 1)), SaveVersion(r))
         == System(PublishedAs(f, graph, true).(routes := f.routes), map[r := Saved(f.active + 1)])
  {
    var n := f.active + 1;
    SaveNext(f, graph);
    hide Save, PublishedAs, IsNext, Sound;
    assert Do(System(f, map[]), StartPublish(r, graph)) == System(f, map[r := Checked(graph)]);
    assert Do(System(f, map[r := Checked(graph)]), Number(r, n)) == System(f, map[r := Numbered(graph, n)]);
  }

  lemma LastStep(f: Flow, r: nat, n: nat)
    ensures Do(System(f, map[r := Saved(n)]), ActivateRoute(r)) == System(Activate(f, n), map[])
    ensures Do(System(f, map[r := Saved(n)]), FailActivation(r)) == System(f.(status := Paused), map[])
  {
    hide Activate;
    assert map[r := Saved(n)] - {r} == map[];
  }

  lemma PausedInstead(f: Flow, graph: Graph)
    ensures PublishedAs(f, graph, true).(routes := f.routes).(status := Paused) == PublishedAs(f, graph, false)
  {
  }

  lemma PublishedSound(f: Flow, graph: Graph, activates: bool)
    requires Sound(f)
    ensures var f', n := PublishedAs(f, graph, activates), f.active + 1;
      && Sound(f') && n in f'.versions && f'.versions[n].graph == graph
      && f'.status == (if activates then Published else Paused) && Listed(f') == if activates then {n} else {}
  {
  }

  /** The version a pause is about: the one asked for, or else the active one. */
  function PauseVersion(f: Flow, requested: nat): nat {
    if requested == 0 then f.active else requested
  }

  /** An undisturbed pause of a published Flow with a known version; any other changes nothing. */
  lemma PauseAlone(f: Flow, r: nat, requested: nat)
    requires Sound(f)
    ensures Run(System(f, map[]), [StartPause(r, requested), DisableRoute(r), WriteStatus(r)])
         == System(if f.status.Published? && PauseVersion(f, requested) in f.versions
                   then RouteDisabled(f, PauseVersion(f, requested), Paused) else f, map[])
  {
    var s, n := System(f, map[]), PauseVersion(f, requested);
    RunThree(s, StartPause(r, requested), DisableRoute(r), WriteStatus(r));
    if f.status.Published? && n > 0 {
      assert Do(s, StartPause(r, requested)) == System(f, map[r := PauseChecked(n)]);
      DisableOne(f, n);
      assert map[r := PauseChecked(n)] - {r} == map[] && map[r := PauseDisabled] - {r} == map[];
    }
  }

  lemma DisableOne(f: Flow, n: nat)
    requires n > 0
    ensures Disable(f, n).(status := Paused) == RouteDisabled(f, n, Paused)
    ensures Disable(f, n).(status := Archived) == RouteDisabled(f, n, Archived)
  {
    assert Disable(f, n).routes == RouteDisabled(f, n, Paused).routes;
  }

  /** An undisturbed archiving of a published or paused Flow; any other changes nothing. */
  lemma ArchiveAlone(f: Flow, r: nat)
    requires Sound(f) && 0 !in f.routes
    ensures Run(System(f, map[]), [StartArchive(r), DisableRoute(r), WriteStatus(r)])
         == System(if f.status.Published? || f.status.Paused? then RouteDisabled(f, f.active, Archived) else f, map[])
  {
    var s := System(f, map[]);
    RunThree(s, StartArchive(r), DisableRoute(r), WriteStatus(r));
    if f.status.Published? || f.status.Paused? {
      if f.active > 0 {
        assert Do(s, StartArchive(r)) == System(f, map[r := ArchiveChecked(f.active)]);
        DisableOne(f, f.active);
      } else {
        assert RouteDisabled(f, 0, Archived).routes == f.routes;
      }
      assert map[r := ArchiveDisabled] - {r} == map[];
    }
  }

  // ---------- When archived is final ----------

  /** The request cannot write any status but archived. */
  predicate Harmless(f: Flow, stage: Stage) {
    match stage
    case Numbered(graph, n) => !Save(f, n, graph).1
    case PauseChecked(n) => n !in f.versions
    case ArchiveChecked(_) => true
    case ArchiveDisabled => true
    case _ => false
  }

  ghost predicate Quiet(s: System) {
    forall r | r in s.requests :: Harmless(s.flow, s.requests[r])
  }

  lemma StepQuiet(s: System, a: Action)
    requires s.flow.status.Archived? && Quiet(s)
    ensures Do(s, a).flow.status.Archived? && Quiet(Do(s, a))
  {
  }

  lemma {:induction false} QuietRun(s: System, actions: seq<Action>)
    requires s.flow.status.Archived? && Quiet(s)
    ensures Run(s, actions).flow.status.Archived? && Quiet(Run(s, actions))
  {
    if actions != [] {
      QuietRun(s, actions[..|actions| - 1]);
      StepQuiet(Run(s, actions[..|actions| - 1]), actions[|actions| - 1]);
    }
  }

  lemma RunOne(s: System, a: Action)
    ensures Run(s, [a]) == Do(s, a)
  {
    assert [a][..0] == [];
    assert Run(s, [a][..0]) == s;
  }

  lemma RunTwo(s: System, a: Action, b: Action)
    ensures Run(s, [a, b]) == Do(Do(s, a), b)
  {
    RunOne(s, a);
    assert [a, b][..1] == [a];
  }

  lemma HarmfulRevives(s: System, r: nat) returns (actions: seq<Action>)
    requires Inv(s) && s.flow.status.Archived? && r in s.requests && !Harmless(s.flow, s.requests[r])
    ensures !Run(s, actions).flow.status.Archived?
  {
    match s.requests[r]
    case Checked(graph) =>
      assert IsNext(s.flow, s.flow.active + 1);
      actions := [Number(r, s.flow.active + 1), SaveVersion(r)];
      RunTwo(s, Number(r, s.flow.active + 1), SaveVersion(r));
    case Numbered(graph, n) =>
      actions := [SaveVersion(r), FailActivation(r)];
      RunTwo(s, SaveVersion(r), FailActivation(r));
    case Saved(n) =>
      actions := [FailActivation(r)];
      RunOne(s, FailActivation(r));
    case PauseChecked(n) =>
      actions := [DisableRoute(r), WriteStatus(r)];
      RunTwo(s, DisableRoute(r), WriteStatus(r));
    case PauseDisabled =>
      actions := [WriteStatus(r)];
      RunOne(s, WriteStatus(r));
  }

  /** An archived Flow stays archived exactly when no publication or pause was already under way. */
  lemma ArchivedIsFinal(s: System)
    requires Inv(s) && s.flow.status.Archived?
    ensures (forall actions :: Run(s, actions).flow.status.Archived?) <==> Quiet(s)
  {
    if Quiet(s) {
      forall actions
        ensures Run(s, actions).flow.status.Archived?
      {
        QuietRun(s, actions);
      }
    } else {
      var r :| r in s.requests && !Harmless(s.flow, s.requests[r]);
      var actions := HarmfulRevives(s, r);
    }
  }

  // ---------- When a publication is listed ----------

  /** After a publication has activated its route, ingress lists its version exactly if no newer one has been
      saved meanwhile and the Flow is still published; otherwise it lists no version of the Flow at all. */
  lemma ActivationLists(s: System, r: nat)
    requires Inv(s) && r in s.requests && s.requests[r].Saved? && s.requests[r].n in s.flow.versions
    ensures Listed(Do(s, ActivateRoute(r)).flow)
         == if s.requests[r].n == s.flow.active && s.flow.status.Published? then {s.requests[r].n} else {}
  {
    StepInv(s, ActivateRoute(r));
    ListedIsActive(Do(s, ActivateRoute(r)).flow);
  }

  lemma {:induction false} RunAppend(s: System, before: seq<Action>, later: seq<Action>)
    ensures Run(s, before + later) == Run(Run(s, before), later)
  {
    var actions := before + later;
    if later == [] {
      assert actions == before;
    } else {
      assert actions[..|actions| - 1] == before + later[..|later| - 1];
      assert actions[|actions| - 1] == later[|later| - 1];
      RunAppend(s, before, later[..|later| - 1]);
    }
  }

  lemma NumberAndSave(s: System, r: nat, n: nat)
    requires Sound(s.flow) && r in s.requests && s.requests[r].Checked? && n == s.flow.active + 1
    ensures var s' := Run(s, [Number(r, n), SaveVersion(r)]);
      && Sound(s'.flow) && s'.flow.active == n && s'.flow.status.Published? && s'.requests == s.requests[r := Saved(n)]
  {
    RunTwo(s, Number(r, n), SaveVersion(r));
    assert IsNext(s.flow, n);
    SaveSound(s.flow, n, s.requests[r].graph);
  }

  lemma LateActivation(s: System, p: nat, q: nat, n: nat)
    requires p != q && s.requests == map[p := Saved(n), q := Saved(n + 1)]
    requires Sound(s.flow) && s.flow.active == n + 1 && s.flow.status.Published? && n > 0
    ensures var s' := Run(s, [ActivateRoute(q), ActivateRoute(p)]);
      AllDoneNoneListed(s')
  {
    RunTwo(s, ActivateRoute(q), ActivateRoute(p));
    var s' := Do(s, ActivateRoute(q));
    assert s'.requests == map[p := Saved(n)];
    StepInv(s, ActivateRoute(q));
    ActivationLists(s', p);
  }

  predicate AllDoneNoneListed(s: System) {
    s.requests == map[] && s.flow.status.Published? && Listed(s.flow) == {}
  }

  lemma SecondSave(s: System, p: nat, q: nat, n: nat, h: Graph) returns (actions: seq<Action>)
    requires Sound(s.flow) && s.flow.active == n && n > 0 && p != q && s.requests == map[p := Saved(n), q := Checked(h)]
    ensures actions == [Number(q, n + 1), SaveVersion(q)] + [ActivateRoute(q), ActivateRoute(p)]
    ensures AllDoneNoneListed(Run(s, actions))
  {
    var first, second := [Number(q, n + 1), SaveVersion(q)], [ActivateRoute(q), ActivateRoute(p)];
    actions := first + second;
    NumberAndSave(s, q, n + 1);
    LateActivation(Run(s, first), p, q, n);
    RunAppend(s, first, second);
  }

  /** Two overlapping publications, both successful, can leave a published Flow without a listed route: here the
      older version's route is activated last. */
  lemma OverlappingPublishesUnlist(s: System, p: nat, q: nat, g: Graph, h: Graph) returns (actions: seq<Action>)
    requires Sound(s.flow) && p != q && s.requests == map[p := Checked(g), q := Checked(h)]
    ensures var n := s.flow.active + 1;
      actions == [Number(p, n), SaveVersion(p)]
        + ([Number(q, n + 1), SaveVersion(q)] + [ActivateRoute(q), ActivateRoute(p)])
    ensures AllDoneNoneListed(Run(s, actions))
  {
    hide Sound, AllDoneNoneListed;
    var n := s.flow.active + 1;
    var first := [Number(p, n), SaveVersion(p)];
    NumberAndSave(s, p, n);
    var later := SecondSave(Run(s, first), p, q, n, h);
    actions := first + later;
    RunAppend(s, first, later);
  }
}
