/** Onboarding a source project, over repeated runs of one operation with the same request, each of which may
    fail or stop anywhere. Checkpoints are only ever written as succeeded. */
module Onboarding {
  import opened Text

  datatype Step =
    | SourceProject | TargetProject | ConnectionMade | ChangeLabel | AbandonedLabel
    | WorkspaceRepository | ProjectResource | HookPlan

  datatype Record = Called(step: Step) | Stored(step: Step)

  /** `connection` is the target of the connection that the operation is linked to, `bound` the target that the
      source project's active connection leads to, and `titled` says whether the provider has a project with
      the title to create. `log` lists the changing provider calls and the checkpoints stored; `created` counts
      the target projects made. */
  datatype World = World(
    checkpoints: map<Step, Id>, connection: Option<Id>, bound: Option<Id>, titled: bool, created: nat, log: seq<Record>)

  /** The project to bind to; without one, a project is created. */
  datatype Request = Request(target: Option<Id>)

  /** Unheard: the provider did it, but the run ended before the answer arrived. */
  datatype Answer = Answered(id: Id) | Refused | Unheard

  /** How one run goes. `stores` and the other flags are false where the run stops just before the statement, or
      where the statement fails. */
  datatype Course = Course(
    calls: Step -> Answer, stores: Step -> bool, loads: bool, loadsAgain: bool, targetTaken: bool,
    creates: bool, links: bool, finishes: bool)

  datatype Result = Blocked | Conflict | Ended | Configured

  /** A run so far: going on, or over with a result. */
  datatype Part = Going(w: World) | Over(w: World, result: Result)

  // ---------- One run ----------

  function Put(w: World, step: Step, id: Id): World {
    w.(checkpoints := w.checkpoints[step := id], log := w.log + [Stored(step)])
  }

  function Call(w: World, step: Step): World {
    w.(log := w.log + [Called(step)])
  }

  function Store(w: World, step: Step, id: Id, c: Course): Part {
    if c.stores(step) then Going(Put(w, step, id)) else Over(w, Ended)
  }

  /** A provider step with its checkpoint: resumed, or called; stored either way. */
  function Ensure(w: World, step: Step, c: Course): Part {
    if step in w.checkpoints then Store(w, step, w.checkpoints[step], c)
    else
      match c.calls(step)
      case Answered(id) => Store(Call(w, step), step, id, c)
      case Refused => Over(Call(w, step), Ended)
      case Unheard => Over(Call(w, step), Ended)
  }

  /** A checkpoint written once, without a provider call. */
  function Note(w: World, step: Step, c: Course): Part {
    if step in w.checkpoints then Going(w) else Store(w, step, "", c)
  }

  function Link(w: World, id: Id, c: Course): Part {
    if !c.links then Over(w, Ended) else Store(w.(connection := Some(id)), ConnectionMade, id, c)
  }

  /** A connection of the source that leads to the expected target is taken over. */
  function Adopt(w: World, q: Request, c: Course): Part {
    match w.bound
    case Some(id) =>
      var expected :=
        if q.target.Some? then q.target.value
        else if TargetProject in w.checkpoints then w.checkpoints[TargetProject]
        else "";
      if expected == "" || id != expected then Over(w, Blocked) else Link(w, id, c)
    case None => if q.target.Some? && c.targetTaken then Over(w, Blocked) else Going(w)
  }

  /** ensureTargetProject for a project to be created. */
  function CreateTarget(w: World, c: Course): Part {
    if w.titled then Over(w, Conflict)
    else
      match c.calls(TargetProject)
      case Refused => Over(Call(w, TargetProject), Ended)
      case Unheard => Over(Call(w, TargetProject).(titled := true, created := w.created + 1), Ended)
      case Answered(id) =>
        Store(Call(w, TargetProject).(titled := true, created := w.created + 1), TargetProject, id, c)
  }

  function FindTarget(w: World, q: Request, c: Course): Part {
    if !c.loads then Over(w, Ended)
    else if q.target.Some? then Store(w, TargetProject, q.target.value, c)
    else if TargetProject in w.checkpoints then Store(w, TargetProject, w.checkpoints[TargetProject], c)
    else CreateTarget(w, c)
  }

  function Connect(w: World, c: Course): Part {
    if w.connection.Some? || TargetProject !in w.checkpoints then Going(w)
    else if !c.creates then Over(w, Blocked)
    else Link(w.(bound := Some(w.checkpoints[TargetProject])), w.checkpoints[TargetProject], c)
  }

  function Then(p: Part, next: World -> Part): Part {
    if p.Going? then next(p.w) else p
  }

  /** Everything up to the operation's connection. */
  function Bind(w: World, q: Request, c: Course): Part {
    if w.connection.Some? then Going(w)
    else
      Then(Then(Then(Note(w, SourceProject, c), (x: World) => Adopt(x, q, c)), (x: World) => FindTarget(x, q, c)),
           (x: World) => Connect(x, c))
  }

  function Provision(w: World, c: Course): Part {
    if !c.loadsAgain then Over(w, Ended)
    else
      Then(Then(Then(Then(Ensure(w, ChangeLabel, c), (x: World) => Ensure(x, AbandonedLabel, c)),
                     (x: World) => Ensure(x, WorkspaceRepository, c)),
                (x: World) => Ensure(x, ProjectResource, c)),
           (x: World) => Note(x, HookPlan, c))
  }

  function Run(w: World, q: Request, c: Course): Part {
    var p := Then(Bind(w, q, c), (x: World) => Provision(x, c));
    if p.Over? then p else Over(p.w, if c.finishes then Configured else Ended)
  }

  /** Onboard. */
  class Service {
    var world: World

    method EnsureStep(step: Step, c: Course) returns (done: bool)
      modifies this
      ensures (if done then Going(world) else Over(world, Ended)) == Ensure(old(world), step, c)
    {
      var id: Id;
      if step in world.checkpoints {
        id := world.checkpoints[step];
      } else {
        world := Call(world, step);
        match c.calls(step) {
          case Answered(answer) => id := answer;
          case Refused => return false;
          case Unheard => return false;
        }
      }
      if !c.stores(step) {
        return false;
      }
      world := Put(world, step, id);
      return true;
    }

    method LinkConnection(id: Id, c: Course) returns (done: bool)
      modifies this
      ensures (if done then Going(world) else Over(world, Ended)) == Link(old(world), id, c)
    {
      if !c.links {
        return false;
      }
      world := world.(connection := Some(id));
      if !c.stores(ConnectionMade) {
        return false;
      }
      world := Put(world, ConnectionMade, id);
      return true;
    }

    method EnsureTargetProject(q: Request, c: Course) returns (result: Option<Result>)
      modifies this
      ensures (match result case None => Going(world) case Some(r) => Over(world, r)) == FindTarget(old(world), q, c)
    {
      if !c.loads {
        return Some(Ended);
      }
      var id: Id;
      if q.target.Some? {
        id := q.target.value;
      } else if TargetProject in world.checkpoints {
        id := world.checkpoints[TargetProject];
      } else {
        if world.titled {
          return Some(Conflict);
        }
        world := Call(world, TargetProject);
        match c.calls(TargetProject) {
          case Refused => return Some(Ended);
          case Unheard =>
            world := world.(titled := true, created := world.created + 1);
            return Some(Ended);
          case Answered(answer) =>
            world := world.(titled := true, created := world.created + 1);
            id := answer;
        }
      }
      if !c.stores(TargetProject) {
        return Some(Ended);
      }
      world := Put(world, TargetProject, id);
      return None;
    }

    method AdoptConnection(q: Request, c: Course) returns (result: Option<Result>)
      modifies this
      ensures (match result case None => Going(world) case Some(r) => Over(world, r)) == Adopt(old(world), q, c)
    {
      if world.bound.None? {
        return if q.target.Some? && c.targetTaken then Some(Blocked) else None;
      }
      var expected := "";
      if q.target.Some? {
        expected := q.target.value;
      } else if TargetProject in world.checkpoints {
        expected := world.checkpoints[TargetProject];
      }
      if expected == "" || world.bound.value != expected {
        return Some(Blocked);
      }
      var linked := LinkConnection(world.bound.value, c);
      return if linked then None else Some(Ended);
    }

    method BindConnection(q: Request, c: Course) returns (result: Option<Result>)
      modifies this
      ensures (match result case None => Going(world) case Some(r) => Over(world, r)) == Bind(old(world), q, c)
    {
      if world.connection.Some? {
        return None;
      }
      if SourceProject !in world.checkpoints {
        if !c.stores(SourceProject) {
          return Some(Ended);
        }
        world := Put(world, SourceProject, "");
      }
      result := AdoptConnection(q, c);
      if result.Some? {
        return;
      }
      result := EnsureTargetProject(q, c);
      if result.Some? {
        return;
      }
      if world.connection.None? && TargetProject in world.checkpoints {
        if !c.creates {
          return Some(Blocked);
        }
        world := world.(bound := Some(world.checkpoints[TargetProject]));
        var linked := LinkConnection(world.checkpoints[TargetProject], c);
        return if linked then None else Some(Ended);
      }
    }

    method Onboard(q: Request, c: Course) returns (result: Result)
      modifies this
      ensures Over(world, result) == Run(old(world), q, c)
    {
      var bound := BindConnection(q, c);
      if bound.Some? {
        return bound.value;
      }
      if !c.loadsAgain {
        return Ended;
      }
      var done := EnsureStep(ChangeLabel, c);
      if !done {
        return Ended;
      }
      done := EnsureStep(AbandonedLabel, c);
      if !done {
        return Ended;
      }
      done := EnsureStep(WorkspaceRepository, c);
      if !done {
        return Ended;
      }
      done := EnsureStep(ProjectResource, c);
      if !done {
        return Ended;
      }
      if HookPlan !in world.checkpoints {
        if !c.stores(HookPlan) {
          return Ended;
        }
        world := Put(world, HookPlan, "");
      }
      return if c.finishes then Configured else Ended;
    }
  }

  // ---------- Any number of runs ----------

  /** Besides runs of this operation, other operations may bind or unbind the source. The title to create is read
      anew in every run, from the source project unless the request gives one; so it becomes taken or free as
      projects are made, renamed and deleted. Runs of one operation do not overlap. */
  datatype Event = Attempt(course: Course) | Rebound(bound: Option<Id>) | Retitled(taken: bool)

  function Happen(w: World, q: Request, e: Event): World {
    match e
    case Attempt(course) => Run(w, q, course).w
    case Rebound(bound) => w.(bound := bound)
    case Retitled(taken) => w.(titled := taken)
  }

  function Play(w: World, q: Request, events: seq<Event>): World {
    if events == [] then w else Happen(Play(w, q, events[..|events| - 1]), q, events[|events| - 1])
  }

  /** The checkpoints are those the log says were stored, and no step is called after its checkpoint. */
  ghost predicate Logged(w: World) {
    && (forall s :: s in w.checkpoints <==> Stored(s) in w.log)
    && (forall i, j | 0 <= i < j < |w.log| && w.log[i].Stored? :: w.log[j] != Called(w.log[i].step))
  }

  lemma PutLogged(w: World, step: Step, id: Id)
    requires Logged(w)
    ensures Logged(Put(w, step, id))
  {
    var log := w.log + [Stored(step)];
    assert forall s :: Stored(s) in log <==> Stored(s) in w.log || s == step;
  }

  lemma CallLogged(w: World, step: Step)
    requires Logged(w) && step !in w.checkpoints
    ensures Logged(Call(w, step))
  {
    var log := w.log + [Called(step)];
    assert forall s :: Stored(s) in log <==> Stored(s) in w.log;
    forall i, j | 0 <= i < j < |log| && log[i].Stored?
      ensures log[j] != Called(log[i].step)
    {
      assert log[i] in w.log;
    }
  }

  lemma SameLogged(w: World, w': World)
    requires Logged(w) && w'.log == w.log && w'.checkpoints == w.checkpoints
    ensures Logged(w')
  {
  }

  lemma StoreLogged(w: World, step: Step, id: Id, c: Course)
    requires Logged(w)
    ensures Logged(Store(w, step, id, c).w)
  {
    PutLogged(w, step, id);
  }

  lemma EnsureLogged(w: World, step: Step, c: Course)
    requires Logged(w)
    ensures Logged(Ensure(w, step, c).w)
  {
    if step in w.checkpoints {
      StoreLogged(w, step, w.checkpoints[step], c);
    } else {
      CallLogged(w, step);
      if c.calls(step).Answered? {
        StoreLogged(Call(w, step), step, c.calls(step).id, c);
      }
    }
  }

  lemma NoteLogged(w: World, step: Step, c: Course)
    requires Logged(w)
    ensures Logged(Note(w, step, c).w)
  {
    StoreLogged(w, step, "", c);
  }

  lemma LinkLogged(w: World, id: Id, c: Course)
    requires Logged(w)
    ensures Logged(Link(w, id, c).w)
  {
    SameLogged(w, w.(connection := Some(id)));
    StoreLogged(w.(connection := Some(id)), ConnectionMade, id, c);
  }

  lemma FindTargetLogged(w: World, q: Request, c: Course)
    requires Logged(w)
    ensures Logged(FindTarget(w, q, c).w)
  {
    if q.target.Some? {
      StoreLogged(w, TargetProject, q.target.value, c);
    } else if TargetProject in w.checkpoints {
      StoreLogged(w, TargetProject, w.checkpoints[TargetProject], c);
    } else {
      CallLogged(w, TargetProject);
      var made := Call(w, TargetProject).(titled := true, created := w.created + 1);
      SameLogged(Call(w, TargetProject), made);
      if c.calls(TargetProject).Answered? {
        StoreLogged(made, TargetProject, c.calls(TargetProject).id, c);
      }
    }
  }

  lemma BindLogged(w: World, q: Request, c: Course)
    requires Logged(w)
    ensures Logged(Bind(w, q, c).w)
  {
    if w.connection.None? {
      NoteLogged(w, SourceProject, c);
      var w1 := Note(w, SourceProject, c).w;
      if w1.bound.Some? {
        LinkLogged(w1, w1.bound.value, c);
      }
      var w2 := Adopt(w1, q, c).w;
      FindTargetLogged(w2, q, c);
      var w3 := FindTarget(w2, q, c).w;
      if TargetProject in w3.checkpoints {
        SameLogged(w3, w3.(bound := Some(w3.checkpoints[TargetProject])));
        LinkLogged(w3.(bound := Some(w3.checkpoints[TargetProject])), w3.checkpoints[TargetProject], c);
      }
    }
  }

  lemma RunLogged(w: World, q: Request, c: Course)
    requires Logged(w)
    ensures Logged(Run(w, q, c).w)
  {
    BindLogged(w, q, c);
    var w0 := Bind(w, q, c).w;
    EnsureLogged(w0, ChangeLabel, c);
    var w1 := Ensure(w0, ChangeLabel, c).w;
    EnsureLogged(w1, AbandonedLabel, c);
    var w2 := Ensure(w1, AbandonedLabel, c).w;
    EnsureLogged(w2, WorkspaceRepository, c);
    var w3 := Ensure(w2, WorkspaceRepository, c).w;
    EnsureLogged(w3, ProjectResource, c);
    NoteLogged(Ensure(w3, ProjectResource, c).w, HookPlan, c);
  }

  /** Saga resume: across any number of runs, stopped anywhere, a provider step whose checkpoint has been stored
      is never called again. */
  lemma {:induction false} StoredStepsAreNotCalled(w: World, q: Request, events: seq<Event>)
    requires Logged(w)
    ensures Logged(Play(w, q, events))
  {
    if events != [] {
      var before, e := Play(w, q, events[..|events| - 1]), events[|events| - 1];
      StoredStepsAreNotCalled(w, q, events[..|events| - 1]);
      if e.Attempt? {
        RunLogged(before, q, e.course);
      } else {
        SameLogged(before, Happen(before, q, e));
      }
    }
  }

  // ---------- What success says ----------

  predicate Provisioned(w: World) {
    && ChangeLabel in w.checkpoints && AbandonedLabel in w.checkpoints && WorkspaceRepository in w.checkpoints
    && ProjectResource in w.checkpoints && HookPlan in w.checkpoints
  }

  lemma EnsureStores(w: World, step: Step, c: Course)
    requires Ensure(w, step, c).Going?
    ensures Ensure(w, step, c).w.checkpoints.Keys == w.checkpoints.Keys + {step}
  {
  }

  lemma NoteStores(w: World, step: Step, c: Course)
    requires Note(w, step, c).Going?
    ensures Note(w, step, c).w.checkpoints.Keys == w.checkpoints.Keys + {step}
  {
  }

  /** A successful run leaves the label, abandoned-label, repository, resource and hook-plan checkpoints stored. */
  lemma SuccessIsProvisioned(w: World, q: Request, c: Course)
    requires Run(w, q, c).result.Configured?
    ensures Provisioned(Run(w, q, c).w)
  {
    var w0 := Bind(w, q, c).w;
    BindNotConfigured(w, q, c);
    EnsureStores(w0, ChangeLabel, c);
    var w1 := Ensure(w0, ChangeLabel, c).w;
    EnsureStores(w1, AbandonedLabel, c);
    var w2 := Ensure(w1, AbandonedLabel, c).w;
    EnsureStores(w2, WorkspaceRepository, c);
    var w3 := Ensure(w2, WorkspaceRepository, c).w;
    EnsureStores(w3, ProjectResource, c);
    NoteStores(Ensure(w3, ProjectResource, c).w, HookPlan, c);
  }

  lemma BindNotConfigured(w: World, q: Request, c: Course)
    ensures Bind(w, q, c).Over? ==> !Bind(w, q, c).result.Configured?
  {
  }

  // ---------- What a successful run has done ----------

  /** The target of the run: the one asked for, the one recorded, or the one just created. */
  function Target(w: World, q: Request, c: Course): Id {
    match q.target
    case Some(id) => id
    case None =>
      if TargetProject in w.checkpoints then w.checkpoints[TargetProject]
      else if c.calls(TargetProject).Answered? then c.calls(TargetProject).id
      else ""
  }

  /** The records of a provider step: called unless it is recorded, and recorded in any case. */
  function Taken(w: World, step: Step): seq<Record> {
    if step in w.checkpoints then [Stored(step)] else [Called(step), Stored(step)]
  }

  function StoredOnce(w: World, step: Step): seq<Record> {
    if step in w.checkpoints then [] else [Stored(step)]
  }

  function TargetRecords(w: World, q: Request): seq<Record> {
    if q.target.Some? then [Stored(TargetProject)] else Taken(w, TargetProject)
  }

  /** Finding the target and linking the operation, in this order. A connection of the source is linked first. */
  function BindRecords(w: World, q: Request): seq<Record> {
    if w.connection.Some? then []
    else
      StoredOnce(w, SourceProject)
        + if w.bound.Some? then [Stored(ConnectionMade)] + TargetRecords(w, q)
          else TargetRecords(w, q) + [Stored(ConnectionMade)]
  }

  function ProvisionRecords(w: World): seq<Record> {
    Taken(w, ChangeLabel) + Taken(w, AbandonedLabel) + Taken(w, WorkspaceRepository) + Taken(w, ProjectResource)
      + StoredOnce(w, HookPlan)
  }

  /** The answer that is recorded for a step: the earlier one, if there is one. */
  predicate Recorded(w: World, w': World, step: Step, c: Course) {
    && step in w'.checkpoints
    && if step in w.checkpoints then w'.checkpoints[step] == w.checkpoints[step]
       else c.calls(step) == Answered(w'.checkpoints[step])
  }

  /** The operation is linked to the target, whose project is recorded. */
  predicate Linked(w: World, w': World, id: Id) {
    && w'.connection == Some(id) && w'.bound == Some(id)
    && w'.checkpoints ==
         w.checkpoints[SourceProject := if SourceProject in w.checkpoints then w.checkpoints[SourceProject] else ""]
                                      [TargetProject := id][ConnectionMade := id]
  }

  lemma FindTargetStores(w: World, q: Request, c: Course)
    requires FindTarget(w, q, c).Going?
    ensures var w', id := FindTarget(w, q, c).w, Target(w, q, c);
      && w'.checkpoints == w.checkpoints[TargetProject := id] && w'.log == w.log + TargetRecords(w, q)
      && w'.connection == w.connection && w'.bound == w.bound
  {
  }

  lemma ConnectStores(w: World, c: Course)
    requires Connect(w, c).Going? && TargetProject in w.checkpoints && w.connection.None?
    ensures var w', id := Connect(w, c).w, w.checkpoints[TargetProject];
      && w'.checkpoints == w.checkpoints[ConnectionMade := id] && w'.log == w.log + [Stored(ConnectionMade)]
      && w'.connection == Some(id) && w'.bound == Some(id)
  {
  }

  lemma AdoptStores(w: World, q: Request, c: Course)
    requires Adopt(w, q, c).Going? && w.connection.None?
    ensures var w' := Adopt(w, q, c).w;
      if w.bound.None? then w' == w
      else
        && w.bound.value == Target(w, q, c) && (q.target.Some? || TargetProject in w.checkpoints)
        && w'.checkpoints == w.checkpoints[ConnectionMade := w.bound.value]
        && w'.log == w.log + [Stored(ConnectionMade)]
        && w'.connection == w.bound && w'.bound == w.bound
  {
  }

  /** A run that gets its target has linked the operation to the project asked for, recorded or created, has recorded
      it, and has done so by these steps in this order. */
  lemma BindLinks(w: World, q: Request, c: Course)
    requires Bind(w, q, c).Going?
    ensures var w' := Bind(w, q, c).w;
      && w'.log == w.log + BindRecords(w, q)
      && if w.connection.Some? then w' == w else Linked(w, w', Target(w, q, c))
  {
    hide Adopt, FindTarget, Connect;
    if w.connection.None? {
      var w1 := Note(w, SourceProject, c).w;
      assert w1.log == w.log + StoredOnce(w, SourceProject);
      AdoptStores(w1, q, c);
      var w2 := Adopt(w1, q, c).w;
      FindTargetStores(w2, q, c);
      var w3 := FindTarget(w2, q, c).w;
      assert Target(w1, q, c) == Target(w, q, c) == Target(w2, q, c);
      if w.bound.None? {
        ConnectStores(w3, c);
      } else {
        assert Connect(w3, c) == Going(w3) by { LinkedGoesOn(w3, c); }
      }
    }
  }

  lemma LinkedGoesOn(w: World, c: Course)
    requires w.connection.Some?
    ensures Connect(w, c) == Going(w)
  {
  }

  /** A step that went through has its answer recorded, after being called if it was not recorded before. */
  lemma EnsureRecords(w: World, step: Step, c: Course)
    requires Ensure(w, step, c).Going?
    ensures var w' := Ensure(w, step, c).w;
      && Recorded(w, w', step, c) && w'.checkpoints == w.checkpoints[step := w'.checkpoints[step]]
      && w'.log == w.log + Taken(w, step) && w'.connection == w.connection
  {
  }

  lemma NoteRecords(w: World, step: Step, c: Course)
    requires Note(w, step, c).Going?
    ensures var w' := Note(w, step, c).w;
      && step in w'.checkpoints && w'.checkpoints == w.checkpoints[step := w'.checkpoints[step]]
      && w'.log == w.log + StoredOnce(w, step) && w'.connection == w.connection
  {
  }

  /** Nothing is recorded for other steps. */
  predicate OthersKept(w: World, w': World, steps: set<Step>) {
    forall step | step !in steps ::
      && (step in w.checkpoints <==> step in w'.checkpoints)
      && (step in w.checkpoints ==> w.checkpoints[step] == w'.checkpoints[step])
  }

  lemma TwoRecorded(w: World, first: Step, second: Step, c: Course)
    requires first != second && Ensure(w, first, c).Going? && Ensure(Ensure(w, first, c).w, second, c).Going?
    ensures var w' := Ensure(Ensure(w, first, c).w, second, c).w;
      && Recorded(w, w', first, c) && Recorded(w, w', second, c) && OthersKept(w, w', {first, second})
      && w'.log == w.log + Taken(w, first) + Taken(w, second) && w'.connection == w.connection
  {
    hide Ensure;
    EnsureRecords(w, first, c);
    EnsureRecords(Ensure(w, first, c).w, second, c);
  }

  /** The provider steps that every successful run needs. */
  function ProviderSteps(): set<Step> { {ChangeLabel, AbandonedLabel, WorkspaceRepository, ProjectResource} }

  lemma ProvisionStores(w: World, c: Course)
    requires Provision(w, c).Going?
    ensures var w' := Provision(w, c).w;
      && (forall step | step in ProviderSteps() :: Recorded(w, w', step, c)) && HookPlan in w'.checkpoints
      && w'.log == w.log + ProvisionRecords(w) && w'.connection == w.connection
      && OthersKept(w, w', ProviderSteps() + {HookPlan})
  {
    hide Ensure, Note;
    TwoRecorded(w, ChangeLabel, AbandonedLabel, c);
    var w2 := Ensure(Ensure(w, ChangeLabel, c).w, AbandonedLabel, c).w;
    TwoRecorded(w2, WorkspaceRepository, ProjectResource, c);
    var w4 := Ensure(Ensure(w2, WorkspaceRepository, c).w, ProjectResource, c).w;
    NoteRecords(w4, HookPlan, c);
    hide *;
    AllRecorded(w, w2, w4, Provision(w, c).w, c);
  }

  lemma AllRecorded(w: World, w2: World, w4: World, w': World, c: Course)
    requires Recorded(w, w2, ChangeLabel, c) && Recorded(w, w2, AbandonedLabel, c)
    requires OthersKept(w, w2, {ChangeLabel, AbandonedLabel}) && w2.connection == w.connection
    requires Recorded(w2, w4, WorkspaceRepository, c) && Recorded(w2, w4, ProjectResource, c)
    requires OthersKept(w2, w4, {WorkspaceRepository, ProjectResource}) && w4.connection == w2.connection
    requires HookPlan in w'.checkpoints && w'.checkpoints == w4.checkpoints[HookPlan := w'.checkpoints[HookPlan]]
    requires w2.log == w.log + Taken(w, ChangeLabel) + Taken(w, AbandonedLabel)
    requires w4.log == w2.log + Taken(w2, WorkspaceRepository) + Taken(w2, ProjectResource)
    requires w'.log == w4.log + StoredOnce(w4, HookPlan) && w'.connection == w4.connection
    ensures forall step | step in ProviderSteps() :: Recorded(w, w', step, c)
    ensures w'.log == w.log + ProvisionRecords(w) && w'.connection == w.connection
    ensures OthersKept(w, w', ProviderSteps() + {HookPlan})
  {
  }

  lemma SuccessGoesOn(w: World, q: Request, c: Course)
    requires Run(w, q, c).result.Configured?
    ensures Bind(w, q, c).Going? && Provision(Bind(w, q, c).w, c).Going?
    ensures Run(w, q, c).w == Provision(Bind(w, q, c).w, c).w
  {
    hide Ensure, Note;
    BindNotConfigured(w, q, c);
    forall x, step | Ensure(x, step, c).Over?
      ensures !Ensure(x, step, c).result.Configured?
    {
      FailedStepsEnd(x, step, c);
    }
    forall x, step | Note(x, step, c).Over?
      ensures !Note(x, step, c).result.Configured?
    {
      FailedStepsEnd(x, step, c);
    }
  }

  lemma FailedStepsEnd(w: World, step: Step, c: Course)
    ensures Ensure(w, step, c).Over? ==> Ensure(w, step, c).result == Ended
    ensures Note(w, step, c).Over? ==> Note(w, step, c).result == Ended
  {
  }

  lemma LinkedKeeps(w: World, w': World, q: Request, c: Course)
    requires if w.connection.Some? then w' == w else Linked(w, w', Target(w, q, c))
    ensures OthersKept(w, w', {SourceProject, TargetProject, ConnectionMade})
    ensures w.connection.None? ==>
      && w'.connection == Some(Target(w, q, c))
      && TargetProject in w'.checkpoints && w'.checkpoints[TargetProject] == Target(w, q, c)
    ensures w.connection.Some? ==> w'.connection == w.connection
  {
  }

  /** What success means: the operation is linked to the project asked for, recorded or created, every provider step
      has its recorded answer, and the run has called exactly the steps that were not recorded, in this order. */
  lemma SuccessDoes(w: World, q: Request, c: Course)
    requires Run(w, q, c).result.Configured?
    ensures var w' := Run(w, q, c).w;
      && (if w.connection.Some? then w'.connection == w.connection
          else
            && w'.connection == Some(Target(w, q, c))
            && TargetProject in w'.checkpoints && w'.checkpoints[TargetProject] == Target(w, q, c))
      && (forall step | step in ProviderSteps() :: Recorded(w, w', step, c)) && HookPlan in w'.checkpoints
      && w'.log == w.log + BindRecords(w, q) + ProvisionRecords(w)
  {
    SuccessGoesOn(w, q, c);
    hide Bind, Provision, Linked, Run, Recorded, ProvisionRecords, BindRecords, OthersKept, Target;
    BindLinks(w, q, c);
    LinkedKeeps(w, Bind(w, q, c).w, q, c);
    ProvisionStores(Bind(w, q, c).w, c);
    ThroughBind(w, Bind(w, q, c).w, Run(w, q, c).w, c);
  }

  /** Binding records nothing for the provider steps. */
  lemma ThroughBind(w: World, w0: World, w': World, c: Course)
    requires OthersKept(w, w0, {SourceProject, TargetProject, ConnectionMade})
    requires OthersKept(w0, w', ProviderSteps() + {HookPlan})
    requires forall step | step in ProviderSteps() :: Recorded(w0, w', step, c)
    ensures forall step | step in ProviderSteps() :: Recorded(w, w', step, c)
    ensures ProvisionRecords(w0) == ProvisionRecords(w)
    ensures TargetProject in w0.checkpoints ==>
      TargetProject in w'.checkpoints && w'.checkpoints[TargetProject] == w0.checkpoints[TargetProject]
  {
  }

  // ---------- The created target project ----------

  predicate SameProjects(w: World, w': World) {
    w'.created == w.created && w'.titled == w.titled
  }

  /** A project with the title was made; there was none before. */
  predicate MadeOne(w: World, w': World) {
    !w.titled && w'.titled && w'.created == w.created + 1
  }

  /** A run of the operation no longer creates a project: it has one, or is given one. */
  predicate Closed(w: World, q: Request) {
    q.target.Some? || w.connection.Some? || TargetProject in w.checkpoints
  }

  lemma EnsureKeepsProject(w: World, step: Step, c: Course)
    requires step != TargetProject
    ensures var w' := Ensure(w, step, c).w;
      SameProjects(w, w') && w'.connection == w.connection
        && (TargetProject in w'.checkpoints <==> TargetProject in w.checkpoints)
  {
  }

  lemma ProvisionKeepsProject(w: World, c: Course)
    ensures var w' := Provision(w, c).w;
      SameProjects(w, w') && w'.connection == w.connection
        && (TargetProject in w'.checkpoints <==> TargetProject in w.checkpoints)
  {
    var w1 := Ensure(w, ChangeLabel, c).w;
    EnsureKeepsProject(w, ChangeLabel, c);
    var w2 := Ensure(w1, AbandonedLabel, c).w;
    EnsureKeepsProject(w1, AbandonedLabel, c);
    var w3 := Ensure(w2, WorkspaceRepository, c).w;
    EnsureKeepsProject(w2, WorkspaceRepository, c);
    EnsureKeepsProject(w3, ProjectResource, c);
  }

  lemma AdoptKeepsProject(w: World, q: Request, c: Course)
    ensures var w' := Adopt(w, q, c).w;
      SameProjects(w, w') && (w.connection.Some? ==> w'.connection.Some?)
      && (TargetProject in w'.checkpoints <==> TargetProject in w.checkpoints)
  {
  }

  lemma FindTargetMakes(w: World, q: Request, c: Course)
    ensures var w' := FindTarget(w, q, c).w;
      && w'.connection == w.connection && (TargetProject in w.checkpoints ==> TargetProject in w'.checkpoints)
      && (SameProjects(w, w') || (MadeOne(w, w') && q.target.None? && TargetProject !in w.checkpoints))
  {
  }

  lemma ConnectKeepsProject(w: World, c: Course)
    ensures var w' := Connect(w, c).w;
      SameProjects(w, w') && (w.connection.Some? ==> w'.connection.Some?)
      && (TargetProject in w'.checkpoints <==> TargetProject in w.checkpoints)
  {
  }

  /** One run makes at most one project, only if there is none with the title, and none once it has its own. */
  lemma RunMakes(w: World, q: Request, c: Course)
    ensures var w' := Run(w, q, c).w;
      && (SameProjects(w, w') || (MadeOne(w, w') && !Closed(w, q)))
      && (Closed(w, q) ==> Closed(w', q))
  {
    BindMakes(w, q, c);
    ProvisionKeepsProject(Bind(w, q, c).w, c);
  }

  lemma BindMakes(w: World, q: Request, c: Course)
    ensures var w' := Bind(w, q, c).w;
      && (SameProjects(w, w') || (MadeOne(w, w') && !Closed(w, q)))
      && (Closed(w, q) ==> Closed(w', q))
  {
    hide Adopt, FindTarget, Connect;
    var w1 := Note(w, SourceProject, c).w;
    AdoptKeepsProject(w1, q, c);
    var w2 := Adopt(w1, q, c).w;
    FindTargetMakes(w2, q, c);
    ConnectKeepsProject(FindTarget(w2, q, c).w, c);
  }

  /** How often the title has become free. */
  function Freed(events: seq<Event>): nat {
    if events == [] then 0
    else Freed(events[..|events| - 1]) + if events[|events| - 1] == Retitled(false) then 1 else 0
  }

  function One(b: bool): nat { if b then 1 else 0 }

  /** However often the operation is run, and wherever it stops: at most one target project is created, and one more
      for each time the title becomes free. */
  lemma {:induction false} OneProjectAtMost(w: World, q: Request, events: seq<Event>)
    requires w.created <= One(w.titled)
    ensures var w' := Play(w, q, events); w'.created <= One(w'.titled) + Freed(events)
  {
    if events != [] {
      var before, e := Play(w, q, events[..|events| - 1]), events[|events| - 1];
      OneProjectAtMost(w, q, events[..|events| - 1]);
      if e.Attempt? {
        RunMakes(before, q, e.course);
      }
    }
  }

  lemma {:induction false} ClosedMakesNone(w: World, q: Request, events: seq<Event>)
    requires Closed(w, q)
    ensures Closed(Play(w, q, events), q) && Play(w, q, events).created == w.created
  {
    if events != [] {
      var before, e := Play(w, q, events[..|events| - 1]), events[|events| - 1];
      ClosedMakesNone(w, q, events[..|events| - 1]);
      if e.Attempt? {
        RunMakes(before, q, e.course);
      }
    }
  }

  /** A run gets as far as the target project, and its creation succeeds unheard. */
  predicate CreatesUnheard(c: Course) {
    c.loads && (forall s :: c.stores(s)) && c.calls(TargetProject).Unheard?
  }

  lemma UnheardMakes(w: World, q: Request, c: Course)
    requires !Closed(w, q) && w.bound.None? && !w.titled && CreatesUnheard(c)
    ensures Run(w, q, c).w.created == w.created + 1 && !Closed(Run(w, q, c).w, q) && Run(w, q, c).w.bound.None?
  {
    var w1 := Note(w, SourceProject, c).w;
    assert TargetProject !in w1.checkpoints;
    assert Adopt(w1, q, c) == Going(w1);
  }

  /** Exactly when no further project is ever created: the operation has its target, from the request, its
      checkpoint or its connection. */
  lemma NoMoreProjectsDecided(w: World, q: Request, c: Course)
    requires CreatesUnheard(c)
    ensures (forall events :: Play(w, q, events).created == w.created) <==> Closed(w, q)
  {
    if Closed(w, q) {
      forall events
        ensures Play(w, q, events).created == w.created
      {
        ClosedMakesNone(w, q, events);
      }
    } else {
      PlayThree(w, q, Rebound(None), Retitled(false), Attempt(c));
      UnheardMakes(w.(bound := None, titled := false), q, c);
      assert Play(w, q, [Rebound(None), Retitled(false), Attempt(c)]).created == w.created + 1;
    }
  }

  lemma PlayOneMore(w: World, q: Request, events: seq<Event>, e: Event)
    ensures Play(w, q, events + [e]) == Happen(Play(w, q, events), q, e)
    ensures Freed(events + [e]) == Freed(events) + if e == Retitled(false) then 1 else 0
  {
    hide Happen;
    assert (events + [e])[..|events|] == events;
  }

  lemma PlayThree(w: World, q: Request, e: Event, f: Event, g: Event)
    ensures Play(w, q, [e, f, g]) == Happen(Happen(Happen(w, q, e), q, f), q, g)
    ensures Freed([e, f, g]) == Freed([e]) + Freed([f]) + Freed([g])
  {
    hide Happen;
    assert [] + [e] == [e] && [] + [f] == [f] && [] + [g] == [g] && [e] + [f] == [e, f] && [e, f] + [g] == [e, f, g];
    PlayOneMore(w, q, [], e);
    PlayOneMore(w, q, [], f);
    PlayOneMore(w, q, [], g);
    PlayOneMore(w, q, [e], f);
    PlayOneMore(w, q, [e, f], g);
  }

  /** Nothing done yet: no checkpoint, connection or project. */
  predicate Fresh(w: World) {
    w.checkpoints == map[] && w.connection.None? && w.bound.None? && !w.titled && w.created == 0
  }

  /** The bound is reached: an answer lost, the title freed, and the operation run again make two projects. */
  lemma FreedTitleMakesTwo(w: World, q: Request, c: Course)
    requires Fresh(w) && q.target.None? && CreatesUnheard(c)
    ensures var events := [Attempt(c), Retitled(false), Attempt(c)];
      Freed(events) == 1 && Play(w, q, events).created == 2
  {
    PlayThree(w, q, Attempt(c), Retitled(false), Attempt(c));
    UnheardMakes(w, q, c);
    UnheardMakes(Run(w, q, c).w.(titled := false), q, c);
  }

  // ---------- A project without a checkpoint ----------

  /** The title is taken but no checkpoint says by whom: a run stopped between the provider's answer and its
      checkpoint, or someone else made the project. */
  predicate Orphaned(w: World) {
    w.titled && w.connection.None? && TargetProject !in w.checkpoints
  }

  /** A fresh operation that stops between creating the project and storing its checkpoint. */
  lemma StopOrphans(w: World, q: Request, c: Course)
    requires Fresh(w) && q.target.None? && c.stores(SourceProject) && c.loads
    requires !c.calls(TargetProject).Refused? && !(c.calls(TargetProject).Answered? && c.stores(TargetProject))
    ensures Orphaned(Run(w, q, c).w) && Run(w, q, c).w.created == 1
  {
    var w1 := Note(w, SourceProject, c).w;
    assert TargetProject !in w1.checkpoints && Adopt(w1, q, c) == Going(w1);
  }

  /** Then no run with the same request succeeds: the title is taken. */
  lemma OrphanBlocksRun(w: World, q: Request, c: Course)
    requires Orphaned(w) && q.target.None?
    ensures Orphaned(Run(w, q, c).w) && !Run(w, q, c).result.Configured?
  {
    var w1 := Note(w, SourceProject, c).w;
    assert Orphaned(w1);
  }

  /** And none ever will, until the title becomes free. */
  lemma {:induction false} OrphanBlocksForever(w: World, q: Request, events: seq<Event>, c: Course)
    requires Orphaned(w) && q.target.None? && Freed(events) == 0
    ensures !Run(Play(w, q, events), q, c).result.Configured?
    ensures Orphaned(Play(w, q, events))
  {
    if events != [] {
      OrphanBlocksForever(w, q, events[..|events| - 1], c);
      if events[|events| - 1].Attempt? {
        OrphanBlocksRun(Play(w, q, events[..|events| - 1]), q, events[|events| - 1].course);
      }
    }
    OrphanBlocksRun(Play(w, q, events), q, c);
  }

  // ---------- When a run succeeds ----------

  /** With a course in which everything answers. */
  predicate Smooth(c: Course) {
    && (forall s :: c.calls(s).Answered? && c.stores(s))
    && c.loads && c.loadsAgain && c.creates && c.links && c.finishes
  }

  /** The project that a connection of the source must lead to. */
  function Expected(w: World, q: Request): Id {
    if q.target.Some? then q.target.value
    else if TargetProject in w.checkpoints then w.checkpoints[TargetProject]
    else ""
  }

  /** The operation is linked already; or the source is bound to the expected project; or it is unbound, and the
      project asked for is free, the operation's own is recorded, or the title to create is free. */
  predicate Admits(w: World, q: Request, targetTaken: bool) {
    if w.connection.Some? then true
    else if w.bound.Some? then Expected(w, q) != "" && w.bound.value == Expected(w, q)
    else if q.target.Some? then !targetTaken
    else TargetProject in w.checkpoints || !w.titled
  }

  /** If everything answers, a run succeeds exactly if the world admits it. */
  lemma SmoothRunSucceeds(w: World, q: Request, c: Course)
    requires Smooth(c)
    ensures Run(w, q, c).result.Configured? <==> Admits(w, q, c.targetTaken)
  {
    BindNotConfigured(w, q, c);
    SmoothBind(w, q, c);
    SmoothProvision(Bind(w, q, c).w, c);
  }

  lemma SmoothBind(w: World, q: Request, c: Course)
    requires Smooth(c)
    ensures Bind(w, q, c).Going? <==> Admits(w, q, c.targetTaken)
  {
    if w.connection.None? {
      var w1 := Note(w, SourceProject, c).w;
      assert Expected(w1, q) == Expected(w, q) && (TargetProject in w1.checkpoints <==> TargetProject in w.checkpoints);
      SmoothAdopt(w1, q, c);
      var w2 := Adopt(w1, q, c).w;
      if Adopt(w1, q, c).Going? {
        SmoothFind(w2, q, c);
      }
    }
  }

  lemma SmoothAdopt(w: World, q: Request, c: Course)
    requires Smooth(c) && w.connection.None?
    ensures var p := Adopt(w, q, c);
      && (p.Going? <==>
            if w.bound.Some? then Expected(w, q) != "" && w.bound.value == Expected(w, q)
            else q.target.Some? ==> !c.targetTaken)
      && (p.Going? ==> p.w.titled == w.titled && (TargetProject in p.w.checkpoints <==> TargetProject in w.checkpoints))
  {
  }

  lemma SmoothFind(w: World, q: Request, c: Course)
    requires Smooth(c)
    ensures FindTarget(w, q, c).Going? <==> q.target.Some? || TargetProject in w.checkpoints || !w.titled
    ensures FindTarget(w, q, c).Going? ==> Connect(FindTarget(w, q, c).w, c).Going?
  {
  }

  lemma SmoothProvision(w: World, c: Course)
    requires Smooth(c)
    ensures Provision(w, c).Going?
  {
  }
}
