/** Creating the issue of a change: look the projection up, call the provider, record it. Runs of any number of
    executions interleave and stop anywhere; the provider's answer can be lost. */
module IssueCreation {
  import opened Text
  import opened Projections

  datatype Stage = Looking | Calling | Holding(issue: Id) | Returned(target: Id)

  datatype Creator = Creator(key: ChangeKey, stage: Stage)

  /** `created` counts the issues the provider has made, per change; `recorded` those written to the table;
      `lost` those of which nobody can tell any more. */
  datatype System = System(
    rows: Rows, creators: map<nat, Creator>,
    created: multiset<ChangeKey>, recorded: multiset<ChangeKey>, lost: multiset<ChangeKey>)

  datatype Action =
    | Begin(c: nat, key: ChangeKey)
    | Lookup(c: nat)
    | Created(c: nat, issue: Id)
    | CreatedUnheard(c: nat)
    | Refused(c: nat)
    | Record(c: nat, issues: set<int>)
    | Stop(c: nat)

  function Move(s: System, c: nat, stage: Stage): System
    requires c in s.creators
  {
    s.(creators := s.creators[c := s.creators[c].(stage := stage)])
  }

  function Leave(s: System, c: nat): System {
    s.(creators := s.creators - {c})
  }

  function Lose(s: System, key: ChangeKey): System {
    s.(lost := s.lost + multiset{key})
  }

  function Make(s: System, key: ChangeKey): System {
    s.(created := s.created + multiset{key})
  }

  predicate At(s: System, c: nat, stage: Stage) {
    c in s.creators && s.creators[c].stage == stage
  }

  /** An action that is not enabled changes nothing. An answer without an issue ID is an error. */
  function Do(s: System, a: Action): System {
    match a
    case Begin(c, key) => if c in s.creators then s else s.(creators := s.creators[c := Creator(key, Looking)])
    case Lookup(c) =>
      if !At(s, c, Looking) then s
      else
        var key := s.creators[c].key;
        Move(s, c, if key in s.rows then Returned(s.rows[key].target) else Calling)
    case Created(c, issue) =>
      if !At(s, c, Calling) then s
      else
        var key := s.creators[c].key;
        if issue == "" then Lose(Leave(Make(s, key), c), key) else Move(Make(s, key), c, Holding(issue))
    case CreatedUnheard(c) =>
      if !At(s, c, Calling) then s
      else
        var key := s.creators[c].key;
        Lose(Leave(Make(s, key), c), key)
    case Refused(c) => if At(s, c, Calling) then Leave(s, c) else s
    case Record(c, issues) =>
      if c !in s.creators || !s.creators[c].stage.Holding? then s
      else
        var key, issue := s.creators[c].key, s.creators[c].stage.issue;
        Move(s.(rows := Upsert(s.rows, key, Row(issue, issues, Active)), recorded := s.recorded + multiset{key}),
             c, Returned(issue))
    case Stop(c) =>
      if c !in s.creators then s
      else if s.creators[c].stage.Holding? then Lose(Leave(s, c), s.creators[c].key)
      else Leave(s, c)
  }

  function Run(s: System, actions: seq<Action>): System {
    if actions == [] then s else Do(Run(s, actions[..|actions| - 1]), actions[|actions| - 1])
  }

  // ---------- Conservation ----------

  function Holders(s: System, key: ChangeKey): set<nat> {
    set c | c in s.creators && s.creators[c].key == key && s.creators[c].stage.Holding?
  }

  /** Every issue made is recorded, held by a run that will record it, or lost. */
  predicate Balanced(s: System, key: ChangeKey) {
    s.created[key] == s.recorded[key] + |Holders(s, key)| + s.lost[key]
  }

  lemma StepHolders(s: System, a: Action, key: ChangeKey)
    ensures var before, after := Holders(s, key), Holders(Do(s, a), key);
      match a
      case Created(c, issue) =>
        after == if At(s, c, Calling) && s.creators[c].key == key && issue != "" then before + {c} else before
      case Record(c, _) => after == before - {c}
      case Stop(c) => after == before - {c}
      case _ => after == before
  {
  }

  lemma StepBalanced(s: System, a: Action, key: ChangeKey)
    requires Balanced(s, key)
    ensures Balanced(Do(s, a), key)
  {
    StepHolders(s, a, key);
    if a.Created? && At(s, a.c, Calling) {
      assert a.c !in Holders(s, key);
    }
    if (a.Record? || a.Stop?) && a.c in Holders(s, key) {
      assert |Holders(s, key) - {a.c}| == |Holders(s, key)| - 1;
    } else if a.Record? || a.Stop? {
      assert Holders(s, key) - {a.c} == Holders(s, key);
    }
  }

  /** Conservation of issues, under every interleaving. */
  lemma {:induction false} IssuesConserved(s: System, actions: seq<Action>, key: ChangeKey)
    requires Balanced(s, key)
    ensures Balanced(Run(s, actions), key)
  {
    if actions != [] {
      IssuesConserved(s, actions[..|actions| - 1], key);
      StepBalanced(Run(s, actions[..|actions| - 1]), actions[|actions| - 1], key);
    }
  }

  // ---------- Once recorded ----------

  predicate Creating(s: System, c: nat, key: ChangeKey) {
    c in s.creators && s.creators[c].key == key && (s.creators[c].stage.Calling? || s.creators[c].stage.Holding?)
  }

  /** The change has its row, and no run is between its lookup and its record. */
  predicate Settled(s: System, key: ChangeKey) {
    key in s.rows && forall c | c in s.creators :: !Creating(s, c, key)
  }

  /** All runs that have returned since give the recorded target. */
  predicate ReturnsTarget(s: System, s': System, key: ChangeKey, target: Id) {
    forall c | c in s'.creators && s'.creators[c].key == key && s'.creators[c].stage.Returned? ::
      s'.creators[c].stage.target == target || (c in s.creators && s.creators[c] == s'.creators[c])
  }

  /** Once the row exists (and no earlier run is still creating), no run ever calls the provider for the change
      again, and all of them return the one target. */
  lemma {:induction false} OnceRecorded(s: System, actions: seq<Action>, key: ChangeKey)
    requires Settled(s, key)
    ensures var s' := Run(s, actions);
      && Settled(s', key) && s'.rows[key] == s.rows[key] && s'.created[key] == s.created[key]
      && ReturnsTarget(s, s', key, s.rows[key].target)
  {
    if actions != [] {
      OnceRecorded(s, actions[..|actions| - 1], key);
      StepSettled(Run(s, actions[..|actions| - 1]), actions[|actions| - 1], key);
    }
  }

  lemma StepSettled(s: System, a: Action, key: ChangeKey)
    requires Settled(s, key)
    ensures var s' := Do(s, a);
      && Settled(s', key) && s'.rows[key] == s.rows[key] && s'.created[key] == s.created[key]
      && ReturnsTarget(s, s', key, s.rows[key].target)
  {
    if a.Begin? || a.Lookup? {
      StartSettled(s, a, key);
    } else {
      NobodyCreates(s, a, key);
    }
  }

  lemma StartSettled(s: System, a: Action, key: ChangeKey)
    requires Settled(s, key) && (a.Begin? || a.Lookup?)
    ensures var s' := Do(s, a);
      && Settled(s', key) && s'.rows == s.rows && s'.created == s.created
      && ReturnsTarget(s, s', key, s.rows[key].target)
  {
  }

  lemma NobodyCreates(s: System, a: Action, key: ChangeKey)
    requires Settled(s, key) && !a.Begin? && !a.Lookup?
    ensures var s' := Do(s, a);
      && Settled(s', key) && s'.rows[key] == s.rows[key] && s'.created[key] == s.created[key]
      && ReturnsTarget(s, s', key, s.rows[key].target)
  {
    assert a.c in s.creators ==> !Creating(s, a.c, key);
  }

  function Callers(s: System, key: ChangeKey): set<nat> {
    set c | c in s.creators && s.creators[c].key == key && s.creators[c].stage.Calling?
  }

  lemma StepCreating(s: System, a: Action, key: ChangeKey)
    requires key in s.rows
    ensures key in Do(s, a).rows && forall c | Creating(Do(s, a), c, key) :: Creating(s, c, key)
  {
  }

  lemma StepCallers(s: System, a: Action, key: ChangeKey)
    requires key in s.rows
    ensures var s' := Do(s, a);
      if s'.created[key] == s.created[key] then Callers(s', key) <= Callers(s, key)
      else
        && (a.Created? || a.CreatedUnheard?) && s'.created[key] == s.created[key] + 1
        && a.c in Callers(s, key) && Callers(s', key) == Callers(s, key) - {a.c}
  {
    hide Upsert;
  }

  /** Even with earlier runs still creating: once the row exists, no run whose lookup is yet to come calls the
      provider; only those that were calling already make an issue, one each. */
  lemma {:induction false} LateLookupsCreateNone(s: System, actions: seq<Action>, key: ChangeKey)
    requires key in s.rows
    ensures var s' := Run(s, actions);
      && key in s'.rows && (forall c | Creating(s', c, key) :: Creating(s, c, key))
      && s'.created[key] + |Callers(s', key)| <= s.created[key] + |Callers(s, key)|
  {
    if actions != [] {
      var before, a := Run(s, actions[..|actions| - 1]), actions[|actions| - 1];
      LateLookupsCreateNone(s, actions[..|actions| - 1], key);
      StepCreating(before, a, key);
      StepCallers(before, a, key);
      if Do(before, a).created[key] == before.created[key] {
        SubsetSize(Callers(Do(before, a), key), Callers(before, key));
      }
    }
  }

  lemma {:induction false} SubsetSize(a: set<nat>, b: set<nat>)
    requires a <= b
    ensures |a| <= |b|
  {
    if x :| x in a {
      SubsetSize(a - {x}, b - {x});
    }
  }

  // ---------- At most one, under the connection's lock ----------

  predicate Live(s: System, c: nat, key: ChangeKey) {
    c in s.creators && s.creators[c].key == key && !s.creators[c].stage.Returned?
  }

  /** The worker starts a run only once the connection has no other run in progress. */
  predicate Locked(s: System, a: Action) {
    a.Begin? ==> forall c | c in s.creators && s.creators[c].key.connection == a.key.connection ::
      s.creators[c].stage.Returned?
  }

  predicate LockedRun(s: System, actions: seq<Action>) {
    actions == []
    || (LockedRun(s, actions[..|actions| - 1]) && Locked(Run(s, actions[..|actions| - 1]), actions[|actions| - 1]))
  }

  function One(b: bool): nat { if b then 1 else 0 }

  /** Under the lock: one live run per change, which creates only if there is no row, and a row recorded once. */
  predicate Sole(s: System, key: ChangeKey) {
    && (forall c, d | c in s.creators && d in s.creators && Live(s, c, key) && Live(s, d, key) :: c == d)
    && (key in s.rows ==> forall c | c in s.creators :: !Creating(s, c, key))
    && s.recorded[key] == One(key in s.rows)
  }

  lemma StepSole(s: System, a: Action, key: ChangeKey)
    requires Sole(s, key) && Locked(s, a)
    ensures Sole(Do(s, a), key)
  {
    if a.Begin? {
      BeginSole(s, a, key);
    } else {
      FewerLive(s, a, key);
      if a.Record? {
        RecordSole(s, a, key);
      } else {
        FewerCreating(s, a, key);
      }
    }
  }

  lemma BeginSole(s: System, a: Action, key: ChangeKey)
    requires Sole(s, key) && Locked(s, a) && a.Begin?
    ensures Sole(Do(s, a), key)
  {
  }

  lemma FewerLive(s: System, a: Action, key: ChangeKey)
    requires !a.Begin?
    ensures forall c | Live(Do(s, a), c, key) :: Live(s, c, key)
  {
  }

  lemma FewerCreating(s: System, a: Action, key: ChangeKey)
    requires !a.Begin? && !a.Record?
    ensures Do(s, a).rows == s.rows && Do(s, a).recorded == s.recorded
    ensures key in s.rows ==> forall c | Creating(Do(s, a), c, key) :: Creating(s, c, key)
  {
  }

  lemma RecordSole(s: System, a: Action, key: ChangeKey)
    requires Sole(s, key) && a.Record?
    ensures Sole(Do(s, a), key)
  {
    if a.c in s.creators && s.creators[a.c].stage.Holding? && s.creators[a.c].key == key {
      assert Creating(s, a.c, key) && Live(s, a.c, key);
      assert forall c | c in s.creators && c != a.c :: !Live(s, c, key);
    }
  }

  lemma {:induction false} RunSole(s: System, actions: seq<Action>, key: ChangeKey)
    requires Sole(s, key) && LockedRun(s, actions)
    ensures Sole(Run(s, actions), key)
  {
    if actions != [] {
      RunSole(s, actions[..|actions| - 1], key);
      StepSole(Run(s, actions[..|actions| - 1]), actions[|actions| - 1], key);
    }
  }

  /** Under the lock the row alone is enough. */
  lemma RecordedUnderLock(s: System, before: seq<Action>, later: seq<Action>, key: ChangeKey)
    requires Sole(s, key) && LockedRun(s, before) && key in Run(s, before).rows
    ensures var s1, s2 := Run(s, before), Run(Run(s, before), later);
      && key in s2.rows && s2.rows[key] == s1.rows[key] && s2.created[key] == s1.created[key]
      && ReturnsTarget(s1, s2, key, s1.rows[key].target)
  {
    RunSole(s, before, key);
    OnceRecorded(Run(s, before), later, key);
  }

  lemma SoleHolder(s: System, key: ChangeKey)
    requires Sole(s, key)
    ensures |Holders(s, key)| <= One(key !in s.rows)
  {
    if c :| c in Holders(s, key) {
      assert Live(s, c, key) && Creating(s, c, key);
      forall d | d in Holders(s, key)
        ensures d == c
      {
        assert Live(s, d, key);
      }
      assert Holders(s, key) == {c};
    } else {
      assert Holders(s, key) == {};
    }
  }

  /** Create-once: with the connection's lock, the provider makes at most one issue per change beyond those whose
      answer was lost; none lost, at most one made. */
  lemma AtMostOneIssue(s: System, actions: seq<Action>, key: ChangeKey)
    requires Sole(s, key) && Balanced(s, key) && LockedRun(s, actions)
    ensures var s' := Run(s, actions);
      && s'.created[key] <= 1 + s'.lost[key]
      && (key in s'.rows ==> s'.created[key] == 1 + s'.lost[key])
  {
    IssuesConserved(s, actions, key);
    RunSole(s, actions, key);
    SoleHolder(Run(s, actions), key);
  }

  // ---------- Which issue is recorded and returned ----------

  /** No row, no run, nothing made. */
  function Empty(): System {
    System(map[], map[], multiset{}, multiset{}, multiset{})
  }

  /** By its k-th action the provider has answered the issue to a run for the key. */
  predicate AnsweredAt(actions: seq<Action>, k: nat, key: ChangeKey, issue: Id)
    requires k < |actions|
  {
    && actions[k].Created? && actions[k].issue == issue
    && At(Run(Empty(), actions[..k]), actions[k].c, Calling)
    && Run(Empty(), actions[..k]).creators[actions[k].c].key == key
  }

  ghost predicate Answered(actions: seq<Action>, key: ChangeKey, issue: Id) {
    exists k: nat :: k < |actions| && AnsweredAt(actions, k, key, issue)
  }

  /** The row was recorded with these publication issues. */
  ghost predicate RecordedWith(actions: seq<Action>, issues: set<int>) {
    exists a | a in actions :: a.Record? && a.issues == issues
  }

  /** What runs hold and rows record was answered for their change. */
  ghost predicate FromAnswers(actions: seq<Action>, s: System) {
    && (forall c | c in s.creators && s.creators[c].stage.Holding? ::
          Answered(actions, s.creators[c].key, s.creators[c].stage.issue))
    && (forall c | c in s.creators && s.creators[c].stage.Returned? ::
          Answered(actions, s.creators[c].key, s.creators[c].stage.target))
    && (forall key | key in s.rows ::
          Answered(actions, key, s.rows[key].target) && RecordedWith(actions, s.rows[key].issues))
  }

  lemma AnsweredEarlier(front: seq<Action>, a: Action, key: ChangeKey, issue: Id)
    requires Answered(front, key, issue)
    ensures Answered(front + [a], key, issue)
  {
    var k: nat :| k < |front| && AnsweredAt(front, k, key, issue);
    assert (front + [a])[..k] == front[..k];
    assert AnsweredAt(front + [a], k, key, issue);
  }

  lemma RecordedEarlier(front: seq<Action>, a: Action, issues: set<int>)
    requires RecordedWith(front, issues)
    ensures RecordedWith(front + [a], issues)
  {
    var x :| x in front && x.Record? && x.issues == issues;
    assert x in front + [a];
  }

  lemma AnswersGrow(front: seq<Action>, a: Action, s: System)
    requires FromAnswers(front, s)
    ensures FromAnswers(front + [a], s)
  {
    forall key, issue | Answered(front, key, issue)
      ensures Answered(front + [a], key, issue)
    {
      AnsweredEarlier(front, a, key, issue);
    }
    forall issues | RecordedWith(front, issues)
      ensures RecordedWith(front + [a], issues)
    {
      RecordedEarlier(front, a, issues);
    }
  }

  lemma StepFromAnswers(actions: seq<Action>, s: System, a: Action)
    requires FromAnswers(actions, s)
    requires a.Created? && At(s, a.c, Calling) ==> Answered(actions, s.creators[a.c].key, a.issue)
    requires a.Record? ==> RecordedWith(actions, a.issues)
    ensures FromAnswers(actions, Do(s, a))
  {
    hide Answered, RecordedWith;
  }

  /** In every interleaving, from nothing: what a row records as its target, and what a run holds or has returned, is an
      issue that the provider answered to a run for that very change; and the row's publication issues are those it
      was recorded with. */
  lemma {:induction false} RowsRecordAnswers(actions: seq<Action>)
    ensures FromAnswers(actions, Run(Empty(), actions))
  {
    if actions != [] {
      var front, a := actions[..|actions| - 1], actions[|actions| - 1];
      var before := Run(Empty(), front);
      RowsRecordAnswers(front);
      assert actions == front + [a];
      AnswersGrow(front, a, before);
      if a.Created? && At(before, a.c, Calling) {
        assert AnsweredAt(actions, |front|, before.creators[a.c].key, a.issue);
      }
      StepFromAnswers(actions, before, a);
    }
  }

  /** Every run that has returned gave the target that the row records. */
  predicate OneTarget(s: System, key: ChangeKey) {
    forall c | c in s.creators && s.creators[c].key == key && s.creators[c].stage.Returned? ::
      key in s.rows && s.creators[c].stage.target == s.rows[key].target
  }

  lemma StepOneTarget(s: System, a: Action, key: ChangeKey)
    requires Sole(s, key) && OneTarget(s, key)
    ensures OneTarget(Do(s, a), key)
  {
    if a.Record? && a.c in s.creators {
      assert s.creators[a.c].stage.Holding? && s.creators[a.c].key == key ==> Creating(s, a.c, key);
    }
  }

  /** Create-once: under the connection's lock, from nothing, all runs for a change that return give one and the same
      target, the run that created it included: an issue that the provider answered for that change. */
  lemma {:induction false} AllReturnTheSame(actions: seq<Action>, key: ChangeKey)
    requires LockedRun(Empty(), actions)
    ensures var s := Run(Empty(), actions);
      && Sole(s, key) && OneTarget(s, key) && (key in s.rows ==> Answered(actions, key, s.rows[key].target))
  {
    if actions != [] {
      var front, a := actions[..|actions| - 1], actions[|actions| - 1];
      AllReturnTheSame(front, key);
      StepSole(Run(Empty(), front), a, key);
      StepOneTarget(Run(Empty(), front), a, key);
    }
    RowsRecordAnswers(actions);
  }

  /** Without the lock, two runs that have both looked the change up in vain create two issues, none lost. */
  lemma OverlapCreatesTwo(s: System, c: nat, d: nat, key: ChangeKey, i: Id, j: Id)
    requires c != d && At(s, c, Looking) && At(s, d, Looking) && s.creators[c].key == key && s.creators[d].key == key
    requires key !in s.rows && i != "" && j != ""
    ensures var s' := Do(Do(Do(Do(s, Lookup(c)), Lookup(d)), Created(c, i)), Created(d, j));
      s'.created[key] == s.created[key] + 2 && s'.lost == s.lost
  {
    var s1 := Do(s, Lookup(c));
    var s2 := Do(s1, Lookup(d));
    assert At(s2, c, Calling) && At(s2, d, Calling);
    var s3 := Do(s2, Created(c, i));
    assert At(s3, d, Calling);
  }
}
