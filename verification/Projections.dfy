/** Issue projections: one row per Flow and source change, whose lifecycle leaves active once, and the action
    that completes all projections of a change. */
module Projections {
  import opened Text

  /** The unique key of a correlation row. */
  datatype ChangeKey = ChangeKey(workspace: Id, connection: Id, flow: Id, source: string, publication: string)

  datatype Lifecycle = Active | Done | Cancelled

  datatype Row = Row(target: Id, issues: set<int>, lifecycle: Lifecycle)

  type Rows = map<ChangeKey, Row>

  // ---------- The correlation statements ----------

  /** UpsertCorrelation: on conflict the lifecycle stays as it is. */
  function Upsert(rows: Rows, key: ChangeKey, row: Row): Rows {
    if key in rows then rows[key := row.(lifecycle := rows[key].lifecycle)] else rows[key := row]
  }

  /** The guarded update of MarkCorrelationLifecycle. */
  function Mark(rows: Rows, key: ChangeKey, status: Lifecycle): Rows {
    if key in rows && rows[key].lifecycle.Active? then rows[key := rows[key].(lifecycle := status)] else rows
  }

  datatype MarkResult = Marked | NotFound | Conflict

  class Correlations {
    var rows: Rows

    method UpsertCorrelation(key: ChangeKey, row: Row)
      modifies this
      ensures rows == Upsert(old(rows), key, row)
    {
      var stored := row;
      if key in rows {
        stored := stored.(lifecycle := rows[key].lifecycle);
      }
      rows := rows[key := stored];
    }

    /** The update, and the query that explains an update that found nothing to do. */
    method MarkCorrelationLifecycle(key: ChangeKey, status: Lifecycle) returns (r: MarkResult)
      requires !status.Active?
      modifies this
      ensures rows == Mark(old(rows), key, status)
      ensures r.Marked? <==> key in rows && rows[key].lifecycle == status
      ensures r.NotFound? <==> key !in rows
    {
      if key in rows && rows[key].lifecycle.Active? {
        rows := rows[key := rows[key].(lifecycle := status)];
        return Marked;
      }
      if key !in rows {
        return NotFound;
      }
      return if rows[key].lifecycle == status then Marked else Conflict;
    }

    method ListCorrelations(workspace: Id, connection: Id, source: string, publication: string)
    returns (listed: seq<ChangeKey>)
      ensures Lists(rows, workspace, connection, source, publication, listed)
      ensures forall key :: key in listed <==>
        key in rows && key.flow != "" && key == ChangeKey(workspace, connection, key.flow, source, publication)
    {
      listed := [];
      var rest := rows.Keys;
      while rest != {}
        invariant rest <= rows.Keys
        invariant forall i, j | 0 <= i < j < |listed| :: listed[i] != listed[j]
        invariant forall key :: key in listed <==>
          key in rows && key !in rest && Matches(key, workspace, connection, source, publication)
      {
        var key :| key in rest;
        if Matches(key, workspace, connection, source, publication) {
          listed := listed + [key];
        }
        rest := rest - {key};
      }
    }
  }

  predicate Matches(key: ChangeKey, workspace: Id, connection: Id, source: string, publication: string) {
    key.workspace == workspace && key.connection == connection && key.flow != "" && key.source == source
    && key.publication == publication
  }

  /** The projections of a change, whichever Flow owns them, in some order. */
  ghost predicate Lists(
    rows: Rows, workspace: Id, connection: Id, source: string, publication: string, listed: seq<ChangeKey>)
  {
    && (forall i, j | 0 <= i < j < |listed| :: listed[i] != listed[j])
    && (forall key :: key in listed <==> key in rows && Matches(key, workspace, connection, source, publication))
  }

  // ---------- Lifecycle, under every interleaving of statements ----------

  datatype Statement = UpsertRow(key: ChangeKey, row: Row) | MarkRow(key: ChangeKey, status: Lifecycle)

  function Execute(rows: Rows, s: Statement): Rows {
    match s
    case UpsertRow(key, row) => Upsert(rows, key, row)
    case MarkRow(key, status) => Mark(rows, key, status)
  }

  function After(rows: Rows, statements: seq<Statement>): Rows {
    if statements == [] then rows
    else Execute(After(rows, statements[..|statements| - 1]), statements[|statements| - 1])
  }

  /** How often the key's lifecycle changes along the way. */
  function Departures(rows: Rows, statements: seq<Statement>, key: ChangeKey): nat {
    if statements == [] then 0
    else
      var before := After(rows, statements[..|statements| - 1]);
      var after := Execute(before, statements[|statements| - 1]);
      Departures(rows, statements[..|statements| - 1], key)
      + if key in before && key in after && before[key].lifecycle != after[key].lifecycle then 1 else 0
  }

  /** A projection leaves active at most once, and its terminal status never changes. */
  lemma {:induction false} LeavesActiveOnce(rows: Rows, statements: seq<Statement>, key: ChangeKey)
    requires forall s | s in statements :: s.MarkRow? ==> !s.status.Active?
    requires key in rows && rows[key].lifecycle.Active?
    ensures key in After(rows, statements)
    ensures Departures(rows, statements, key) == if After(rows, statements)[key].lifecycle.Active? then 0 else 1
  {
    if statements != [] {
      LeavesActiveOnce(rows, statements[..|statements| - 1], key);
      assert statements[|statements| - 1] in statements;
    }
  }

  lemma {:induction false} TerminalStays(rows: Rows, statements: seq<Statement>, key: ChangeKey)
    requires key in rows && !rows[key].lifecycle.Active?
    ensures key in After(rows, statements) && After(rows, statements)[key].lifecycle == rows[key].lifecycle
  {
    if statements != [] {
      TerminalStays(rows, statements[..|statements| - 1], key);
    }
  }
}
