/**
 * The auto-commit guard around table DDL. Azure Synapse Analytics rejects DDL such as
 * CREATE TABLE inside a user transaction, so for that product the connector forces
 * auto-commit on while the DDL runs and puts the caller's mode back afterwards, whether the
 * DDL completed or threw. Other products run the DDL in whatever mode the caller chose.
 */
module DdlGuard {
  import opened Wrappers
  import opened Jdbc

  /** The table DDL the base connector runs for each overridden member. */
  datatype Ddl =
    | CreateTable(table: TableIdentifier, schema: JdbcSchema, tableConstraint: Option<string>, tableOption: Option<string>)
    | ReplaceTable(fromTable: TableIdentifier, schema: JdbcSchema, toTable: TableIdentifier, postSql: Option<string>)
    | DropTable(table: TableIdentifier)

  datatype SqlException = SqlException(message: string)

  /** How a call ends: normally, or by throwing an exception. */
  datatype Outcome = Completed | Threw(exception: SqlException)

  /** What the layer does to the connection, in order. */
  datatype Event = AutoCommitSet(value: bool) | DdlRan(ddl: Ddl, autoCommit: bool)

  /** The auto-commit mode after `events`, starting in mode `start`. */
  function AutoCommitAfter(start: bool, events: seq<Event>): bool
  {
    if events == [] then start
    else match events[|events| - 1]
      case AutoCommitSet(value) => value
      case DdlRan(_, _) => AutoCommitAfter(start, events[..|events| - 1])
  }

  /** Every DDL event records the mode that was in effect when the DDL ran. */
  ghost predicate Truthful(start: bool, events: seq<Event>)
  {
    forall i :: 0 <= i < |events| && events[i].DdlRan? ==> events[i].autoCommit == AutoCommitAfter(start, events[..i])
  }

  /** The events each overridden DDL member causes, given the caller's mode `autoCommit`. */
  function DdlEvents(product: Product, autoCommit: bool, ddl: Ddl): seq<Event>
  {
    if product == AzureSynapseAnalytics then
      [AutoCommitSet(true), DdlRan(ddl, true), AutoCommitSet(autoCommit)]
    else
      [DdlRan(ddl, autoCommit)]
  }

  /** The outcome of running `ddl` when the database answers with `failure`: it propagates unchanged. */
  function DdlOutcome(failure: Option<SqlException>): Outcome
  {
    match failure
    case None => Completed
    case Some(e) => Threw(e)
  }

  /** Replaying a log in two parts is replaying the second part from where the first left off. */
  lemma {:induction false} AutoCommitAfterAppend(start: bool, events: seq<Event>, more: seq<Event>)
    ensures AutoCommitAfter(start, events + more) == AutoCommitAfter(AutoCommitAfter(start, events), more)
  {
    if more != [] {
      var n := |more|;
      assert (events + more)[..|events + more| - 1] == events + more[..n - 1];
      AutoCommitAfterAppend(start, events, more[..n - 1]);
    } else {
      assert events + more == events;
    }
  }

  /** A one-event step keeps the log truthful when the event records the current mode. */
  lemma TruthfulStep(start: bool, events: seq<Event>, e: Event)
    requires Truthful(start, events)
    requires e.DdlRan? ==> e.autoCommit == AutoCommitAfter(start, events)
    ensures Truthful(start, events + [e])
  {
    var all := events + [e];
    forall i | 0 <= i < |all| && all[i].DdlRan?
      ensures all[i].autoCommit == AutoCommitAfter(start, all[..i])
    {
      if i < |events| {
        assert all[..i] == events[..i];
      } else {
        assert all[..i] == events;
      }
    }
  }

  /**
   * Whatever the log before it, each overridden DDL member leaves the connection in the
   * caller's mode, keeps the log truthful, runs its DDL exactly once, with auto-commit on for
   * Synapse and in the caller's mode otherwise, and touches auto-commit only for Synapse.
   */
  lemma {:induction false} DdlEventsRestoreMode(product: Product, start: bool, prior: seq<Event>, ddl: Ddl)
    requires Truthful(start, prior)
    ensures var mode := AutoCommitAfter(start, prior);
      AutoCommitAfter(start, prior + DdlEvents(product, mode, ddl)) == mode
    ensures Truthful(start, prior + DdlEvents(product, AutoCommitAfter(start, prior), ddl))
    ensures var mode := AutoCommitAfter(start, prior);
      var events := DdlEvents(product, mode, ddl);
      forall i :: 0 <= i < |events| && events[i].DdlRan? ==>
        events[i].ddl == ddl && events[i].autoCommit == (product == AzureSynapseAnalytics || mode)
    ensures var events := DdlEvents(product, AutoCommitAfter(start, prior), ddl);
      var k := if product == AzureSynapseAnalytics then 1 else 0;
      k < |events| && events[k].DdlRan? &&
      forall j :: 0 <= j < |events| && events[j].DdlRan? ==> j == k
    ensures product != AzureSynapseAnalytics ==>
      forall e :: e in DdlEvents(product, AutoCommitAfter(start, prior), ddl) ==> !e.AutoCommitSet?
  {
    var mode := AutoCommitAfter(start, prior);
    var events := DdlEvents(product, mode, ddl);
    AutoCommitAfterAppend(start, prior, events);
    if product == AzureSynapseAnalytics {
      var e0, e1, e2 := AutoCommitSet(true), DdlRan(ddl, true), AutoCommitSet(mode);
      TruthfulStep(start, prior, e0);
      AutoCommitAfterAppend(start, prior, [e0]);
      TruthfulStep(start, prior + [e0], e1);
      TruthfulStep(start, prior + [e0] + [e1], e2);
      assert prior + [e0] + [e1] + [e2] == prior + events;
    } else {
      TruthfulStep(start, prior, DdlRan(ddl, mode));
    }
  }

  /** The JDBC connection's auto-commit flag, with a ghost log of what was done to it. */
  class JdbcConnection {
    var autoCommit: bool
    ghost const initialAutoCommit: bool
    ghost var events: seq<Event>

    /** The flag is the replay of the log, and the log records the true mode of every DDL run. */
    ghost predicate Valid()
      reads this
    {
      autoCommit == AutoCommitAfter(initialAutoCommit, events) && Truthful(initialAutoCommit, events)
    }

    constructor (autoCommit: bool)
      ensures Valid() && this.autoCommit == autoCommit && events == []
    {
      this.autoCommit := autoCommit;
      initialAutoCommit := autoCommit;
      events := [];
    }

    method GetAutoCommit() returns (value: bool)
      ensures value == autoCommit
    {
      value := autoCommit;
    }

    method SetAutoCommit(value: bool)
      requires Valid()
      modifies this
      ensures Valid() && autoCommit == value
      ensures events == old(events) + [AutoCommitSet(value)]
    {
      TruthfulStep(initialAutoCommit, events, AutoCommitSet(value));
      assert (events + [AutoCommitSet(value)])[..|events|] == events;
      autoCommit := value;
      events := events + [AutoCommitSet(value)];
    }

    /**
     * The base connector's DDL for `ddl` (create, replace or drop table), run in the current
     * mode; `failure` is the database's answer, and a failure is thrown to the caller.
     */
    method RunBaseDdl(ddl: Ddl, failure: Option<SqlException>) returns (outcome: Outcome)
      requires Valid()
      modifies this
      ensures Valid() && autoCommit == old(autoCommit)
      ensures events == old(events) + [DdlRan(ddl, old(autoCommit))]
      ensures outcome == DdlOutcome(failure)
    {
      TruthfulStep(initialAutoCommit, events, DdlRan(ddl, autoCommit));
      assert (events + [DdlRan(ddl, autoCommit)])[..|events|] == events;
      events := events + [DdlRan(ddl, autoCommit)];
      outcome := DdlOutcome(failure);
    }
  }

  /** The SQL Server output connection: its product, fixed at construction, and its JDBC connection. */
  class SqlServerOutputConnection {
    const connection: JdbcConnection
    const product: Product

    constructor (connection: JdbcConnection, product: Product)
      ensures this.connection == connection && this.product == product
    {
      this.connection := connection;
      this.product := product;
    }

    /**
     * Saves the mode, forces auto-commit on, runs the DDL, and restores the saved mode on the
     * way out; a failure of the DDL reaches the caller after the restore.
     */
    method ExecuteDdlInAutoCommit(ddl: Ddl, failure: Option<SqlException>) returns (outcome: Outcome)
      requires connection.Valid()
      modifies connection
      ensures connection.Valid() && connection.autoCommit == old(connection.autoCommit)
      ensures connection.events
           == old(connection.events) + [AutoCommitSet(true), DdlRan(ddl, true), AutoCommitSet(old(connection.autoCommit))]
      ensures outcome == DdlOutcome(failure)
    {
      var autoCommit := connection.GetAutoCommit();
      // try
      connection.SetAutoCommit(true);
      outcome := connection.RunBaseDdl(ddl, failure);
      // finally: reached whether the DDL completed or threw
      connection.SetAutoCommit(autoCommit);
    }

    method CreateTable(table: TableIdentifier, schema: JdbcSchema, tableConstraint: Option<string>,
                       tableOption: Option<string>, failure: Option<SqlException>) returns (outcome: Outcome)
      requires connection.Valid()
      modifies connection
      ensures connection.Valid() && connection.autoCommit == old(connection.autoCommit)
      ensures connection.events
           == old(connection.events) + DdlEvents(product, old(connection.autoCommit), Ddl.CreateTable(table, schema, tableConstraint, tableOption))
      ensures outcome == DdlOutcome(failure)
    {
      var ddl := Ddl.CreateTable(table, schema, tableConstraint, tableOption);
      if product == AzureSynapseAnalytics {
        outcome := ExecuteDdlInAutoCommit(ddl, failure);
      } else {
        outcome := connection.RunBaseDdl(ddl, failure);
      }
    }

    method ReplaceTable(fromTable: TableIdentifier, schema: JdbcSchema, toTable: TableIdentifier,
                        postSql: Option<string>, failure: Option<SqlException>) returns (outcome: Outcome)
      requires connection.Valid()
      modifies connection
      ensures connection.Valid() && connection.autoCommit == old(connection.autoCommit)
      ensures connection.events
           == old(connection.events) + DdlEvents(product, old(connection.autoCommit), Ddl.ReplaceTable(fromTable, schema, toTable, postSql))
      ensures outcome == DdlOutcome(failure)
    {
      var ddl := Ddl.ReplaceTable(fromTable, schema, toTable, postSql);
      if product == AzureSynapseAnalytics {
        outcome := ExecuteDdlInAutoCommit(ddl, failure);
      } else {
        outcome := connection.RunBaseDdl(ddl, failure);
      }
    }

    method DropTable(table: TableIdentifier, failure: Option<SqlException>) returns (outcome: Outcome)
      requires connection.Valid()
      modifies connection
      ensures connection.Valid() && connection.autoCommit == old(connection.autoCommit)
      ensures connection.events == old(connection.events) + DdlEvents(product, old(connection.autoCommit), Ddl.DropTable(table))
      ensures outcome == DdlOutcome(failure)
    {
      var ddl := Ddl.DropTable(table);
      if product == AzureSynapseAnalytics {
        outcome := ExecuteDdlInAutoCommit(ddl, failure);
      } else {
        outcome := connection.RunBaseDdl(ddl, failure);
      }
    }
  }
}
