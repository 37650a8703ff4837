/**
 * `NpgsqlDataSourceBuilder`: logging settings, the statements registered to be prepared on
 * every physical connection (named "_ds1", "_ds2", ... in registration order), and the
 * choice of data source kind that `GetDataSource` makes.
 */
module DataSourceBuilders {
  import opened Wrappers
  import StatementNames
  import H = PreparedStatementHandles
  import S = SlimDataSourceBuilders

  const PreparedPrefix := "_ds"

  /** What `GetDataSource` hands to the data source it creates. */
  datatype DataSource = DataSource(
    kind: S.DataSourceKind,
    logging: S.LoggingConfiguration,
    preparedStatements: seq<H.PreparedStatementHandle>)

  /**
   * The choice `GetDataSource` makes. Unlike the slim builder's, it does not refuse target
   * session attributes with several hosts.
   */
  function SelectDataSource(settings: S.ConnectionSettings): (r: Result<S.DataSourceKind>)
    ensures r.Err? <==> ',' in settings.host && (settings.multiplexing || settings.replicationMode != S.Off)
    ensures r.Err? ==> r.error == NotSupported
    ensures r == Ok(S.MultiHost) <==> ',' in settings.host && !settings.multiplexing && settings.replicationMode == S.Off
    ensures r == Ok(S.Multiplexing) <==> ',' !in settings.host && settings.multiplexing
    ensures r == Ok(S.Pooling) <==> ',' !in settings.host && !settings.multiplexing && settings.pooling
    ensures r == Ok(S.Unpooled) <==> ',' !in settings.host && !settings.multiplexing && !settings.pooling
  {
    if ',' in settings.host then
      if settings.multiplexing then Err(NotSupported)
      else if settings.replicationMode != S.Off then Err(NotSupported)
      else Ok(S.MultiHost)
    else if settings.multiplexing then Ok(S.Multiplexing)
    else if settings.pooling then Ok(S.Pooling)
    else Ok(S.Unpooled)
  }

  /** Without target session attributes, both builders choose the same kind of data source. */
  lemma SameChoiceWithoutTargetSessionAttributes(settings: S.ConnectionSettings)
    requires settings.targetSessionAttributes.None?
    ensures SelectDataSource(settings) == S.SelectDataSource(settings)
  {
  }

  /**
   * With several hosts and target session attributes, this builder creates a multi-host data
   * source where the slim builder refuses with `InvalidOperationException`.
   */
  lemma ChoicesDifferOnTargetSessionAttributes(settings: S.ConnectionSettings)
    requires ',' in settings.host && settings.targetSessionAttributes.Some?
    requires !settings.multiplexing && settings.replicationMode == S.Off
    ensures SelectDataSource(settings) == Ok(S.MultiHost)
    ensures S.SelectDataSource(settings) == Err(InvalidOperation)
  {
  }

  class DataSourceBuilder {
    var settings: S.ConnectionSettings
    var loggerFactory: bool
    var sensitiveDataLogging: bool
    var preparedStatements: seq<H.PreparedStatementHandle>
    var preparedStatementIndex: nat

    /** The counter matches the statements, and the k-th statement (from 1) is named "_ds" + k. */
    ghost predicate Valid()
      reads this
    {
      preparedStatementIndex == |preparedStatements|
      && forall k | 0 <= k < |preparedStatements| ::
           preparedStatements[k].statementName == StatementNames.Numbered(PreparedPrefix, k + 1)
    }

    constructor (settings: S.ConnectionSettings)
      ensures Valid()
      ensures this.settings == settings && !loggerFactory && !sensitiveDataLogging && preparedStatements == []
    {
      this.settings := settings;
      loggerFactory, sensitiveDataLogging := false, false;
      preparedStatements, preparedStatementIndex := [], 0;
    }

    method UseLoggerFactory(present: bool) returns (b: DataSourceBuilder)
      modifies this`loggerFactory
      ensures b == this && loggerFactory == present
    {
      loggerFactory := present;
      return this;
    }

    method EnableParameterLogging(enabled: bool) returns (b: DataSourceBuilder)
      modifies this`sensitiveDataLogging
      ensures b == this && sensitiveDataLogging == enabled
    {
      sensitiveDataLogging := enabled;
      return this;
    }

    /**
     * `Prepare`: a new handle named after the incremented counter, appended to the
     * statements; its name is one no earlier statement of this builder has.
     */
    method Prepare(sql: string) returns (h: H.PreparedStatementHandle)
      requires Valid()
      modifies this`preparedStatements, this`preparedStatementIndex
      ensures Valid()
      ensures fresh(h) && h.sql == sql && h.dataSource == null
      ensures h.statementName == StatementNames.Numbered(PreparedPrefix, |old(preparedStatements)| + 1)
      ensures preparedStatements == old(preparedStatements) + [h]
      ensures forall k | 0 <= k < |old(preparedStatements)| :: old(preparedStatements)[k].statementName != h.statementName
    {
      preparedStatementIndex := preparedStatementIndex + 1;
      h := new H.PreparedStatementHandle(StatementNames.Numbered(PreparedPrefix, preparedStatementIndex), sql);
      forall k | 0 <= k < |preparedStatements|
        ensures preparedStatements[k].statementName != h.statementName
      {
        StatementNames.NumberedInjective(PreparedPrefix, k + 1, preparedStatementIndex);
      }
      preparedStatements := preparedStatements + [h];
    }

    /** `GetDataSource`: the logging configuration and the registered statements go to the chosen kind. */
    method GetDataSource() returns (r: Result<DataSource>)
      ensures r.Err? <==> SelectDataSource(settings).Err?
      ensures r.Err? ==> r.error == SelectDataSource(settings).error
      ensures r.Ok? ==> r.value == DataSource(SelectDataSource(settings).value,
                                             if loggerFactory then S.Logging(sensitiveDataLogging) else S.NullConfiguration,
                                             preparedStatements)
    {
      var logging := if loggerFactory then S.Logging(sensitiveDataLogging) else S.NullConfiguration;
      if ',' in settings.host {
        if settings.multiplexing {
          return Err(NotSupported);
        }
        if settings.replicationMode != S.Off {
          return Err(NotSupported);
        }
        return Ok(DataSource(S.MultiHost, logging, preparedStatements));
      }
      var kind := if settings.multiplexing then S.Multiplexing else if settings.pooling then S.Pooling else S.Unpooled;
      return Ok(DataSource(kind, logging, preparedStatements));
    }
  }

  /** The statements a valid builder registers all have distinct names. */
  lemma PreparedNamesDistinct(b: DataSourceBuilder, i: nat, j: nat)
    requires b.Valid() && i < j < |b.preparedStatements|
    ensures b.preparedStatements[i].statementName != b.preparedStatements[j].statementName
  {
    StatementNames.NumberedInjective(PreparedPrefix, i + 1, j + 1);
  }
}
