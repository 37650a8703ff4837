/**
 * `NpgsqlPreparedStatementHandle`: the name a data source gives a statement it
 * prepares on every connection, compared by data source identity and name.
 */
module PreparedStatementHandles {
  /** A data source; only its identity matters to a handle. */
  class DataSource {
    constructor ()
    {
    }
  }

  const ShownSqlLength := 30

  class PreparedStatementHandle {
    var dataSource: DataSource?
    const statementName: string
    const sql: string

    /** A new handle belongs to no data source until one is assigned. */
    constructor (statementName: string, sql: string)
      ensures this.statementName == statementName && this.sql == sql && dataSource == null
    {
      this.statementName := statementName;
      this.sql := sql;
      dataSource := null;
    }

    method SetDataSource(ds: DataSource)
      modifies this`dataSource
      ensures dataSource == ds
    {
      dataSource := ds;
    }

    /**
     * `Equals`: never null; the reference shortcut agrees with the field comparison, so
     * two handles are equal exactly when they share the data source and the name.
     */
    predicate Equals(other: PreparedStatementHandle?)
      reads this, other
      ensures Equals(other) <==>
                other != null && dataSource == other.dataSource && statementName == other.statementName
    {
      other != null && (this == other || (dataSource == other.dataSource && statementName == other.statementName))
    }

    /** `Equals(object)`: only a handle can be equal to a handle. */
    predicate EqualsObject(obj: object?)
      reads this, obj
      ensures EqualsObject(obj) <==>
                obj is PreparedStatementHandle && Equals(obj as PreparedStatementHandle)
      ensures EqualsObject(obj) ==> obj != null
    {
      obj is PreparedStatementHandle && Equals(obj as PreparedStatementHandle)
    }

    /** `GetHashCode`: the data source and name, through the platform's combining function. */
    function HashCode(combine: (DataSource?, string) -> int): int
      reads this
    {
      combine(dataSource, statementName)
    }

    /** `ToString`: the name, an arrow, and the first 30 characters of the SQL at most. */
    function ToString(): (s: string)
      reads this
      ensures var head := statementName + " -> ";
              && |s| == |head| + (if |sql| < ShownSqlLength then |sql| else ShownSqlLength)
              && s[..|head|] == head
              && s[|head|..] <= sql
    {
      statementName + " -> " + (if |sql| < ShownSqlLength then sql else sql[..ShownSqlLength])
    }
  }

  lemma EqualsReflexive(a: PreparedStatementHandle)
    ensures a.Equals(a)
  {
  }

  lemma EqualsSymmetric(a: PreparedStatementHandle, b: PreparedStatementHandle)
    ensures a.Equals(b) <==> b.Equals(a)
  {
  }

  lemma EqualsTransitive(a: PreparedStatementHandle, b: PreparedStatementHandle, c: PreparedStatementHandle)
    requires a.Equals(b) && b.Equals(c)
    ensures a.Equals(c)
  {
  }

  /** Equal handles hash alike, whatever the combining function. */
  lemma EqualHandlesHashAlike(a: PreparedStatementHandle, b: PreparedStatementHandle, combine: (DataSource?, string) -> int)
    requires a.Equals(b)
    ensures a.HashCode(combine) == b.HashCode(combine)
  {
  }

  /** The SQL text takes no part in equality. */
  lemma SqlIgnored(a: PreparedStatementHandle, b: PreparedStatementHandle)
    requires a.dataSource == b.dataSource && a.statementName == b.statementName && a.sql != b.sql
    ensures a.Equals(b)
  {
  }

  /** SQL shorter than 30 characters is shown whole. */
  lemma ShortSqlShownWhole(h: PreparedStatementHandle)
    requires |h.sql| < ShownSqlLength
    ensures h.ToString() == h.statementName + " -> " + h.sql
  {
  }
}
