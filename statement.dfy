/**
 * `NpgsqlStatement`: one SQL statement of a command, with the results its
 * CommandComplete message reports, its parameter list and, once prepared, the
 * cache entry it runs under.
 */
module Statements {
  import opened Wrappers
  import P = PreparedStatements

  /** The kinds of statement a CommandComplete tag names. */
  datatype StatementType =
    | Unknown | Select | Insert | Delete | Update | CreateTableAs
    | Move | Fetch | Copy | Other | Merge | Call

  /** A CommandComplete message: the statement type, the 64-bit row count and the OID. */
  datatype CommandComplete = CommandComplete(statementType: StatementType, rows: nat, oid: nat)

  const UInt32Modulus: nat := 0x1_0000_0000

  /** The cast `(uint)` of a 64-bit count: its low 32 bits. */
  function Truncate32(n: nat): (r: nat)
    ensures r < UInt32Modulus
    ensures n < UInt32Modulus ==> r == n
    ensures exists k: nat :: n == k * UInt32Modulus + r
  {
    var r := n % UInt32Modulus;
    assert n == (n / UInt32Modulus) * UInt32Modulus + r;
    r
  }

  /** A parameter list, given by the type OIDs of its parameters. */
  class ParameterList {
    var items: seq<nat>

    constructor ()
      ensures items == []
    {
      items := [];
    }

    method Clear()
      modifies this
      ensures items == []
    {
      items := [];
    }
  }

  class Statement {
    var sql: string
    var statementType: StatementType
    var longRows: nat
    var oid: nat
    var inputParameters: ParameterList?
    var isParameterListOwned: bool
    var description: Option<nat>
    var preparedStatement: P.CachedSqlEntry?

    /** An owned parameter list is one the statement created, so it is never null. */
    ghost predicate Valid()
      reads this
    {
      isParameterListOwned ==> inputParameters != null
    }

    constructor ()
      ensures Valid()
      ensures sql == "" && statementType == Unknown && longRows == 0 && oid == 0
      ensures fresh(inputParameters) && inputParameters.items == [] && isParameterListOwned
      ensures description == None && preparedStatement == null
    {
      sql := "";
      statementType := Unknown;
      longRows := 0;
      oid := 0;
      inputParameters := new ParameterList();
      isParameterListOwned := true;
      description := None;
      preparedStatement := null;
    }

    /** `Rows`: the row count as a 32-bit unsigned number. */
    function Rows(): (r: nat)
      reads this
      ensures r < UInt32Modulus
      ensures longRows < UInt32Modulus ==> r == longRows
    {
      Truncate32(longRows)
    }

    /** The `PreparedStatement` getter: an entry the cache has since unprepared is dropped for good. */
    method GetPreparedStatement() returns (p: P.CachedSqlEntry?)
      modifies this`preparedStatement
      ensures p == (if old(preparedStatement) != null && old(preparedStatement.state) == P.Unprepared
                    then null else old(preparedStatement))
      ensures preparedStatement == p
      ensures p != null ==> p.state != P.Unprepared
    {
      if preparedStatement != null && preparedStatement.state == P.Unprepared {
        preparedStatement := null;
      }
      p := preparedStatement;
    }

    method SetPreparedStatement(p: P.CachedSqlEntry?)
      modifies this`preparedStatement
      ensures preparedStatement == p
    {
      preparedStatement := p;
    }

    /** `Description` read: the live entry's description, else the statement's own. */
    method GetDescription() returns (d: Option<nat>)
      modifies this`preparedStatement
      ensures var live := old(preparedStatement) != null && old(preparedStatement.state) != P.Unprepared;
              && preparedStatement == (if live then old(preparedStatement) else null)
              && d == (if live then old(preparedStatement.description) else description)
    {
      var p := GetPreparedStatement();
      d := if p == null then description else p.description;
    }

    /** `Description` write: to the live entry when there is one, else to the statement's own field. */
    method SetDescription(d: Option<nat>)
      modifies this`preparedStatement, this`description, (if preparedStatement == null then {} else {preparedStatement})`description
      ensures var live := old(preparedStatement) != null && old(preparedStatement.state) != P.Unprepared;
              && preparedStatement == (if live then old(preparedStatement) else null)
              && (live ==> preparedStatement.description == d && description == old(description))
              && (!live ==> description == d)
    {
      var p := GetPreparedStatement();
      if p == null {
        description := d;
      } else {
        p.description := d;
      }
    }

    /** `StatementName`: the live entry's name, or "" when there is none or it has no name. */
    method StatementName() returns (name: string)
      modifies this`preparedStatement
      ensures var live := old(preparedStatement) != null && old(preparedStatement.state) != P.Unprepared;
              && preparedStatement == (if live then old(preparedStatement) else null)
              && name == (if live && old(preparedStatement.name).Some? then old(preparedStatement.name).value else "")
    {
      var p := GetPreparedStatement();
      name := if p != null && p.name.Some? then p.name.value else "";
    }

    /** `IsPrepared`: there is an entry and it is in the Prepared state. */
    method IsPrepared() returns (b: bool)
      modifies this`preparedStatement
      ensures b <==> old(preparedStatement) != null && old(preparedStatement.state) == P.Prepared
      ensures preparedStatement == (if old(preparedStatement) != null && old(preparedStatement.state) == P.Unprepared
                                    then null else old(preparedStatement))
    {
      var p := GetPreparedStatement();
      b := p != null && p.IsPrepared();
    }

    /** The `InputParameters` setter: a list given from outside is never owned. */
    method SetInputParameters(list: ParameterList?)
      modifies this`inputParameters, this`isParameterListOwned
      ensures inputParameters == list && !isParameterListOwned
      ensures Valid()
    {
      inputParameters := list;
      isParameterListOwned := false;
    }

    /**
     * `Reset`: clears the SQL, the results, the description and the prepared entry. An
     * owned list is emptied in place; otherwise the statement gets a new list, which the
     * setter marks not owned, or with `requireOwnedParameterList` false no list at all.
     */
    method Reset(requireOwnedParameterList: bool)
      requires Valid()
      modifies this, if isParameterListOwned then {inputParameters} else {}
      ensures Valid()
      ensures sql == "" && statementType == Select && description == None
      ensures longRows == 0 && oid == 0 && preparedStatement == null
      ensures old(isParameterListOwned) ==>
                inputParameters == old(inputParameters) && inputParameters.items == [] && isParameterListOwned
      ensures !old(isParameterListOwned) && requireOwnedParameterList ==>
                fresh(inputParameters) && inputParameters.items == [] && !isParameterListOwned
      ensures !old(isParameterListOwned) && !requireOwnedParameterList ==>
                inputParameters == null && !isParameterListOwned
    {
      sql := "";
      statementType := Select;
      description := None;
      longRows := 0;
      oid := 0;
      preparedStatement := null;
      if isParameterListOwned {
        inputParameters.Clear();
      } else if requireOwnedParameterList {
        var list := new ParameterList();
        SetInputParameters(list);
      } else {
        SetInputParameters(null);
      }
    }

    /** `ApplyCommandComplete`: the message's type, row count and OID replace the statement's. */
    method ApplyCommandComplete(msg: CommandComplete)
      modifies this`statementType, this`longRows, this`oid
      ensures statementType == msg.statementType && longRows == msg.rows && oid == msg.oid
      ensures Rows() == Truncate32(msg.rows)
    {
      statementType := msg.statementType;
      longRows := msg.rows;
      oid := msg.oid;
    }
  }

  /** Counts that differ by a multiple of 2^32 report the same `Rows`. */
  lemma RowsWrapAround(n: nat, k: nat)
    ensures Truncate32(n + k * UInt32Modulus) == Truncate32(n)
  {
    var m := n + k * UInt32Modulus;
    assert m % UInt32Modulus == n % UInt32Modulus by {
      assert m == (n / UInt32Modulus + k) * UInt32Modulus + n % UInt32Modulus;
    }
  }
}
