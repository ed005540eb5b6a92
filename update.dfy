/**
 * The UPDATE statement builder of Update.java: a backward-linked chain of
 * stages
 *
 *   Update -> [UpdateConflictAlgorithm] -> TableNode -> Set (1..n) -> [Where]
 *
 * that share one mutable build context (UpdateBuilder): the bound arguments
 * and the table stage. Each stage pushes the arguments of its expressions
 * onto the shared list when it is constructed, in the order its fragment
 * renders them. Every stage has a `Valid()` predicate saying that the shared
 * list holds exactly the arguments of the chain so far; each stage method
 * keeps it, and the lemmas `ArgsMatchPlaceholders` turn it into the
 * statement-level lock-step: binding the accumulated arguments into the
 * rendered statement yields the statement with every literal in place.
 *
 * A chain is used once. Building a second continuation from a stage appends
 * to the same list; the model does not forbid that, but then the older
 * stage is no longer `Valid()`.
 */
module Update {
  import opened Wrappers
  import opened SqlText
  import opened Expressions
  import opened NumericColumn

  /**
   * Conflict algorithm keywords, indexed by the conflict constant; index 0 is
   * the engine's default and adds no keyword. ConflictAlgorithm.java is not
   * part of this model: these follow the Android SQLite constants.
   */
  const ConflictValues: seq<string> := ["", "OR ROLLBACK", "OR ABORT", "OR FAIL", "OR IGNORE", "OR REPLACE"]

  /** An `@ConflictAlgorithm int`: a valid index into ConflictValues. */
  type ConflictAlgorithm = i: int | 0 <= i < 6

  /** A Java `long`. */
  type Long = i: int | -0x8000_0000_0000_0000 <= i < 0x8000_0000_0000_0000

  lemma ConflictValuesBare(i: ConflictAlgorithm)
    ensures NoPlaceholder(ConflictValues[i])
  {
  }

  /** Decimal text of a natural number. */
  function Digits(n: nat): (s: string)
    ensures |s| > 0 && NoPlaceholder(s)
  {
    var d := ['0', '1', '2', '3', '4', '5', '6', '7', '8', '9'][n % 10];
    if n < 10 then [d] else Digits(n / 10) + [d]
  }

  /** `Long.toString`. */
  function LongText(n: Long): string {
    if n < 0 then "-" + Digits(-(n as int)) else Digits(n)
  }

  /**
   * `new UpdateColumn(column)`: the same descriptor, rendered as its bare
   * name and encoding values as the wrapped column does.
   */
  function UpdateColumn(c: Column): (u: Column)
    ensures u.table == c.table && u.name == c.name && u.allFromTable == c.allFromTable
    ensures u.parser == c.parser && u.nullable == c.nullable && u.alias == c.alias
    ensures ColumnSql(u) == c.name
    ensures forall v :: ToSqlArg(u, v) == ToSqlArg(c, v)
    ensures BareColumn(u) <==> NoPlaceholder(c.name)
  {
    Column(c.table, c.name, c.allFromTable, c.parser, c.nullable, c.alias, Unqualified(c))
  }

  // Assignments. Column.java is not part of this model: `is` is taken to
  // build `column=?`, `column=other` and `column=(select)`.

  /** `new UpdateColumn(column).is(value)`. */
  function AssignValue(c: Column, v: Value): (e: Expr)
    ensures Sql(e) == c.name + "=?" && Args(e) == [ToSqlArg(c, v)]
    ensures NoPlaceholder(c.name) ==> WellFormed(e) && Inlined(e) == c.name + "=" + ToSqlArg(c, v)
  {
    CompareValue(UpdateColumn(c), "=", v)
  }

  /** `new UpdateColumn(column).is(long)` of a complex column: the id is bound as its decimal text. */
  function AssignLong(c: Column, n: Long): (e: Expr)
    ensures Sql(e) == c.name + "=?" && Args(e) == [LongText(n)]
    ensures NoPlaceholder(c.name) ==> WellFormed(e) && Inlined(e) == c.name + "=" + LongText(n)
  {
    ValueOperator("=");
    Expr1(UpdateColumn(c), "=?", LongText(n))
  }

  /** `new UpdateColumn(column).is(assignmentColumn)`. */
  function AssignColumn(c: Column, d: Column): (e: Expr)
    ensures Sql(e) == c.name + "=" + ColumnSql(d) && Args(e) == []
    ensures NoPlaceholder(c.name) && BareColumn(d) ==> WellFormed(e)
  {
    CompareColumn(UpdateColumn(c), "=", d)
  }

  /** `new UpdateColumn(column).is(select)`. */
  function AssignSelect(c: Column, s: Select): (e: Expr)
    ensures Sql(e) == c.name + "=(" + s.sql + ")" && Args(e) == s.args
    ensures NoPlaceholder(c.name) && WellFormedSelect(s) ==> WellFormed(e)
  {
    CompareSelect(UpdateColumn(c), "=", s)
  }

  lemma JoinSqlSnoc(es: seq<Expr>, e: Expr)
    ensures JoinSql(es + [e]) == if |es| == 0 then Sql(e) else JoinSql(es) + "," + Sql(e)
  {
    assert (es + [e])[..|es|] == es;
  }

  /** One step of rendering a comma-separated list onto a text. */
  lemma AppendStep(head: string, es: seq<Expr>, i: nat)
    requires i < |es|
    ensures i != 0 ==> head + JoinSql(es[..i]) + "," + Sql(es[i]) == head + JoinSql(es[..i + 1])
    ensures i == 0 ==> head + JoinSql(es[..i]) + Sql(es[i]) == head + JoinSql(es[..i + 1])
  {
    assert es[..i + 1] == es[..i] + [es[i]];
    JoinSqlSnoc(es[..i], es[i]);
    if i != 0 {
      Assoc(head, JoinSql(es[..i]), ",");
      Assoc(head, JoinSql(es[..i]) + ",", Sql(es[i]));
    } else {
      assert JoinSql(es[..i]) == "";
      assert head + "" == head;
    }
  }

  lemma JoinArgsSnoc(es: seq<Expr>, e: Expr)
    ensures JoinArgs(es + [e]) == JoinArgs(es) + Args(e)
  {
    assert (es + [e])[..|es|] == es;
  }

  /**
   * Lock-step of `prefix SET u1,...,un`: the assignments' arguments, in
   * order, bind to its placeholders.
   */
  lemma SetLockStep(prefix: string, updates: seq<Expr>)
    requires NoPlaceholder(prefix) && AllWellFormed(updates)
    ensures Placeholders(prefix + " " + ("SET " + JoinSql(updates))) == |JoinArgs(updates)|
    ensures Bind(prefix + " " + ("SET " + JoinSql(updates)), JoinArgs(updates))
         == Some(prefix + " SET " + JoinInlined(updates))
  {
    var head := prefix + " SET ";
    assert prefix + " " + ("SET " + JoinSql(updates)) == head + JoinSql(updates);
    JoinLockStep(updates);
    BindTextThen(head, JoinSql(updates), JoinArgs(updates));
    NoPlaceholderCount(head);
    PlaceholdersAppend(head, JoinSql(updates));
  }

  /**
   * Lock-step carries over from `UPDATE ... SET ...` to the statement with
   * `WHERE e` appended and the condition's arguments after the others.
   */
  lemma WhereLockStep(setSql: string, setArgs: seq<string>, setInlined: string, e: Expr)
    requires Bind(setSql, setArgs) == Some(setInlined) && WellFormed(e)
    ensures Placeholders(setSql + " " + ("WHERE " + Sql(e))) == |setArgs + Args(e)|
    ensures Bind(setSql + " " + ("WHERE " + Sql(e)), setArgs + Args(e))
         == Some(setInlined + " WHERE " + Inlined(e))
  {
    var head := setSql + " WHERE ";
    assert setSql + " " + ("WHERE " + Sql(e)) == head + Sql(e);
    LockStep(e);
    NoPlaceholderCount(" WHERE ");
    BindThenText(setSql, " WHERE ", setArgs);
    PlaceholdersAppend(setSql, " WHERE ");
    BindAppend(head, Sql(e), setArgs, Args(e));
    PlaceholdersAppend(head, Sql(e));
  }

  /** The build context shared by all stages of one statement. */
  class UpdateBuilder {
    var args: seq<string>
    var tableNode: TableNode?

    constructor ()
      ensures args == [] && tableNode == null
    {
      args := [];
      tableNode := null;
    }
  }

  /** The root stage: it has no parent and renders `UPDATE`. */
  class Update {
    const builder: UpdateBuilder

    constructor ()
      ensures fresh(builder) && builder.args == [] && builder.tableNode == null
    {
      builder := new UpdateBuilder();
    }

    /** `appendSql`: the root renders exactly `UPDATE`. */
    function Fragment(): (r: string)
      ensures r == "UPDATE" && NoPlaceholder(r)
    {
      "UPDATE"
    }

    /** `Update.withConflictAlgorithm(conflictAlgorithm)`. */
    static method WithConflictAlgorithm(conflictAlgorithm: ConflictAlgorithm) returns (n: UpdateConflictAlgorithm)
      ensures fresh(n) && fresh(n.parent) && fresh(n.builder) && n.Valid()
      ensures n.conflictAlgorithm == conflictAlgorithm && n.builder.tableNode == null
      ensures n.StatementSql() == "UPDATE " + ConflictValues[conflictAlgorithm]
    {
      var root := new Update();
      n := new UpdateConflictAlgorithm(root, conflictAlgorithm);
    }

    /** `Update.table(table)`. */
    static method Table(table: Table) returns (n: TableNode)
      ensures fresh(n) && fresh(n.builder) && n.Valid()
      ensures n.parent.RootParent? && fresh(n.parent.root) && n.table == table
      ensures n.StatementSql() == "UPDATE " + FromClause(table)
    {
      var root := new Update();
      n := new TableNode(RootParent(root), table);
    }
  }

  /** The optional conflict stage, directly after the root. */
  class UpdateConflictAlgorithm {
    const parent: Update
    const builder: UpdateBuilder
    const conflictAlgorithm: ConflictAlgorithm

    constructor (parent: Update, conflictAlgorithm: ConflictAlgorithm)
      ensures this.parent == parent && builder == parent.builder
      ensures this.conflictAlgorithm == conflictAlgorithm
    {
      this.parent := parent;
      this.builder := parent.builder;
      this.conflictAlgorithm := conflictAlgorithm;
    }

    ghost predicate Valid()
      reads builder
    {
      builder == parent.builder && builder.args == []
    }

    /** `appendSql`: the algorithm's keyword, empty for the default. */
    function Fragment(): (r: string)
      ensures r in ConflictValues && NoPlaceholder(r)
      ensures r == "" <==> conflictAlgorithm == 0
    {
      ConflictValuesBare(conflictAlgorithm);
      ConflictValues[conflictAlgorithm]
    }

    /** The statement so far: the root's fragment, then this stage's. */
    function StatementSql(): (r: string)
      ensures r == "UPDATE " + ConflictValues[conflictAlgorithm] && NoPlaceholder(r)
    {
      parent.Fragment() + " " + Fragment()
    }

    /** `table(table)`. */
    method Table(table: Table) returns (n: TableNode)
      modifies builder
      ensures fresh(n) && n.parent == ConflictParent(this) && n.table == table && n.builder == builder
      ensures builder.tableNode == n && builder.args == old(builder.args)
      ensures old(Valid()) ==> n.Valid()
      ensures n.StatementSql() == "UPDATE " + ConflictValues[conflictAlgorithm] + " " + FromClause(table)
    {
      n := new TableNode(ConflictParent(this), table);
    }
  }

  /** The stage a TableNode follows: the root or the conflict stage. */
  datatype TableParent = RootParent(root: Update) | ConflictParent(stage: UpdateConflictAlgorithm) {
    function Builder(): UpdateBuilder {
      match this
      case RootParent(r) => r.builder
      case ConflictParent(s) => s.builder
    }

    function StatementSql(): string {
      match this
      case RootParent(r) => r.Fragment()
      case ConflictParent(s) => s.StatementSql()
    }
  }

  /** The table stage: records itself in the context and renders the table. */
  class TableNode {
    const parent: TableParent
    const builder: UpdateBuilder
    const table: Table

    constructor (parent: TableParent, table: Table)
      modifies parent.Builder()
      ensures this.parent == parent && this.table == table && builder == parent.Builder()
      ensures builder.tableNode == this && builder.args == old(parent.Builder().args)
    {
      this.parent := parent;
      this.table := table;
      this.builder := parent.Builder();
      new;
      builder.tableNode := this;
    }

    ghost predicate Valid()
      reads builder
    {
      builder == parent.Builder() && builder.tableNode == this && builder.args == []
    }

    /** `appendSql`: the table as it renders in a FROM clause. */
    function Fragment(): (r: string)
      ensures r == FromClause(table)
    {
      FromClause(table)
    }

    /**
     * The statement so far: `UPDATE`, the conflict keyword when the table
     * stage follows the conflict stage, then the table.
     */
    function StatementSql(): (r: string)
      ensures r == "UPDATE " + (if parent.ConflictParent? then ConflictValues[parent.stage.conflictAlgorithm] + " " else "") + FromClause(table)
    {
      var head := parent.StatementSql();
      if parent.ConflictParent? then
        Assoc("UPDATE " + ConflictValues[parent.stage.conflictAlgorithm], " ", FromClause(table));
        Assoc("UPDATE ", ConflictValues[parent.stage.conflictAlgorithm], " ");
        head + " " + Fragment()
      else
        assert "UPDATE" + " " == "UPDATE " + "";
        head + " " + Fragment()
    }

    /** The statement so far has no placeholder when the table's text has none. */
    lemma StatementBare()
      requires NoPlaceholder(FromClause(table))
      ensures NoPlaceholder(StatementSql())
    {
      if parent.ConflictParent? {
        ConflictValuesBare(parent.stage.conflictAlgorithm);
      }
    }

    method StartSet(first: Expr) returns (s: Set)
      modifies builder
      ensures fresh(s) && s.parent == this && s.builder == builder && s.updates == [first]
      ensures builder.args == old(builder.args) + Args(first)
      ensures builder.tableNode == old(builder.tableNode)
      ensures old(Valid()) ==> s.Valid()
    {
      s := new Set(this, first);
      assert JoinArgs([first]) == Args(first) by {
        JoinArgsSnoc([], first);
      }
    }

    /** `set(column, value)`. */
    method SetValue(column: Column, value: Value) returns (s: Set)
      modifies builder
      ensures fresh(s) && s.parent == this && s.builder == builder
      ensures s.updates == [AssignValue(column, value)]
      ensures builder.args == old(builder.args) + [ToSqlArg(column, value)]
      ensures builder.tableNode == old(builder.tableNode)
      ensures old(Valid()) ==> s.Valid()
    {
      s := StartSet(AssignValue(column, value));
    }

    /** `set(complexColumn, long)`. */
    method SetLong(column: Column, value: Long) returns (s: Set)
      modifies builder
      ensures fresh(s) && s.parent == this && s.builder == builder
      ensures s.updates == [AssignLong(column, value)]
      ensures builder.args == old(builder.args) + [LongText(value)]
      ensures builder.tableNode == old(builder.tableNode)
      ensures old(Valid()) ==> s.Valid()
    {
      s := StartSet(AssignLong(column, value));
    }

    /** `set(column, assignmentColumn)`. */
    method SetColumn(column: Column, assignmentColumn: Column) returns (s: Set)
      modifies builder
      ensures fresh(s) && s.parent == this && s.builder == builder
      ensures s.updates == [AssignColumn(column, assignmentColumn)]
      ensures builder.args == old(builder.args)
      ensures builder.tableNode == old(builder.tableNode)
      ensures old(Valid()) ==> s.Valid()
    {
      s := StartSet(AssignColumn(column, assignmentColumn));
    }

    /** `set(column, select)`. */
    method SetSelect(column: Column, select: Select) returns (s: Set)
      modifies builder
      ensures fresh(s) && s.parent == this && s.builder == builder
      ensures s.updates == [AssignSelect(column, select)]
      ensures builder.args == old(builder.args) + select.args
      ensures builder.tableNode == old(builder.tableNode)
      ensures old(Valid()) ==> s.Valid()
    {
      s := StartSet(AssignSelect(column, select));
    }
  }

  /** The SET stage: one or more assignments, extended in place by `set`. */
  class Set {
    const parent: TableNode
    const builder: UpdateBuilder
    var updates: seq<Expr>

    constructor (parent: TableNode, firstUpdate: Expr)
      modifies parent.builder
      ensures this.parent == parent && builder == parent.builder && updates == [firstUpdate]
      ensures builder.args == old(parent.builder.args) + Args(firstUpdate)
      ensures builder.tableNode == old(parent.builder.tableNode)
    {
      this.parent := parent;
      this.builder := parent.builder;
      updates := [firstUpdate];
      new;
      builder.args := builder.args + Args(firstUpdate);
    }

    /** The shared list holds the assignments' arguments, in assignment order. */
    ghost predicate Valid()
      reads this, builder
    {
      && builder == parent.builder
      && builder.tableNode == parent
      && |updates| >= 1
      && builder.args == JoinArgs(updates)
    }

    /** `appendSql`, as a value: `SET ` and the assignments, comma-separated. */
    function Fragment(): string
      reads this
    {
      "SET " + JoinSql(updates)
    }

    /** The statement so far: the table stage's text and the SET clause, space-separated. */
    function StatementSql(): (r: string)
      reads this
      ensures r == parent.StatementSql() + " " + Fragment()
    {
      var head, list := parent.StatementSql(), JoinSql(updates);
      Assoc(" ", "SET ", list);
      Assoc(head, " ", "SET " + list);
      Assoc(head, " SET ", list);
      head + " SET " + list
    }

    /** The statement so far with every bound literal in place. */
    function StatementInlined(): string
      reads this
    {
      parent.StatementSql() + " SET " + JoinInlined(updates)
    }

    /** `appendSql(sb)`: appends the SET clause to the text built so far. */
    method AppendSql(sb: string) returns (out: string)
      ensures out == sb + Fragment()
    {
      var head := sb + "SET ";
      out := head;
      var i := 0;
      while i < |updates|
        invariant 0 <= i <= |updates|
        invariant out == head + JoinSql(updates[..i])
      {
        AppendStep(head, updates, i);
        if i != 0 {
          out := out + ",";
        }
        out := out + Sql(updates[i]);
        i := i + 1;
      }
      assert updates[..i] == updates;
      Assoc(sb, "SET ", JoinSql(updates));
    }

    method Push(e: Expr)
      modifies this, builder
      ensures updates == old(updates) + [e]
      ensures builder.args == old(builder.args) + Args(e)
      ensures builder.tableNode == old(builder.tableNode)
      ensures old(Valid()) ==> Valid()
    {
      updates := updates + [e];
      builder.args := builder.args + Args(e);
      JoinArgsSnoc(old(updates), e);
    }

    /** `set(column, value)`: one more assignment; the same stage is returned. */
    method SetValue(column: Column, value: Value) returns (s: Set)
      modifies this, builder
      ensures s == this
      ensures updates == old(updates) + [AssignValue(column, value)]
      ensures builder.args == old(builder.args) + [ToSqlArg(column, value)]
      ensures builder.tableNode == old(builder.tableNode)
      ensures old(Valid()) ==> Valid()
    {
      Push(AssignValue(column, value));
      s := this;
    }

    /** `set(complexColumn, long)`. */
    method SetLong(column: Column, value: Long) returns (s: Set)
      modifies this, builder
      ensures s == this
      ensures updates == old(updates) + [AssignLong(column, value)]
      ensures builder.args == old(builder.args) + [LongText(value)]
      ensures builder.tableNode == old(builder.tableNode)
      ensures old(Valid()) ==> Valid()
    {
      Push(AssignLong(column, value));
      s := this;
    }

    /** `set(column, assignmentColumn)`. */
    method SetColumn(column: Column, assignmentColumn: Column) returns (s: Set)
      modifies this, builder
      ensures s == this
      ensures updates == old(updates) + [AssignColumn(column, assignmentColumn)]
      ensures builder.args == old(builder.args)
      ensures builder.tableNode == old(builder.tableNode)
      ensures old(Valid()) ==> Valid()
    {
      Push(AssignColumn(column, assignmentColumn));
      s := this;
    }

    /** `set(column, select)`. */
    method SetSelect(column: Column, select: Select) returns (s: Set)
      modifies this, builder
      ensures s == this
      ensures updates == old(updates) + [AssignSelect(column, select)]
      ensures builder.args == old(builder.args) + select.args
      ensures builder.tableNode == old(builder.tableNode)
      ensures old(Valid()) ==> Valid()
    {
      Push(AssignSelect(column, select));
      s := this;
    }

    /** `where(expr)`: the WHERE stage, whose arguments follow all SET arguments. */
    method Where(expr: Expr) returns (w: Where)
      modifies builder
      ensures fresh(w) && w.parent == this && w.builder == builder && w.expr == expr
      ensures builder.args == old(builder.args) + Args(expr)
      ensures builder.tableNode == old(builder.tableNode)
      ensures old(Valid()) ==> w.Valid()
    {
      w := new Where(this, expr);
    }

    /**
     * Statement lock-step: the accumulated arguments bind, in order, to the
     * placeholders of `UPDATE ... SET ...`.
     */
    lemma ArgsMatchPlaceholders()
      requires Valid() && AllWellFormed(updates) && NoPlaceholder(FromClause(parent.table))
      ensures Placeholders(StatementSql()) == |builder.args|
      ensures Bind(StatementSql(), builder.args) == Some(StatementInlined())
    {
      parent.StatementBare();
      SetLockStep(parent.StatementSql(), updates);
    }
  }

  /** The WHERE stage. */
  class Where {
    const parent: Set
    const builder: UpdateBuilder
    const expr: Expr

    constructor (parent: Set, expr: Expr)
      modifies parent.builder
      ensures this.parent == parent && builder == parent.builder && this.expr == expr
      ensures builder.args == old(parent.builder.args) + Args(expr)
      ensures builder.tableNode == old(parent.builder.tableNode)
    {
      this.parent := parent;
      this.builder := parent.builder;
      this.expr := expr;
      new;
      builder.args := builder.args + Args(expr);
    }

    /** The shared list holds the SET arguments followed by the WHERE arguments. */
    ghost predicate Valid()
      reads parent, builder
    {
      && builder == parent.builder
      && builder.tableNode == parent.parent
      && |parent.updates| >= 1
      && builder.args == JoinArgs(parent.updates) + Args(expr)
    }

    /** `appendSql`: `WHERE ` and the condition, which binds its own arguments. */
    function Fragment(): (r: string)
      ensures WellFormed(expr) ==>
        Placeholders(r) == |Args(expr)| && Bind(r, Args(expr)) == Some("WHERE " + Inlined(expr))
    {
      if WellFormed(expr) then
        LockStep(expr);
        NoPlaceholderCount("WHERE ");
        PlaceholdersAppend("WHERE ", Sql(expr));
        BindTextThen("WHERE ", Sql(expr), Args(expr));
        "WHERE " + Sql(expr)
      else
        "WHERE " + Sql(expr)
    }

    /** The statement: the SET stage's text and the WHERE clause, space-separated. */
    function StatementSql(): (r: string)
      reads parent
      ensures r == parent.StatementSql() + " " + Fragment()
    {
      var head, cond := parent.StatementSql(), Sql(expr);
      Assoc(" ", "WHERE ", cond);
      Assoc(head, " ", "WHERE " + cond);
      Assoc(head, " WHERE ", cond);
      head + " WHERE " + cond
    }

    function StatementInlined(): string
      reads parent
    {
      parent.StatementInlined() + " WHERE " + Inlined(expr)
    }

    /**
     * Statement lock-step for a complete `UPDATE ... SET ... WHERE ...`: the
     * arguments pushed by the SET calls and then by WHERE bind, in order, to
     * the statement's placeholders.
     */
    lemma ArgsMatchPlaceholders()
      requires Valid() && AllWellFormed(parent.updates) && WellFormed(expr)
      requires NoPlaceholder(FromClause(parent.parent.table))
      ensures Placeholders(StatementSql()) == |builder.args|
      ensures Bind(StatementSql(), builder.args) == Some(StatementInlined())
    {
      parent.parent.StatementBare();
      SetLockStep(parent.parent.StatementSql(), parent.updates);
      WhereLockStep(parent.StatementSql(), JoinArgs(parent.updates), parent.StatementInlined(), expr);
    }
  }

  /**
   * `Update.table(t).set(x, a).set(y, b).where(z.greaterThan(c))` renders
   * `UPDATE t SET x=?,y=? WHERE z>?` and binds a, b, c in that order.
   */
  method SetSetWhereExample(t: Table, x: Column, y: Column, z: Column, a: Value, b: Value, c: Value)
    returns (sql: string, args: seq<string>)
    ensures sql == "UPDATE " + FromClause(t) + " SET " + x.name + "=?," + y.name + "=? WHERE " + ColumnSql(z) + ">?"
    ensures args == [ToSqlArg(x, a), ToSqlArg(y, b), ToSqlArg(z, c)]
  {
    var tableNode := Update.Table(t);
    ghost var tableSql := tableNode.StatementSql();
    var stage := tableNode.SetValue(x, a);
    stage := stage.SetValue(y, b);
    TwoAssignments(x, y, a, b);
    assert stage.parent == tableNode && stage.updates == [AssignValue(x, a), AssignValue(y, b)];
    ghost var setSql := stage.StatementSql();
    assert setSql == tableSql + " " + ("SET " + (x.name + "=?," + y.name + "=?"));
    var cond := GreaterThan(z, c);
    var where := stage.Where(cond);
    sql := where.StatementSql();
    args := where.builder.args;
    assert sql == setSql + " " + ("WHERE " + (ColumnSql(z) + ">?"));
    assert tableSql == "UPDATE " + FromClause(t);
    StatementText("UPDATE " + FromClause(t), x.name, y.name, ColumnSql(z));
    ArgsText(ToSqlArg(x, a), ToSqlArg(y, b), ToSqlArg(z, c));
  }

  lemma ArgsText(ax: string, ay: string, az: string)
    ensures [ax, ay] + [az] == [ax, ay, az]
  {
  }

  /** Regrouping of the example's statement text. */
  lemma StatementText(head: string, xs: string, ys: string, zs: string)
    ensures head + " " + ("SET " + (xs + "=?," + ys + "=?")) + " " + ("WHERE " + (zs + ">?"))
         == head + " SET " + xs + "=?," + ys + "=? WHERE " + zs + ">?"
  {
    var list, cond := xs + "=?," + ys + "=?", zs + ">?";
    assert " " + "SET " == " SET " && " " + "WHERE " == " WHERE ";
    Assoc(" ", "SET ", list);
    Assoc(head, " ", "SET " + list);
    Assoc(head, " SET ", list);
    Assoc(" ", "WHERE ", cond);
    Assoc(head + " SET " + list, " ", "WHERE " + cond);
    Assoc(head + " SET " + list, " WHERE ", cond);
    Assoc(head + " SET ", list, " WHERE ");
    Assoc(head + " SET " + xs + "=?,", ys, "=?");
    Assoc(head + " SET ", xs + "=?,", ys);
    Assoc(head + " SET ", xs, "=?,");
    assert "=?" + " WHERE " == "=? WHERE ";
    Assoc(head + " SET " + xs + "=?," + ys, "=?", " WHERE ");
    Assoc(head + " SET " + xs + "=?," + ys + "=? WHERE ", zs, ">?");
  }

  /** The SET clause and arguments of two value assignments. */
  lemma TwoAssignments(x: Column, y: Column, a: Value, b: Value)
    ensures JoinSql([AssignValue(x, a), AssignValue(y, b)]) == x.name + "=?," + y.name + "=?"
    ensures JoinArgs([AssignValue(x, a), AssignValue(y, b)]) == [ToSqlArg(x, a), ToSqlArg(y, b)]
  {
    var e1, e2 := AssignValue(x, a), AssignValue(y, b);
    JoinTwo(e1, e2);
    var ax, ay := ToSqlArg(x, a), ToSqlArg(y, b);
    assert Args(e1) == [ax] && Args(e2) == [ay];
    assert [ax] + [ay] == [ax, ay];
    calc {
      JoinSql([e1, e2]);
    ==
      Sql(e1) + "," + Sql(e2);
    ==
      x.name + "=?" + "," + (y.name + "=?");
    == { PairText(x.name, y.name); }
      x.name + "=?," + y.name + "=?";
    }
  }

  lemma PairText(xs: string, ys: string)
    ensures xs + "=?" + "," + (ys + "=?") == xs + "=?," + ys + "=?"
  {
    assert "=?" + "," == "=?,";
  }

  lemma JoinTwo(e1: Expr, e2: Expr)
    ensures JoinSql([e1, e2]) == Sql(e1) + "," + Sql(e2)
    ensures JoinArgs([e1, e2]) == Args(e1) + Args(e2)
  {
    assert [e1, e2][..1] == [e1];
    assert JoinArgs([e1]) == Args(e1) by {
      assert [e1][..0] == [];
    }
  }

  /**
   * `Update.withConflictAlgorithm(REPLACE).table(t).set(x, a)` renders
   * `UPDATE OR REPLACE t SET x=?` and binds a.
   */
  method ConflictExample(t: Table, x: Column, a: Value) returns (sql: string, args: seq<string>)
    ensures sql == "UPDATE OR REPLACE " + FromClause(t) + " SET " + x.name + "=?"
    ensures args == [ToSqlArg(x, a)]
  {
    var conflict := Update.WithConflictAlgorithm(5);
    var tableNode := conflict.Table(t);
    ghost var tableSql := tableNode.StatementSql();
    var stage := tableNode.SetValue(x, a);
    sql := stage.StatementSql();
    args := stage.builder.args;
    assert JoinSql([AssignValue(x, a)]) == x.name + "=?";
    assert sql == tableSql + " " + ("SET " + (x.name + "=?"));
    ConflictText(FromClause(t), x.name);
  }

  /** Regrouping of the conflict example's statement text. */
  lemma ConflictText(from: string, xs: string)
    ensures "UPDATE " + "OR REPLACE" + " " + from + " " + ("SET " + (xs + "=?"))
         == "UPDATE OR REPLACE " + from + " SET " + xs + "=?"
  {
    assert "UPDATE " + "OR REPLACE" + " " == "UPDATE OR REPLACE ";
    Assoc(" ", "SET ", xs + "=?");
    Assoc("UPDATE OR REPLACE " + from, " " + "SET ", xs + "=?");
    assert " " + "SET " == " SET ";
    Assoc("UPDATE OR REPLACE " + from + " SET ", xs, "=?");
  }
}
