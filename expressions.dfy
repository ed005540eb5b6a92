/**
 * The collaborators of the numeric column algebra and of the UPDATE builder:
 * values and their encoders, tables, column descriptors, sub-selects and the
 * comparison expressions. The classes that implement these (Column, Table,
 * Expr and its subclasses, FunctionColumn, SelectNode) are not part of this
 * model; what follows is the least the two modelled files rely on, with each
 * stand-in marked as such.
 *
 * Every expression can render its SQL text (with `?` for each bound literal)
 * and list its bound arguments. `Inlined` is an independent reference
 * rendering in which every bound literal is written where it belongs; the
 * lemma `LockStep` says that binding the arguments to the placeholders, left
 * to right, yields exactly that text: the arguments are as many as the
 * placeholders and in the same order.
 */
module Expressions {
  import opened Wrappers
  import opened SqlText

  /**
   * A value handed to the builder. Stand-in: it is known to the model only by
   * its text, which serves both as its `toString()` and (through a column's
   * value parser) as its bound-argument form.
   */
  datatype Value = Value(text: string)

  /** A column's value encoder, kept as an opaque tag. */
  datatype ValueParser = ValueParser(name: string)

  /** The encoder of every arithmetic result. */
  const DoubleParser: ValueParser := ValueParser("double")

  /** `value.toString()`, the text the arithmetic builders inline. */
  function ValueString(v: Value): string {
    v.text
  }

  /** A table descriptor: its name and the alias it is referred to by ("" for none). */
  datatype Table = Table(name: string, alias: string)

  /** The synthetic table of computed columns that combine two columns. */
  const AnonymousTable: Table := Table("", "")

  /** Stand-in for `Table.internalAlias`: the same table under another alias. */
  function InternalAlias(t: Table, alias: string): Table {
    Table(t.name, alias)
  }

  /** Stand-in for `Table.appendToSqlFromClause`. */
  function FromClause(t: Table): string {
    t.name
  }

  /**
   * A column descriptor. `shape` tells the three kinds of column apart: one
   * stored in a table, a computed FunctionColumn, and the UpdateColumn of an
   * UPDATE statement that wraps another column.
   */
  datatype Column = Column(
    table: Table,
    name: string,
    allFromTable: bool,
    parser: ValueParser,
    nullable: bool,
    alias: Option<string>,
    shape: Shape)

  datatype Shape =
    | Stored
      /** FunctionColumn: `prefix`, the operands joined by `joiner`, `suffix`. */
    | Computed(operands: seq<Column>, prefix: string, joiner: string, suffix: string)
      /** UpdateColumn wrapping `parent`. */
    | Unqualified(parent: Column)

  /**
   * The bound-argument form of `v` for column `c`; an UpdateColumn asks the
   * column it wraps. Stand-in for the value parsers: the form is the value's
   * text.
   */
  function ToSqlArg(c: Column, v: Value): string
    decreases c
  {
    match c.shape
    case Unqualified(parent) => ToSqlArg(parent, v)
    case _ => v.text
  }

  /**
   * The SQL text of a column. A stored column is qualified by its table's
   * alias or name (stand-in for Column.appendSql); a computed column is its
   * expression; an UpdateColumn is its bare name.
   */
  function ColumnSql(c: Column): string
    decreases c, 1
  {
    match c.shape
    case Stored => (if c.table.alias == "" then c.table.name else c.table.alias) + "." + c.name
    case Computed(operands, prefix, joiner, suffix) => prefix + JoinColumns(operands, joiner) + suffix
    case Unqualified(_) => c.name
  }

  function JoinColumns(cs: seq<Column>, sep: string): string
    decreases cs, 0
  {
    if |cs| == 0 then ""
    else if |cs| == 1 then ColumnSql(cs[0])
    else JoinColumns(cs[..|cs| - 1], sep) + sep + ColumnSql(cs[|cs| - 1])
  }

  /** A column whose text holds no placeholder, so binds no argument. */
  predicate BareColumn(c: Column) {
    NoPlaceholder(ColumnSql(c))
  }

  /** Stand-in for a single-column sub-select: its rendered text and its own arguments. */
  datatype Select = Select(sql: string, args: seq<string>)

  predicate WellFormedSelect(s: Select) {
    Placeholders(s.sql) == |s.args|
  }

  function SelectInlined(s: Select): string {
    match Bind(s.sql, s.args)
    case Some(t) => t
    case None => s.sql
  }

  /**
   * The comparison expressions: column against one bound literal (Expr1),
   * against a column (ExprC), against a sub-select (ExprS), and
   * `[NOT] BETWEEN` with each bound either a literal argument or a column.
   */
  datatype Expr =
    | Expr1(column: Column, op: string, arg: string)
    | ExprC(column: Column, op: string, other: Column)
    | ExprS(column: Column, op: string, select: Select)
    | BetweenExpr(column: Column, firstArg: Option<string>, secondArg: Option<string>,
                  firstColumn: Option<Column>, secondColumn: Option<Column>, not: bool)

  function BetweenKeyword(not: bool): string {
    if not then " NOT BETWEEN " else " BETWEEN "
  }

  /** A BETWEEN bound: the column if there is one, otherwise a placeholder. */
  function OperandSql(column: Option<Column>): string {
    if column.Some? then ColumnSql(column.value) else "?"
  }

  function OperandArgs(arg: Option<string>): seq<string> {
    if arg.Some? then [arg.value] else []
  }

  function OperandInlined(arg: Option<string>, column: Option<Column>): string {
    if column.Some? then ColumnSql(column.value) else if arg.Some? then arg.value else "?"
  }

  /** Stand-in for Expr.appendToSql. */
  function Sql(e: Expr): string {
    match e
    case Expr1(c, op, _) => ColumnSql(c) + op
    case ExprC(c, op, d) => ColumnSql(c) + op + ColumnSql(d)
    case ExprS(c, op, s) => ColumnSql(c) + op + "(" + s.sql + ")"
    case BetweenExpr(c, fa, sa, fc, sc, not) =>
      ColumnSql(c) + BetweenKeyword(not) + OperandSql(fc) + " AND " + OperandSql(sc)
  }

  /** Stand-in for Expr.addArgs: the bound arguments, in the order they are appended. */
  function Args(e: Expr): seq<string> {
    match e
    case Expr1(_, _, arg) => [arg]
    case ExprC(_, _, _) => []
    case ExprS(_, _, s) => s.args
    case BetweenExpr(_, fa, sa, _, _, _) => OperandArgs(fa) + OperandArgs(sa)
  }

  /** An operator of Expr1 with its trailing placeholder taken off. */
  function Unbound(op: string): string {
    if |op| > 0 && op[|op| - 1] == '?' then op[..|op| - 1] else op
  }

  /** Reference rendering: the SQL with every bound literal written in place. */
  function Inlined(e: Expr): string {
    match e
    case Expr1(c, op, arg) => ColumnSql(c) + Unbound(op) + arg
    case ExprC(c, op, d) => ColumnSql(c) + op + ColumnSql(d)
    case ExprS(c, op, s) => ColumnSql(c) + op + "(" + SelectInlined(s) + ")"
    case BetweenExpr(c, fa, sa, fc, sc, not) =>
      ColumnSql(c) + BetweenKeyword(not) + OperandInlined(fa, fc) + " AND " + OperandInlined(sa, sc)
  }

  /** A BETWEEN bound is exactly one of a literal argument and a bare column. */
  predicate WellFormedOperand(arg: Option<string>, column: Option<Column>) {
    && arg.Some? != column.Some?
    && (column.Some? ==> BareColumn(column.value))
  }

  /**
   * What the builders guarantee of an expression: columns carry no placeholder,
   * an Expr1 operator ends in its one placeholder, a sub-select carries its own
   * arguments, and each BETWEEN bound is exactly one of literal and column.
   */
  predicate WellFormed(e: Expr) {
    BareColumn(e.column) &&
    match e
    case Expr1(_, op, _) => |op| > 0 && op[|op| - 1] == '?' && NoPlaceholder(op[..|op| - 1])
    case ExprC(_, op, d) => NoPlaceholder(op) && BareColumn(d)
    case ExprS(_, op, s) => NoPlaceholder(op) && WellFormedSelect(s)
    case BetweenExpr(_, fa, sa, fc, sc, _) => WellFormedOperand(fa, fc) && WellFormedOperand(sa, sc)
  }

  lemma OperandLockStep(arg: Option<string>, column: Option<Column>)
    requires WellFormedOperand(arg, column)
    ensures Placeholders(OperandSql(column)) == |OperandArgs(arg)|
    ensures Bind(OperandSql(column), OperandArgs(arg)) == Some(OperandInlined(arg, column))
  {
    if column.Some? {
      NoPlaceholderCount(ColumnSql(column.value));
      BindText(ColumnSql(column.value));
    } else {
      BindPlaceholder(arg.value);
    }
  }

  /**
   * The placeholders of a well-formed expression and its arguments are in
   * lock-step: binding the arguments left to right gives the reference text.
   */
  lemma LockStep(e: Expr)
    requires WellFormed(e)
    ensures Placeholders(Sql(e)) == |Args(e)|
    ensures Bind(Sql(e), Args(e)) == Some(Inlined(e))
  {
    var c := ColumnSql(e.column);
    NoPlaceholderCount(c);
    match e
    case Expr1(_, op, arg) =>
      var pre := op[..|op| - 1];
      assert op == pre + "?";
      assert Sql(e) == (c + pre) + "?";
      NoPlaceholderCount(pre);
      PlaceholdersAppend(c, pre);
      BindPlaceholder(arg);
      BindTextThen(c + pre, "?", [arg]);
    case ExprC(_, op, d) =>
      BindText(Sql(e));
      NoPlaceholderCount(Sql(e));
    case ExprS(_, op, s) =>
      var head := c + op + "(";
      assert Sql(e) == head + s.sql + ")";
      BindTextThen(head, s.sql, s.args);
      PlaceholdersAppend(head, s.sql);
      NoPlaceholderCount(head);
      BindThenText(head + s.sql, ")", s.args);
      PlaceholdersAppend(head + s.sql, ")");
      NoPlaceholderCount(")");
    case BetweenExpr(_, fa, sa, fc, sc, not) =>
      var head := c + BetweenKeyword(not);
      var first, second := OperandSql(fc), OperandSql(sc);
      OperandLockStep(fa, fc);
      OperandLockStep(sa, sc);
      NoPlaceholderCount(head);
      NoPlaceholderCount(" AND ");
      BindTextThen(head, first, OperandArgs(fa));
      PlaceholdersAppend(head, first);
      BindThenText(head + first, " AND ", OperandArgs(fa));
      PlaceholdersAppend(head + first, " AND ");
      BindAppend(head + first + " AND ", second, OperandArgs(fa), OperandArgs(sa));
      PlaceholdersAppend(head + first + " AND ", second);
  }

  /** The text of a list of assignments, comma-separated, in order. */
  function JoinSql(es: seq<Expr>): string {
    if |es| == 0 then ""
    else if |es| == 1 then Sql(es[0])
    else JoinSql(es[..|es| - 1]) + "," + Sql(es[|es| - 1])
  }

  /** The arguments of a list of expressions, one expression after another. */
  function JoinArgs(es: seq<Expr>): seq<string> {
    if |es| == 0 then [] else JoinArgs(es[..|es| - 1]) + Args(es[|es| - 1])
  }

  function JoinInlined(es: seq<Expr>): string {
    if |es| == 0 then ""
    else if |es| == 1 then Inlined(es[0])
    else JoinInlined(es[..|es| - 1]) + "," + Inlined(es[|es| - 1])
  }

  predicate AllWellFormed(es: seq<Expr>) {
    forall i :: 0 <= i < |es| ==> WellFormed(es[i])
  }

  /** Lock-step carries over to a comma-separated list of expressions. */
  lemma {:induction false} JoinLockStep(es: seq<Expr>)
    requires AllWellFormed(es)
    ensures Placeholders(JoinSql(es)) == |JoinArgs(es)|
    ensures Bind(JoinSql(es), JoinArgs(es)) == Some(JoinInlined(es))
  {
    if |es| == 1 {
      LockStep(es[0]);
      assert JoinArgs(es) == [] + Args(es[0]) == Args(es[0]);
    } else if |es| > 1 {
      var init, last := es[..|es| - 1], es[|es| - 1];
      assert AllWellFormed(init) by {
        forall i | 0 <= i < |init| ensures WellFormed(init[i]) {
          assert init[i] == es[i];
        }
      }
      JoinLockStep(init);
      LockStep(last);
      NoPlaceholderCount(",");
      BindThenText(JoinSql(init), ",", JoinArgs(init));
      PlaceholdersAppend(JoinSql(init), ",");
      BindAppend(JoinSql(init) + ",", Sql(last), JoinArgs(init), Args(last));
      PlaceholdersAppend(JoinSql(init) + ",", Sql(last));
    }
  }

  // Constructors shared by the comparisons of NumericColumn and the
  // assignments (`Column.is`) of an UPDATE.

  /** The operator `sym` followed by its placeholder renders as `sym?` and, bound, as `sym`. */
  lemma ValueOperator(sym: string)
    requires NoPlaceholder(sym)
    ensures (sym + "?")[..|sym + "?"| - 1] == sym
    ensures Unbound(sym + "?") == sym
  {
  }

  /** `c sym?`, binding `v` as encoded by `c`. */
  function CompareValue(c: Column, sym: string, v: Value): (e: Expr)
    requires NoPlaceholder(sym)
    ensures Sql(e) == ColumnSql(c) + sym + "?" && Args(e) == [ToSqlArg(c, v)]
    ensures BareColumn(c) ==> WellFormed(e)
    ensures Inlined(e) == ColumnSql(c) + sym + ToSqlArg(c, v)
  {
    ValueOperator(sym);
    Expr1(c, sym + "?", ToSqlArg(c, v))
  }

  /** `c sym d`, binding nothing. */
  function CompareColumn(c: Column, sym: string, d: Column): (e: Expr)
    requires NoPlaceholder(sym)
    ensures Sql(e) == ColumnSql(c) + sym + ColumnSql(d) && Args(e) == []
    ensures BareColumn(c) && BareColumn(d) ==> WellFormed(e)
  {
    ExprC(c, sym, d)
  }

  /** `c sym (select)`, binding the sub-select's own arguments. */
  function CompareSelect(c: Column, sym: string, s: Select): (e: Expr)
    requires NoPlaceholder(sym)
    ensures Sql(e) == ColumnSql(c) + sym + "(" + s.sql + ")" && Args(e) == s.args
    ensures BareColumn(c) && WellFormedSelect(s) ==> WellFormed(e)
  {
    ExprS(c, sym, s)
  }
}
