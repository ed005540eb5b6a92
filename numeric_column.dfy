/**
 * The numeric column algebra of NumericColumn.java: aliasing, the ordering
 * comparisons against a literal, a column or a sub-select, the two-phase
 * `[NOT] BETWEEN` builder, and arithmetic whose results are columns again.
 * Every operation builds a new immutable node from its inputs, so each is a
 * function; the receiver column is the first parameter.
 */
module NumericColumn {
  import opened Wrappers
  import opened SqlText
  import opened Expressions

  /** `as(alias)`: a new stored column that differs from `c` only in its alias. */
  function As(c: Column, alias: string): (r: Column)
    ensures r.table == c.table && r.name == c.name && r.allFromTable == c.allFromTable
    ensures r.parser == c.parser && r.nullable == c.nullable && r.shape == Stored
    ensures r.alias == Some(alias)
    ensures c.shape == Stored ==> ColumnSql(r) == ColumnSql(c) && r == c.(alias := Some(alias))
  {
    Column(c.table, c.name, c.allFromTable, c.parser, c.nullable, Some(alias), Stored)
  }

  // Comparisons against a literal: one placeholder, one bound argument.

  /** `greaterThan(value)`: `c >?` binding the value. */
  function GreaterThan(c: Column, v: Value): (e: Expr)
    ensures Sql(e) == ColumnSql(c) + ">?" && Args(e) == [ToSqlArg(c, v)]
    ensures BareColumn(c) ==> WellFormed(e) && Inlined(e) == ColumnSql(c) + ">" + ToSqlArg(c, v)
  {
    CompareValue(c, ">", v)
  }

  /** `greaterOrEqual(value)`: `c >=?` binding the value. */
  function GreaterOrEqual(c: Column, v: Value): (e: Expr)
    ensures Sql(e) == ColumnSql(c) + ">=?" && Args(e) == [ToSqlArg(c, v)]
    ensures BareColumn(c) ==> WellFormed(e) && Inlined(e) == ColumnSql(c) + ">=" + ToSqlArg(c, v)
  {
    CompareValue(c, ">=", v)
  }

  /** `lessThan(value)`: `c <?` binding the value. */
  function LessThan(c: Column, v: Value): (e: Expr)
    ensures Sql(e) == ColumnSql(c) + "<?" && Args(e) == [ToSqlArg(c, v)]
    ensures BareColumn(c) ==> WellFormed(e) && Inlined(e) == ColumnSql(c) + "<" + ToSqlArg(c, v)
  {
    CompareValue(c, "<", v)
  }

  /** `lessOrEqual(value)`: `c <=?` binding the value. */
  function LessOrEqual(c: Column, v: Value): (e: Expr)
    ensures Sql(e) == ColumnSql(c) + "<=?" && Args(e) == [ToSqlArg(c, v)]
    ensures BareColumn(c) ==> WellFormed(e) && Inlined(e) == ColumnSql(c) + "<=" + ToSqlArg(c, v)
  {
    CompareValue(c, "<=", v)
  }

  // Comparisons against a column: the bare operator, no argument.

  /** `greaterThan(column)`: `c>d`. */
  function GreaterThanColumn(c: Column, d: Column): (e: Expr)
    ensures Sql(e) == ColumnSql(c) + ">" + ColumnSql(d) && Args(e) == []
    ensures BareColumn(c) && BareColumn(d) ==> WellFormed(e)
  {
    CompareColumn(c, ">", d)
  }

  /** `greaterOrEqual(column)`: `c>=d`. */
  function GreaterOrEqualColumn(c: Column, d: Column): (e: Expr)
    ensures Sql(e) == ColumnSql(c) + ">=" + ColumnSql(d) && Args(e) == []
    ensures BareColumn(c) && BareColumn(d) ==> WellFormed(e)
  {
    CompareColumn(c, ">=", d)
  }

  /** `lessThan(column)`: `c<d`. */
  function LessThanColumn(c: Column, d: Column): (e: Expr)
    ensures Sql(e) == ColumnSql(c) + "<" + ColumnSql(d) && Args(e) == []
    ensures BareColumn(c) && BareColumn(d) ==> WellFormed(e)
  {
    CompareColumn(c, "<", d)
  }

  /** `lessOrEqual(column)`: `c<=d`. */
  function LessOrEqualColumn(c: Column, d: Column): (e: Expr)
    ensures Sql(e) == ColumnSql(c) + "<=" + ColumnSql(d) && Args(e) == []
    ensures BareColumn(c) && BareColumn(d) ==> WellFormed(e)
  {
    CompareColumn(c, "<=", d)
  }

  // Comparisons against a sub-select: the bare operator, the sub-select's own arguments.

  /** `greaterThan(select)`: `c>(SELECT ...)`. */
  function GreaterThanSelect(c: Column, s: Select): (e: Expr)
    ensures Sql(e) == ColumnSql(c) + ">(" + s.sql + ")" && Args(e) == s.args
    ensures BareColumn(c) && WellFormedSelect(s) ==> WellFormed(e)
  {
    CompareSelect(c, ">", s)
  }

  /** `greaterOrEqual(select)`: `c>=(SELECT ...)`. */
  function GreaterOrEqualSelect(c: Column, s: Select): (e: Expr)
    ensures Sql(e) == ColumnSql(c) + ">=(" + s.sql + ")" && Args(e) == s.args
    ensures BareColumn(c) && WellFormedSelect(s) ==> WellFormed(e)
  {
    CompareSelect(c, ">=", s)
  }

  /** `lessThan(select)`: `c<(SELECT ...)`. */
  function LessThanSelect(c: Column, s: Select): (e: Expr)
    ensures Sql(e) == ColumnSql(c) + "<(" + s.sql + ")" && Args(e) == s.args
    ensures BareColumn(c) && WellFormedSelect(s) ==> WellFormed(e)
  {
    CompareSelect(c, "<", s)
  }

  /** `lessOrEqual(select)`: `c<=(SELECT ...)`. */
  function LessOrEqualSelect(c: Column, s: Select): (e: Expr)
    ensures Sql(e) == ColumnSql(c) + "<=(" + s.sql + ")" && Args(e) == s.args
    ensures BareColumn(c) && WellFormedSelect(s) ==> WellFormed(e)
  {
    CompareSelect(c, "<=", s)
  }

  // BETWEEN, in two phases.

  /**
   * The first phase of `[NOT] BETWEEN`: the compared column, the lower bound as
   * either a literal or a column, and the negation flag.
   */
  datatype Between = Between(column: Column, firstVal: Option<Value>, firstColumn: Option<Column>, not: bool) {

    /** Exactly one lower bound is present. */
    predicate Valid() {
      firstVal.Some? != firstColumn.Some?
    }

    /** The lower bound's argument: encoded by the compared column, only for a literal bound. */
    function FirstArg(): (a: Option<string>)
      ensures a.Some? <==> firstVal.Some?
      ensures firstVal.Some? ==> a == Some(ToSqlArg(column, firstVal.value))
    {
      if firstVal.Some? then Some(ToSqlArg(column, firstVal.value)) else None
    }

    /** Bounds that render without placeholders of their own. */
    predicate BareColumns() {
      BareColumn(column) && (firstColumn.Some? ==> BareColumn(firstColumn.value))
    }

    /** `and(value)`: the finished expression with a literal upper bound. */
    function AndValue(v: Value): (e: Expr)
      ensures e.BetweenExpr? && e.column == column && e.not == not
      ensures e.firstArg == FirstArg() && e.firstColumn == firstColumn
      ensures e.secondArg == Some(ToSqlArg(column, v)) && e.secondColumn == None
      ensures Sql(e) == ColumnSql(column) + BetweenKeyword(not) + OperandSql(firstColumn) + " AND ?"
      ensures Args(e) == OperandArgs(FirstArg()) + [ToSqlArg(column, v)]
      ensures Valid() && BareColumns() ==> WellFormed(e)
    {
      BetweenExpr(column, FirstArg(), Some(ToSqlArg(column, v)), firstColumn, None, not)
    }

    /** `and(column)`: the finished expression with a column as upper bound. */
    function AndColumn(d: Column): (e: Expr)
      ensures e.BetweenExpr? && e.column == column && e.not == not
      ensures e.firstArg == FirstArg() && e.firstColumn == firstColumn
      ensures e.secondArg == None && e.secondColumn == Some(d)
      ensures Sql(e) == ColumnSql(column) + BetweenKeyword(not) + OperandSql(firstColumn) + " AND " + ColumnSql(d)
      ensures Args(e) == OperandArgs(FirstArg())
      ensures Valid() && BareColumns() && BareColumn(d) ==> WellFormed(e)
    {
      BetweenExpr(column, FirstArg(), None, firstColumn, Some(d), not)
    }
  }

  /** `between(value)`. */
  function BetweenValue(c: Column, v: Value): (b: Between)
    ensures b.Valid() && b.column == c && !b.not
    ensures b.firstVal == Some(v) && b.firstColumn == None
  {
    Between(c, Some(v), None, false)
  }

  /** `between(column)`. */
  function BetweenColumn(c: Column, d: Column): (b: Between)
    ensures b.Valid() && b.column == c && !b.not
    ensures b.firstVal == None && b.firstColumn == Some(d)
  {
    Between(c, None, Some(d), false)
  }

  /** `notBetween(value)`. */
  function NotBetweenValue(c: Column, v: Value): (b: Between)
    ensures b.Valid() && b.column == c && b.not
    ensures b.firstVal == Some(v) && b.firstColumn == None
  {
    Between(c, Some(v), None, true)
  }

  /** `notBetween(column)`. */
  function NotBetweenColumn(c: Column, d: Column): (b: Between)
    ensures b.Valid() && b.column == c && b.not
    ensures b.firstVal == None && b.firstColumn == Some(d)
  {
    Between(c, None, Some(d), true)
  }

  /**
   * `c.between(lo).and(hi)` renders `c BETWEEN ? AND ?` and binds the two
   * literals in that order; `notBetween` only adds `NOT`.
   */
  lemma {:induction false} BetweenLiterals(c: Column, lo: Value, hi: Value, not: bool)
    requires BareColumn(c)
    ensures var e := (if not then NotBetweenValue(c, lo) else BetweenValue(c, lo)).AndValue(hi);
      && Sql(e) == ColumnSql(c) + (if not then " NOT BETWEEN ? AND ?" else " BETWEEN ? AND ?")
      && Args(e) == [ToSqlArg(c, lo), ToSqlArg(c, hi)]
      && Bind(Sql(e), Args(e)) == Some(ColumnSql(c) + BetweenKeyword(not) + ToSqlArg(c, lo) + " AND " + ToSqlArg(c, hi))
  {
    var b := if not then NotBetweenValue(c, lo) else BetweenValue(c, lo);
    var e := b.AndValue(hi);
    var col, key := ColumnSql(c), BetweenKeyword(not);
    assert Sql(e) == col + (if not then " NOT BETWEEN ? AND ?" else " BETWEEN ? AND ?") by {
      assert Sql(e) == col + key + "?" + " AND ?";
      Assoc(col, key, "?");
      Assoc(col, key + "?", " AND ?");
      if not {
        assert " NOT BETWEEN " + "?" + " AND ?" == " NOT BETWEEN ? AND ?";
      } else {
        assert " BETWEEN " + "?" + " AND ?" == " BETWEEN ? AND ?";
      }
    }
    assert Bind(Sql(e), Args(e)) == Some(col + key + ToSqlArg(c, lo) + " AND " + ToSqlArg(c, hi)) by {
      LockStep(e);
    }
  }

  /**
   * Lock-step for every expression the BETWEEN builders can produce from bare
   * columns: whichever bound is a literal and whichever a column, the bound
   * arguments are the placeholders' in order.
   */
  lemma BetweenLockStep(b: Between, hi: Value, d: Column)
    requires b.Valid() && b.BareColumns() && BareColumn(d)
    ensures Bind(Sql(b.AndValue(hi)), Args(b.AndValue(hi))) == Some(Inlined(b.AndValue(hi)))
    ensures Bind(Sql(b.AndColumn(d)), Args(b.AndColumn(d))) == Some(Inlined(b.AndColumn(d)))
  {
    LockStep(b.AndValue(hi));
    LockStep(b.AndColumn(d));
  }

  // Arithmetic: every result is a nullable double-valued computed column.

  /** Column-op-column: on the anonymous table, operands in order, nothing bound. */
  function Combine(c: Column, joiner: string, d: Column): (r: Column)
    ensures r.table == AnonymousTable && r.parser == DoubleParser && r.nullable && r.alias == None
    ensures r.shape == Computed([c, d], "(", joiner, ")")
    ensures ColumnSql(r) == "(" + ColumnSql(c) + joiner + ColumnSql(d) + ")"
    ensures BareColumn(c) && BareColumn(d) && NoPlaceholder(joiner) ==> BareColumn(r)
  {
    var r := Column(AnonymousTable, "", false, DoubleParser, true, None, Computed([c, d], "(", joiner, ")"));
    assert [c, d][..1] == [c];
    assert JoinColumns([c, d], joiner) == ColumnSql(c) + joiner + ColumnSql(d);
    r
  }

  /**
   * Column-op-value: on the column's own table under the empty internal
   * alias, the one operand `c`, and the value's text inlined in the suffix,
   * not bound.
   */
  function CombineValue(c: Column, op: string, v: Value): (r: Column)
    ensures r.table == InternalAlias(c.table, "") && r.parser == DoubleParser && r.nullable && r.alias == None
    ensures r.shape == Computed([c], "(", "", op + ValueString(v) + ")")
    ensures ColumnSql(r) == "(" + ColumnSql(c) + op + ValueString(v) + ")"
    ensures NoPlaceholder(op) ==> (BareColumn(r) <==> BareColumn(c) && NoPlaceholder(ValueString(v)))
  {
    Column(InternalAlias(c.table, ""), "", false, DoubleParser, true, None,
           Computed([c], "(", "", op + ValueString(v) + ")"))
  }

  /** `add(column)`: `(c+d)`. */
  function Add(c: Column, d: Column): (r: Column)
    ensures r.table == AnonymousTable && r.parser == DoubleParser && r.nullable && r.alias == None
    ensures r.shape.Computed? && r.shape.operands == [c, d]
    ensures ColumnSql(r) == "(" + ColumnSql(c) + "+" + ColumnSql(d) + ")"
    ensures BareColumn(c) && BareColumn(d) ==> BareColumn(r)
  {
    Combine(c, "+", d)
  }

  /** `add(value)`: `(c+value)` with the value inlined. */
  function AddValue(c: Column, v: Value): (r: Column)
    ensures r.table == InternalAlias(c.table, "") && r.parser == DoubleParser && r.nullable && r.alias == None
    ensures r.shape.Computed? && r.shape.operands == [c]
    ensures ColumnSql(r) == "(" + ColumnSql(c) + "+" + ValueString(v) + ")"
    ensures BareColumn(r) <==> BareColumn(c) && NoPlaceholder(ValueString(v))
  {
    CombineValue(c, "+", v)
  }

  /** `sub(column)`: `(c-d)`. */
  function Sub(c: Column, d: Column): (r: Column)
    ensures r.table == AnonymousTable && r.parser == DoubleParser && r.nullable && r.alias == None
    ensures r.shape.Computed? && r.shape.operands == [c, d]
    ensures ColumnSql(r) == "(" + ColumnSql(c) + "-" + ColumnSql(d) + ")"
    ensures BareColumn(c) && BareColumn(d) ==> BareColumn(r)
  {
    Combine(c, "-", d)
  }

  /** `sub(value)`: `(c-value)` with the value inlined. */
  function SubValue(c: Column, v: Value): (r: Column)
    ensures r.table == InternalAlias(c.table, "") && r.parser == DoubleParser && r.nullable && r.alias == None
    ensures r.shape.Computed? && r.shape.operands == [c]
    ensures ColumnSql(r) == "(" + ColumnSql(c) + "-" + ValueString(v) + ")"
    ensures BareColumn(r) <==> BareColumn(c) && NoPlaceholder(ValueString(v))
  {
    CombineValue(c, "-", v)
  }

  /** `mul(column)`: `(c*d)`. */
  function Mul(c: Column, d: Column): (r: Column)
    ensures r.table == AnonymousTable && r.parser == DoubleParser && r.nullable && r.alias == None
    ensures r.shape.Computed? && r.shape.operands == [c, d]
    ensures ColumnSql(r) == "(" + ColumnSql(c) + "*" + ColumnSql(d) + ")"
    ensures BareColumn(c) && BareColumn(d) ==> BareColumn(r)
  {
    Combine(c, "*", d)
  }

  /** `mul(value)`: `(c*value)` with the value inlined. */
  function MulValue(c: Column, v: Value): (r: Column)
    ensures r.table == InternalAlias(c.table, "") && r.parser == DoubleParser && r.nullable && r.alias == None
    ensures r.shape.Computed? && r.shape.operands == [c]
    ensures ColumnSql(r) == "(" + ColumnSql(c) + "*" + ValueString(v) + ")"
    ensures BareColumn(r) <==> BareColumn(c) && NoPlaceholder(ValueString(v))
  {
    CombineValue(c, "*", v)
  }

  /** `div(column)`: `(c/d)`. */
  function Div(c: Column, d: Column): (r: Column)
    ensures r.table == AnonymousTable && r.parser == DoubleParser && r.nullable && r.alias == None
    ensures r.shape.Computed? && r.shape.operands == [c, d]
    ensures ColumnSql(r) == "(" + ColumnSql(c) + "/" + ColumnSql(d) + ")"
    ensures BareColumn(c) && BareColumn(d) ==> BareColumn(r)
  {
    Combine(c, "/", d)
  }

  /** `div(value)`: `(c/value)` with the value inlined. */
  function DivValue(c: Column, v: Value): (r: Column)
    ensures r.table == InternalAlias(c.table, "") && r.parser == DoubleParser && r.nullable && r.alias == None
    ensures r.shape.Computed? && r.shape.operands == [c]
    ensures ColumnSql(r) == "(" + ColumnSql(c) + "/" + ValueString(v) + ")"
    ensures BareColumn(r) <==> BareColumn(c) && NoPlaceholder(ValueString(v))
  {
    CombineValue(c, "/", v)
  }

  /** `mod(column)`: `(c%d)`. */
  function Mod(c: Column, d: Column): (r: Column)
    ensures r.table == AnonymousTable && r.parser == DoubleParser && r.nullable && r.alias == None
    ensures r.shape.Computed? && r.shape.operands == [c, d]
    ensures ColumnSql(r) == "(" + ColumnSql(c) + "%" + ColumnSql(d) + ")"
    ensures BareColumn(c) && BareColumn(d) ==> BareColumn(r)
  {
    Combine(c, "%", d)
  }

  /** `mod(value)`: `(c%value)` with the value inlined. */
  function ModValue(c: Column, v: Value): (r: Column)
    ensures r.table == InternalAlias(c.table, "") && r.parser == DoubleParser && r.nullable && r.alias == None
    ensures r.shape.Computed? && r.shape.operands == [c]
    ensures ColumnSql(r) == "(" + ColumnSql(c) + "%" + ValueString(v) + ")"
    ensures BareColumn(r) <==> BareColumn(c) && NoPlaceholder(ValueString(v))
  {
    CombineValue(c, "%", v)
  }

  /**
   * Closure: a sum of two columns is a column again, and comparing it with a
   * literal renders `(a+b)>?` and binds just that literal.
   */
  lemma SumComparedWithValue(a: Column, b: Column, v: Value)
    requires BareColumn(a) && BareColumn(b)
    ensures Sql(GreaterThan(Add(a, b), v)) == "(" + ColumnSql(a) + "+" + ColumnSql(b) + ")>?"
    ensures Args(GreaterThan(Add(a, b), v)) == [ToSqlArg(Add(a, b), v)]
    ensures WellFormed(GreaterThan(Add(a, b), v))
  {
  }

  /**
   * The literal of column-op-value arithmetic is inlined, never bound: a
   * comparison of such a column with `w` binds `w` alone, and if the inlined
   * text contains a `?`, placeholders and arguments fall out of step and
   * binding fails.
   */
  lemma {:induction false} InlinedLiteralIsNotBound(c: Column, v: Value, w: Value)
    ensures Args(GreaterThan(AddValue(c, v), w)) == [ToSqlArg(AddValue(c, v), w)]
    ensures !NoPlaceholder(ValueString(v)) ==>
      Placeholders(Sql(GreaterThan(AddValue(c, v), w))) > |Args(GreaterThan(AddValue(c, v), w))|
      && Bind(Sql(GreaterThan(AddValue(c, v), w)), Args(GreaterThan(AddValue(c, v), w))).None?
  {
    var t := ValueString(v);
    if !NoPlaceholder(t) {
      var col := ColumnSql(c);
      NoPlaceholderCount(t);
      NoPlaceholderCount(">?");
      PlaceholdersAppend("(" + col + "+", t);
      PlaceholdersAppend("(" + col + "+" + t, ")");
      PlaceholdersAppend("(" + col + "+" + t + ")", ">?");
      assert Placeholders(">?") == 1 by {
        assert ">?"[1..] == "?";
        assert "?"[1..] == "";
      }
    }
  }
}
