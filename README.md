# sqlitemagic: numeric column algebra and UPDATE builder

This project models two parts of the sqlitemagic runtime library for Android SQLite.

- **NumericColumn.java** is the typed expression algebra of numeric columns:
  - aliasing (`as`);
  - the ordering comparisons `>`, `>=`, `<`, `<=`, each against a literal, another column or a single-column sub-select;
  - the two-phase `[NOT] BETWEEN ... AND ...` builder;
  - the arithmetic `add`, `sub`, `mul`, `div` and `mod`. Each of these returns a computed column (a `FunctionColumn`), which can be used again like any other column.

  Every operation builds a new immutable node, so the model uses datatypes and functions (`numeric_column.dfy`).
- **Update.java** is the UPDATE statement builder. It is a chain of stages:

      Update -> [UpdateConflictAlgorithm] -> TableNode -> Set (1..n) -> [Where]

  All stages share one mutable build context, which holds the bound argument list and the table stage. Each stage pushes its expressions' arguments onto the list when it is created. `Set.set` appends another assignment to the same stage in place and returns that same stage. The model keeps this form: the stages are classes with `const` links to their parents, and the shared context is a class with a `seq` field. Each state-changing method has a `modifies` clause and states its whole new state (`update.dfy`).

The property proved throughout is **lock-step**: a statement lists exactly one argument per `?` placeholder, and in the same order.

- `SqlText.Bind` binds an argument list into SQL text, left to right, as the engine does. It is defined exactly when the counts agree.
- `Expressions.Inlined` is an independent reference rendering. It writes every bound literal in the place it belongs.
- Lock-step is stated as `Bind(Sql(e), Args(e)) == Some(Inlined(e))`. It is proved:
  - for every well-formed expression (`LockStep`);
  - for every list of well-formed assignments (`JoinLockStep`);
  - for every statement built along one chain whose assignments and condition are well-formed and whose table text has no `?` (`Set.ArgsMatchPlaceholders`, `Where.ArgsMatchPlaceholders`).

  An expression is well-formed when the text of its columns and sub-selects holds no `?` of its own beyond the sub-select's bound ones. The builder does not check this. A column-op-value arithmetic column whose inlined literal contains `?` breaks lock-step, as `InlinedLiteralIsNotBound` shows.

  Each stage keeps a `Valid()` predicate. It says that the shared list holds exactly the arguments of the chain so far, in rendering order. Every stage method preserves it.

The collaborators of the two files live in other files and are not part of this model. `expressions.dfy` gives them minimal stand-ins:

- Column, Table, the Expr classes, FunctionColumn and SelectNode.
- `toSqlArg` and `toString` of a value: both are taken to be the value's text.
- A stored column renders as the table's alias, a dot and its name, with the table name in place of an empty alias.
- A table renders in a FROM clause as its name alone (`FromClause`). The alias is not rendered there.
- A computed column renders as its prefix, its operands joined by the joiner, and its suffix.
- A sub-select is its rendered text plus its own arguments.
- The expressions render by concatenating their parts:
  - `Expr1` is the column followed by its operator, whose last character is the placeholder;
  - `ExprC` is column, operator, column;
  - `ExprS` is column, operator, then the sub-select in parentheses;
  - `BetweenExpr` is the column, `[NOT] BETWEEN`, its two bounds and `AND`.
- `Column.is` assigns with `=?`, `=` and `=(select)`.
- ConflictAlgorithm.java is not part of this model either. `CONFLICT_VALUES` is taken as the Android layout: index 0 adds nothing, and indices 1 to 5 are `OR ROLLBACK`, `OR ABORT`, `OR FAIL`, `OR IGNORE`, `OR REPLACE`.
- ExecutableNode is not part of this model. Stage fragments are taken to be joined with single spaces, from the root to the last stage.

## Model

| member | source | states |
|---|---|---|
| NumericColumn.As | runtime/src/main/java/com/siimkinks/sqlitemagic/NumericColumn.java:34-38 | the result keeps the receiver's table, name, allFromTable, parser and nullability and carries the new alias; for a stored receiver it is the receiver with only the alias changed and renders the same |
| NumericColumn.GreaterThan | runtime/src/main/java/com/siimkinks/sqlitemagic/NumericColumn.java:46-50 | renders `c>?` with exactly the one argument `toSqlArg(value)`; for a bare column it is well-formed and binds to `c>value` |
| NumericColumn.GreaterOrEqual | runtime/src/main/java/com/siimkinks/sqlitemagic/NumericColumn.java:84-88 | renders `c>=?` with exactly the one argument `toSqlArg(value)`; binds to `c>=value` |
| NumericColumn.LessThan | runtime/src/main/java/com/siimkinks/sqlitemagic/NumericColumn.java:122-126 | renders `c<?` with exactly the one argument `toSqlArg(value)`; binds to `c<value` |
| NumericColumn.LessOrEqual | runtime/src/main/java/com/siimkinks/sqlitemagic/NumericColumn.java:160-164 | renders `c<=?` with exactly the one argument `toSqlArg(value)`; binds to `c<=value` |
| NumericColumn.GreaterThanColumn | runtime/src/main/java/com/siimkinks/sqlitemagic/NumericColumn.java:60-64 | renders `c>d` with the bare operator and binds nothing; well-formed for bare columns |
| NumericColumn.GreaterOrEqualColumn | runtime/src/main/java/com/siimkinks/sqlitemagic/NumericColumn.java:98-102 | renders `c>=d` and binds nothing |
| NumericColumn.LessThanColumn | runtime/src/main/java/com/siimkinks/sqlitemagic/NumericColumn.java:136-140 | renders `c<d` and binds nothing |
| NumericColumn.LessOrEqualColumn | runtime/src/main/java/com/siimkinks/sqlitemagic/NumericColumn.java:174-178 | renders `c<=d` and binds nothing |
| NumericColumn.GreaterThanSelect | runtime/src/main/java/com/siimkinks/sqlitemagic/NumericColumn.java:72-76 | renders `c>(select)` with the bare operator; its arguments are exactly the sub-select's |
| NumericColumn.GreaterOrEqualSelect | runtime/src/main/java/com/siimkinks/sqlitemagic/NumericColumn.java:110-114 | renders `c>=(select)`; arguments are the sub-select's |
| NumericColumn.LessThanSelect | runtime/src/main/java/com/siimkinks/sqlitemagic/NumericColumn.java:148-152 | renders `c<(select)`; arguments are the sub-select's |
| NumericColumn.LessOrEqualSelect | runtime/src/main/java/com/siimkinks/sqlitemagic/NumericColumn.java:186-190 | renders `c<=(select)`; arguments are the sub-select's |
| NumericColumn.BetweenValue | runtime/src/main/java/com/siimkinks/sqlitemagic/NumericColumn.java:198-202 | sets the literal lower bound, leaves the column bound empty, `not` false; exactly one lower bound |
| NumericColumn.BetweenColumn | runtime/src/main/java/com/siimkinks/sqlitemagic/NumericColumn.java:212-216 | sets the column lower bound, leaves the literal empty, `not` false |
| NumericColumn.NotBetweenValue | runtime/src/main/java/com/siimkinks/sqlitemagic/NumericColumn.java:224-228 | as `between(value)` with `not` true |
| NumericColumn.NotBetweenColumn | runtime/src/main/java/com/siimkinks/sqlitemagic/NumericColumn.java:238-242 | as `between(column)` with `not` true |
| NumericColumn.Between.FirstArg | runtime/src/main/java/com/siimkinks/sqlitemagic/NumericColumn.java:271 | the lower bound is converted to an argument exactly when it is a literal, and the argument is the compared column's `toSqlArg` of that literal |
| NumericColumn.Between.AndValue | runtime/src/main/java/com/siimkinks/sqlitemagic/NumericColumn.java:267-273 | the lower bound and `not` carry over, the upper bound is the literal `toSqlArg(value)` with no column; renders `c [NOT] BETWEEN lo AND ?` and binds the lower literal (if any) and then the upper one |
| NumericColumn.Between.AndColumn | runtime/src/main/java/com/siimkinks/sqlitemagic/NumericColumn.java:283-289 | the lower bound and `not` carry over, the upper bound is the column with no literal; only the lower literal (if any) is bound |
| NumericColumn.BetweenLiterals | runtime/src/main/java/com/siimkinks/sqlitemagic/NumericColumn.java:198-273 | `between(lo).and(hi)` renders `c BETWEEN ? AND ?` (`NOT BETWEEN` for `notBetween`), binds `lo` then `hi`, and binding yields `c BETWEEN lo AND hi` |
| NumericColumn.BetweenLockStep | runtime/src/main/java/com/siimkinks/sqlitemagic/NumericColumn.java:244-290 | whichever bounds are literals and whichever are columns, the finished BETWEEN binds to its reference text |
| NumericColumn.Add | runtime/src/main/java/com/siimkinks/sqlitemagic/NumericColumn.java:299-303 | a nullable double-valued computed column on the anonymous table with operands `[this, column]` in order, rendering `(c+d)` and binding nothing new |
| NumericColumn.AddValue | runtime/src/main/java/com/siimkinks/sqlitemagic/NumericColumn.java:311-315 | a nullable double-valued computed column on the receiver's table under the empty internal alias, single operand `this`, rendering `(c+value)` with the value inlined; it is free of placeholders exactly when the receiver and the value's text are |
| NumericColumn.Sub | runtime/src/main/java/com/siimkinks/sqlitemagic/NumericColumn.java:324-328 | as `add(column)` with `-` |
| NumericColumn.SubValue | runtime/src/main/java/com/siimkinks/sqlitemagic/NumericColumn.java:336-340 | as `add(value)` with `-` |
| NumericColumn.Mul | runtime/src/main/java/com/siimkinks/sqlitemagic/NumericColumn.java:349-353 | as `add(column)` with `*` |
| NumericColumn.MulValue | runtime/src/main/java/com/siimkinks/sqlitemagic/NumericColumn.java:361-365 | as `add(value)` with `*` |
| NumericColumn.Div | runtime/src/main/java/com/siimkinks/sqlitemagic/NumericColumn.java:374-378 | as `add(column)` with `/` |
| NumericColumn.DivValue | runtime/src/main/java/com/siimkinks/sqlitemagic/NumericColumn.java:386-390 | as `add(value)` with `/` |
| NumericColumn.Mod | runtime/src/main/java/com/siimkinks/sqlitemagic/NumericColumn.java:399-403 | as `add(column)` with `%` |
| NumericColumn.ModValue | runtime/src/main/java/com/siimkinks/sqlitemagic/NumericColumn.java:411-415 | as `add(value)` with `%` |
| NumericColumn.SumComparedWithValue | runtime/src/main/java/com/siimkinks/sqlitemagic/NumericColumn.java:299-303 | closure: the sum of two columns compares like a column, rendering `(a+b)>?` and binding only the compared literal |
| NumericColumn.InlinedLiteralIsNotBound | runtime/src/main/java/com/siimkinks/sqlitemagic/NumericColumn.java:311-315 | the literal of column-op-value arithmetic is never bound; if its text contains `?`, the comparison has more placeholders than arguments and binding fails |
| Expressions.LockStep | runtime/src/main/java/com/siimkinks/sqlitemagic/NumericColumn.java:46-190 | every well-formed comparison has as many arguments as placeholders, and binding them in order yields its reference text |
| Expressions.JoinLockStep | runtime/src/main/java/com/siimkinks/sqlitemagic/Update.java:230-241 | lock-step carries over to a comma-separated list of expressions whose arguments are concatenated in list order |
| Update.UpdateColumn | runtime/src/main/java/com/siimkinks/sqlitemagic/Update.java:195-214 | keeps every descriptor field of the wrapped column, renders as the bare name without table qualification, and converts values exactly as the wrapped column |
| Update.AssignValue | runtime/src/main/java/com/siimkinks/sqlitemagic/Update.java:133-135 | `name=?` with the one argument `toSqlArg(value)` of the wrapped column; binds to `name=value` |
| Update.AssignLong | runtime/src/main/java/com/siimkinks/sqlitemagic/Update.java:149-152 | `name=?` with the one argument the decimal text of the id |
| Update.AssignColumn | runtime/src/main/java/com/siimkinks/sqlitemagic/Update.java:169-173 | `name=other` with no argument |
| Update.AssignSelect | runtime/src/main/java/com/siimkinks/sqlitemagic/Update.java:188-192 | `name=(select)` with the sub-select's arguments |
| Update.ConflictValuesBare | runtime/src/main/java/com/siimkinks/sqlitemagic/Update.java:70-73 | no conflict keyword contains a placeholder |
| Update.SetLockStep | runtime/src/main/java/com/siimkinks/sqlitemagic/Update.java:230-241 | after a placeholder-free prefix, `SET u1,...,un` binds the assignments' arguments in order |
| Update.WhereLockStep | runtime/src/main/java/com/siimkinks/sqlitemagic/Update.java:354-358 | appending `WHERE e` and the condition's arguments after the others keeps lock-step |
| Update.UpdateBuilder.constructor | runtime/src/main/java/com/siimkinks/sqlitemagic/Update.java:14-16 | the shared build context starts with no arguments and no table stage |
| Update.Update.Fragment | runtime/src/main/java/com/siimkinks/sqlitemagic/Update.java:18-21 | the root renders exactly `UPDATE`, which has no placeholder |
| Update.UpdateConflictAlgorithm.Fragment | runtime/src/main/java/com/siimkinks/sqlitemagic/Update.java:70-73 | the stage renders one of the conflict keywords, which has no placeholder; it is empty exactly for the default algorithm 0 |
| Update.UpdateConflictAlgorithm.StatementSql | runtime/src/main/java/com/siimkinks/sqlitemagic/Update.java:61-73 | the statement so far is `UPDATE ` followed by the keyword, and has no placeholder |
| Update.TableNode.Fragment | runtime/src/main/java/com/siimkinks/sqlitemagic/Update.java:115-118 | the stage renders the table's FROM-clause text |
| Update.TableNode.StatementSql | runtime/src/main/java/com/siimkinks/sqlitemagic/Update.java:105-118 | the statement so far is `UPDATE `, then the conflict keyword and a space exactly when the parent is the conflict stage, then the table |
| Update.TableNode.StartSet | runtime/src/main/java/com/siimkinks/sqlitemagic/Update.java:132-192 | the shared `new Set(this, update)` step of the four `set` overloads: a fresh SET stage with exactly that update, whose arguments are appended to the shared list |
| Update.Set.StatementSql | runtime/src/main/java/com/siimkinks/sqlitemagic/Update.java:221-241 | the statement so far is the table stage's text and the SET clause, separated by one space |
| Update.Set.Push | runtime/src/main/java/com/siimkinks/sqlitemagic/Update.java:257-260 | the shared `updates.add` and `addArgs` step: the update goes to the end of the updates and its arguments to the end of the shared list |
| Update.Where.Fragment | runtime/src/main/java/com/siimkinks/sqlitemagic/Update.java:354-358 | the stage renders `WHERE ` and the condition; a well-formed condition binds its own arguments in order |
| Update.Where.StatementSql | runtime/src/main/java/com/siimkinks/sqlitemagic/Update.java:344-358 | the statement is the SET stage's text and the WHERE clause, separated by one space |
| Update.Update.constructor | runtime/src/main/java/com/siimkinks/sqlitemagic/Update.java:13-16 | the root has a fresh build context with no arguments and no table stage |
| Update.Update.WithConflictAlgorithm | runtime/src/main/java/com/siimkinks/sqlitemagic/Update.java:29-32 | a conflict stage directly after a fresh root, with the given algorithm and no arguments, rendering `UPDATE ` followed by the algorithm's keyword |
| Update.Update.Table | runtime/src/main/java/com/siimkinks/sqlitemagic/Update.java:53-56 | a table stage whose parent is a fresh root, recorded as the context's table stage, rendering `UPDATE table` |
| Update.UpdateConflictAlgorithm.constructor | runtime/src/main/java/com/siimkinks/sqlitemagic/Update.java:65-68 | links the stage to its root and shares the root's context |
| Update.UpdateConflictAlgorithm.Table | runtime/src/main/java/com/siimkinks/sqlitemagic/Update.java:94-97 | a table stage whose parent is the conflict stage, recorded in the context, with no argument added, rendering `UPDATE keyword table` |
| Update.TableNode.constructor | runtime/src/main/java/com/siimkinks/sqlitemagic/Update.java:109-113 | records the new stage as the shared context's table stage and leaves the arguments unchanged |
| Update.TableNode.StatementBare | runtime/src/main/java/com/siimkinks/sqlitemagic/Update.java:115-118 | the `UPDATE [keyword] table` prefix has no placeholder when the table's text has none |
| Update.TableNode.SetValue | runtime/src/main/java/com/siimkinks/sqlitemagic/Update.java:132-135 | a fresh SET stage holding exactly the one assignment, whose argument is appended to the end of the shared list |
| Update.TableNode.SetLong | runtime/src/main/java/com/siimkinks/sqlitemagic/Update.java:149-152 | a fresh SET stage with the one id assignment, the id's text appended |
| Update.TableNode.SetColumn | runtime/src/main/java/com/siimkinks/sqlitemagic/Update.java:169-173 | a fresh SET stage with the one column assignment, the list unchanged |
| Update.TableNode.SetSelect | runtime/src/main/java/com/siimkinks/sqlitemagic/Update.java:188-192 | a fresh SET stage with the one sub-select assignment, the sub-select's arguments appended |
| Update.Set.constructor | runtime/src/main/java/com/siimkinks/sqlitemagic/Update.java:224-228 | stores exactly the first update and appends its arguments to the end of the shared list |
| Update.Set.AppendSql | runtime/src/main/java/com/siimkinks/sqlitemagic/Update.java:230-241 | the loop appends `SET ` and the updates in insertion order, comma-separated with no leading or trailing comma |
| Update.Set.SetValue | runtime/src/main/java/com/siimkinks/sqlitemagic/Update.java:255-261 | returns the same stage; the assignment is appended to the end of the updates and its argument to the end of the list; earlier updates and arguments are unchanged |
| Update.Set.SetLong | runtime/src/main/java/com/siimkinks/sqlitemagic/Update.java:275-281 | as above for an id assignment |
| Update.Set.SetColumn | runtime/src/main/java/com/siimkinks/sqlitemagic/Update.java:298-305 | as above for a column assignment, with no argument |
| Update.Set.SetSelect | runtime/src/main/java/com/siimkinks/sqlitemagic/Update.java:320-327 | as above for a sub-select assignment, with its arguments |
| Update.Set.Where | runtime/src/main/java/com/siimkinks/sqlitemagic/Update.java:335-338 | a fresh WHERE stage on this SET stage whose condition's arguments follow every SET argument |
| Update.Set.ArgsMatchPlaceholders | runtime/src/main/java/com/siimkinks/sqlitemagic/Update.java:221-241 | for a valid SET stage the shared list binds, in order, to the placeholders of `UPDATE ... SET ...` |
| Update.Where.constructor | runtime/src/main/java/com/siimkinks/sqlitemagic/Update.java:348-352 | appends the condition's arguments to the end of the shared list |
| Update.Where.ArgsMatchPlaceholders | runtime/src/main/java/com/siimkinks/sqlitemagic/Update.java:344-358 | for a valid WHERE stage the SET arguments followed by the condition's arguments bind, in order, to the placeholders of `UPDATE ... SET ... WHERE ...` |
| Update.SetSetWhereExample | runtime/src/main/java/com/siimkinks/sqlitemagic/Update.java:255-261 | `table(t).set(x,a).set(y,b).where(z>c)` renders `UPDATE t SET x=?,y=? WHERE z>?` and binds a, b, c in that order |
| Update.ConflictExample | runtime/src/main/java/com/siimkinks/sqlitemagic/Update.java:61-73 | `withConflictAlgorithm(REPLACE).table(t).set(x,a)` renders `UPDATE OR REPLACE t SET x=?` and binds a |

## Left out

- Execution: the terminal stages hand their SQL and arguments to the SQLite engine through ExecutableNode, which is not part of this model. The model keeps only the rendered text and the argument list, and `Bind` stands in for the engine's positional binding.
- Value conversion: the value parsers (including the double parser), `toSqlArg` and `value.toString()` are stand-ins that return the value's text. Float formatting and the parsers' code are not modelled.
- Rendering of tables, stored columns, sub-selects and the Expr classes: those classes are not part of this model. Their stand-ins are given above and carry only what NumericColumn.java and Update.java rely on.
- ConflictAlgorithm: the `@ConflictAlgorithm int` parameter became a subset type of the six valid codes. Java accepts any `int` there; an out-of-range code fails with an index error only when the statement is rendered, and that error path is not modelled.
- Well-formedness of expressions is not checked by the builder: `Set.Where` and the `set` overloads accept any expression, and the statement lock-step lemmas hold only under the well-formedness and table-text conditions stated in their `requires`.
- Java generics (the `T`, `R`, `ET`, `P` bounds) are compile-time guarantees and are omitted. `@NonNull` parameters become plain non-null values.
- NumericColumn.As: a derived column keeps its name and descriptor fields but becomes a stored column, as the NumericColumn constructor in the source makes it. Its rendering is therefore stated only for a stored receiver.
- The `nameInQuery` field of Column and the name of a FunctionColumn are not modelled. A computed column's name is the empty string.
- Set and Where accept only a TableNode and a Set as parent. Those are the only parents the builder's own methods create.
- Single use of a chain is not enforced. A stage made from an older stage appends to the same shared list, and the older stage then stops being `Valid()`. The stage methods therefore promise `old(Valid()) ==> Valid()`.
- Compound boolean conditions (`and`/`or` of Exprs) live in Expr.java and are not part of this model. A WHERE condition is any single expression.
- Update.AssignLong: the id is taken to be bound as its decimal text. `Column.is(long)` of a complex column is not shown.
