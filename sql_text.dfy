/**
 * Parameterized SQL text: `?` placeholders and the positional binding of an
 * ordered argument list into them, as a SQL engine does when it executes a
 * statement.
 */
module SqlText {
  import opened Wrappers

  /** A fragment of SQL that contains no placeholder. */
  predicate NoPlaceholder(s: string) {
    '?' !in s
  }

  /** Number of `?` placeholders in `s`. */
  function Placeholders(s: string): nat {
    if s == [] then 0
    else (if s[0] == '?' then 1 else 0) + Placeholders(s[1..])
  }

  /**
   * The text an engine executes after binding `args`, left to right, to the
   * placeholders of `sql`: defined exactly when there is one argument per
   * placeholder.
   */
  function Bind(sql: string, args: seq<string>): (r: Option<string>)
    ensures r.Some? <==> Placeholders(sql) == |args|
  {
    if sql == [] then
      if args == [] then Some("") else None
    else if sql[0] == '?' then
      if args == [] then None
      else match Bind(sql[1..], args[1..])
        case None => None
        case Some(t) => Some(args[0] + t)
    else
      match Bind(sql[1..], args)
      case None => None
      case Some(t) => Some([sql[0]] + t)
  }

  lemma {:induction false} NoPlaceholderCount(s: string)
    ensures NoPlaceholder(s) <==> Placeholders(s) == 0
  {
    if s != [] {
      NoPlaceholderCount(s[1..]);
      assert s == [s[0]] + s[1..];
    }
  }

  lemma {:induction false} PlaceholdersAppend(a: string, b: string)
    ensures Placeholders(a + b) == Placeholders(a) + Placeholders(b)
  {
    if a != [] {
      assert (a + b)[1..] == a[1..] + b;
      PlaceholdersAppend(a[1..], b);
    } else {
      assert a + b == b;
    }
  }

  /** Text without placeholders binds no argument and is left as it is. */
  lemma {:induction false} BindText(s: string)
    requires NoPlaceholder(s)
    ensures Bind(s, []) == Some(s)
  {
    if s != [] {
      BindText(s[1..]);
      assert s == [s[0]] + s[1..];
    }
  }

  /**
   * Binding distributes over concatenation: the first |x| arguments fill the
   * placeholders of `a`, the rest those of `b`.
   */
  lemma {:induction false} BindAppend(a: string, b: string, x: seq<string>, y: seq<string>)
    requires Placeholders(a) == |x| && Placeholders(b) == |y|
    ensures Bind(a + b, x + y) == Some(Bind(a, x).value + Bind(b, y).value)
  {
    PlaceholdersAppend(a, b);
    if a == [] {
      assert x == [];
      assert a + b == b && x + y == y;
      assert Bind(a, x) == Some("");
      assert "" + Bind(b, y).value == Bind(b, y).value;
    } else {
      assert (a + b)[0] == a[0];
      assert (a + b)[1..] == a[1..] + b;
      if a[0] == '?' {
        assert (x + y)[0] == x[0];
        assert (x + y)[1..] == x[1..] + y;
        BindAppend(a[1..], b, x[1..], y);
        var u, v := Bind(a[1..], x[1..]).value, Bind(b, y).value;
        assert Bind(a, x).value == x[0] + u;
        Assoc(x[0], u, v);
      } else {
        BindAppend(a[1..], b, x, y);
        var u, v := Bind(a[1..], x).value, Bind(b, y).value;
        assert Bind(a, x).value == [a[0]] + u;
        Assoc([a[0]], u, v);
      }
    }
  }

  /** A lone placeholder binds exactly its one argument. */
  lemma BindPlaceholder(arg: string)
    ensures Bind("?", [arg]) == Some(arg)
  {
    assert "?"[1..] == "";
    assert [arg][1..] == [];
    assert arg + "" == arg;
  }

  /** Text without placeholders in front of bound text passes through unchanged. */
  lemma BindTextThen(a: string, b: string, y: seq<string>)
    requires NoPlaceholder(a) && Placeholders(b) == |y|
    ensures Bind(a + b, y) == Some(a + Bind(b, y).value)
  {
    NoPlaceholderCount(a);
    BindText(a);
    BindAppend(a, b, [], y);
    assert [] + y == y;
  }

  /** Text without placeholders after bound text passes through unchanged. */
  lemma BindThenText(a: string, b: string, x: seq<string>)
    requires Placeholders(a) == |x| && NoPlaceholder(b)
    ensures Bind(a + b, x) == Some(Bind(a, x).value + b)
  {
    NoPlaceholderCount(b);
    BindText(b);
    BindAppend(a, b, x, []);
    assert x + [] == x;
  }

  /** Concatenation regroups freely. */
  lemma Assoc(a: string, b: string, c: string)
    ensures a + b + c == a + (b + c)
  {
  }
}
