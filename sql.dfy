/**
 * The two pieces of SQL semantics the repositories depend on: `%s` placeholders in a
 * parameterised query, and `LIKE`/`ILIKE` pattern matching.
 */
module Sql {
  import opened Base

  /** A bound parameter of a parameterised query; Python's `None` is bound as NULL. */
  datatype Param = PStr(s: string) | PInt(n: int) | PNull

  function OptStr(o: Option<string>): Param {
    match o
    case Some(s) => PStr(s)
    case None => PNull
  }

  /**
   * The number of `%s` placeholders the driver finds, scanning left to right: `%%` is an
   * escaped percent sign and `%s` a placeholder.
   */
  function Placeholders(q: string): nat
    decreases |q|
  {
    if |q| < 2 then 0
    else if q[0] == '%' && q[1] == 's' then 1 + Placeholders(q[2..])
    else if q[0] == '%' && q[1] == '%' then Placeholders(q[2..])
    else Placeholders(q[1..])
  }

  /**
   * A parameterised query as its source builds it: literal SQL text interleaved with
   * `%s` holes.
   */
  datatype Fragment = Text(sql: string) | Hole

  /** SQL text as the driver must receive it: every `%` doubled. */
  function Escape(t: string): (r: string)
    ensures (forall i :: 0 <= i < |t| ==> t[i] != '%') ==> r == t
  {
    if t == [] then ""
    else (if t[0] == '%' then "%%" else [t[0]]) + Escape(t[1..])
  }

  function RenderFragment(f: Fragment): string {
    match f
    case Text(t) => Escape(t)
    case Hole => "%s"
  }

  /** The query string handed to the driver. */
  function Render(q: seq<Fragment>): string {
    if q == [] then "" else RenderFragment(q[0]) + Render(q[1..])
  }

  /** The number of holes. */
  function Holes(q: seq<Fragment>): (n: nat)
    ensures n <= |q|
  {
    if q == [] then 0 else (if q[0].Hole? then 1 else 0) + Holes(q[1..])
  }

  lemma {:induction false} HolesAppend(a: seq<Fragment>, b: seq<Fragment>)
    ensures Holes(a + b) == Holes(a) + Holes(b)
  {
    if a == [] {
      assert a + b == b;
    } else {
      assert (a + b)[1..] == a[1..] + b;
      HolesAppend(a[1..], b);
    }
  }

  /** Escaped SQL text adds no placeholder, whatever follows it. */
  lemma {:induction false} EscapeAddsNone(t: string, rest: string)
    ensures Placeholders(Escape(t) + rest) == Placeholders(rest)
  {
    if t != [] {
      EscapeAddsNone(t[1..], rest);
      if t[0] == '%' {
        assert Escape(t) + rest == "%%" + (Escape(t[1..]) + rest);
        var y := "%%" + (Escape(t[1..]) + rest);
        assert y[0] == '%' && y[1] == '%' && y[2..] == Escape(t[1..]) + rest;
        assert Placeholders(y) == Placeholders(Escape(t[1..]) + rest);
      } else {
        var x := Escape(t[1..]) + rest;
        assert Escape(t) + rest == [t[0]] + x;
        if |[t[0]] + x| >= 2 {
          assert ([t[0]] + x)[0] != '%' && ([t[0]] + x)[1..] == x;
          assert Placeholders([t[0]] + x) == Placeholders(x);
        } else {
          assert x == [];
        }
      }
    } else {
      assert Escape(t) + rest == rest;
    }
  }

  /** The rendered query carries exactly one placeholder per hole. */
  lemma {:induction false} RenderPlaceholders(q: seq<Fragment>)
    ensures Placeholders(Render(q)) == Holes(q)
  {
    if q != [] {
      RenderPlaceholders(q[1..]);
      match q[0]
      case Hole =>
        assert ("%s" + Render(q[1..]))[2..] == Render(q[1..]);
      case Text(t) =>
        EscapeAddsNone(t, Render(q[1..]));
    }
  }

  // ---------------------------------------------------------------------------------
  // LIKE

  /** The default escape character of LIKE patterns. */
  const LikeEscape: char := '\\'

  /**
   * `s LIKE p`: `%` matches any run of characters, `_` exactly one, and the escape
   * character makes the character after it match only itself.
   */
  predicate Like(s: string, p: string)
    decreases |s| + |p|
  {
    if p == [] then s == []
    else if p[0] == '%' then Like(s, p[1..]) || (s != [] && Like(s[1..], p))
    else if p[0] == '_' then s != [] && Like(s[1..], p[1..])
    else if p[0] == LikeEscape then |p| >= 2 && s != [] && s[0] == p[1] && Like(s[1..], p[2..])
    else s != [] && s[0] == p[0] && Like(s[1..], p[1..])
  }

  /** `s ILIKE p`: LIKE after case folding both sides. */
  predicate ILike(s: string, p: string) {
    Like(Lower(s), Lower(p))
  }

  /** A search text in which no character has a meaning of its own in a LIKE pattern. */
  predicate Literal(q: string) {
    forall i :: 0 <= i < |q| ==> q[i] != '%' && q[i] != '_' && q[i] != LikeEscape
  }

  /** An escaped character matches exactly itself, a metacharacter included. */
  lemma LikeEscaped(s: string, c: char)
    ensures Like(s, [LikeEscape, c]) <==> s == [c]
  {
    assert [LikeEscape, c][2..] == [];
    if s != [] {
      assert Like(s[1..], []) <==> s[1..] == [];
    }
  }

  /** `q` occurs in `s` at offset `i`. */
  predicate OccursAt(s: string, q: string, i: int) {
    0 <= i && i + |q| <= |s| && s[i..i + |q|] == q
  }

  ghost predicate Contains(s: string, q: string) {
    exists i :: OccursAt(s, q, i)
  }

  lemma {:induction false} LikeAnything(s: string)
    ensures Like(s, "%")
    decreases |s|
  {
    assert "%"[1..] == [];
    if s != [] { LikeAnything(s[1..]); }
  }

  /** `s LIKE q || '%'` for a literal `q` holds exactly when `q` is a prefix of `s`. */
  lemma {:induction false} LikePrefix(s: string, q: string)
    requires Literal(q)
    ensures Like(s, q + "%") <==> |q| <= |s| && s[..|q|] == q
    decreases |q|
  {
    if q == [] {
      assert q + "%" == "%";
      LikeAnything(s);
    } else {
      assert (q + "%")[1..] == q[1..] + "%";
      assert Literal(q[1..]) by {
        forall i | 0 <= i < |q[1..]| ensures q[1..][i] != '%' && q[1..][i] != '_' && q[1..][i] != LikeEscape {
          assert q[1..][i] == q[i + 1];
        }
      }
      if s != [] {
        LikePrefix(s[1..], q[1..]);
        if |q| <= |s| {
          assert s[..|q|] == [s[0]] + s[1..][..|q| - 1];
          assert q == [q[0]] + q[1..];
        }
      }
    }
  }

  /** `s LIKE '%' || p` holds when some suffix of `s` matches `p`. */
  lemma {:induction false} LikeLeadingPercent(s: string, p: string)
    ensures Like(s, "%" + p) <==> exists i :: 0 <= i <= |s| && Like(s[i..], p)
    decreases |s|
  {
    assert ("%" + p)[1..] == p;
    if s == [] {
      assert s[0..] == s;
    } else {
      LikeLeadingPercent(s[1..], p);
      if Like(s, "%" + p) {
        if !Like(s, p) {
          var i :| 0 <= i <= |s[1..]| && Like(s[1..][i..], p);
          assert s[1..][i..] == s[i + 1..];
        } else {
          assert s[0..] == s;
        }
      }
      if exists i :: 0 <= i <= |s| && Like(s[i..], p) {
        var i :| 0 <= i <= |s| && Like(s[i..], p);
        if i == 0 {
          assert s[0..] == s;
        } else {
          assert s[1..][i - 1..] == s[i..];
        }
      }
    }
  }

  /**
   * The search wildcard: for a search text without `%`, `_` or the escape character, `s LIKE '%' || q || '%'`
   * holds exactly when `q` occurs in `s`.
   */
  lemma LikeContains(s: string, q: string)
    requires Literal(q)
    ensures Like(s, "%" + q + "%") <==> Contains(s, q)
  {
    assert "%" + q + "%" == "%" + (q + "%");
    LikeLeadingPercent(s, q + "%");
    if Like(s, "%" + q + "%") {
      var i :| 0 <= i <= |s| && Like(s[i..], q + "%");
      LikePrefix(s[i..], q);
      assert s[i..][..|q|] == s[i..i + |q|];
      assert OccursAt(s, q, i);
    }
    if Contains(s, q) {
      var i :| OccursAt(s, q, i);
      LikePrefix(s[i..], q);
      assert s[i..][..|q|] == s[i..i + |q|];
    }
  }

  /** Lowering keeps a literal search text literal (`%`, `_` and the escape character are not letters). */
  lemma LowerLiteral(q: string)
    requires Literal(q)
    ensures Literal(Lower(q))
  {
  }

  /** `s ILIKE '%' || q || '%'` is case-insensitive containment. */
  lemma ILikeContains(s: string, q: string)
    requires Literal(q)
    ensures ILike(s, "%" + q + "%") <==> Contains(Lower(s), Lower(q))
  {
    assert Lower("%" + q + "%") == "%" + Lower(q) + "%";
    LowerLiteral(q);
    LikeContains(Lower(s), Lower(q));
  }
}
