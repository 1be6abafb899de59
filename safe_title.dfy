/** The download name of an artifact: the session's title with every maximal
    run of characters that file systems refuse collapsed to one underscore
    (the `re.sub(r'[\\/:"*?<>|]+', '_', title)` of the retrieval endpoint). */
module SafeTitle {

  /** The characters of the character class `[\\/:"*?<>|]`. */
  predicate Forbidden(c: char) {
    c == '\\' || c == '/' || c == ':' || c == '"' || c == '*' ||
    c == '?' || c == '<' || c == '>' || c == '|'
  }

  predicate Clean(s: string) {
    forall i :: 0 <= i < |s| ==> !Forbidden(s[i])
  }

  /** `s` without its leading run of forbidden characters. */
  function SkipRun(s: string): (r: string)
    ensures |r| <= |s|
    ensures s != [] && Forbidden(s[0]) ==> |r| < |s|
    ensures r == [] || !Forbidden(r[0])
  {
    if s != [] && Forbidden(s[0]) then SkipRun(s[1..]) else s
  }

  /** What the run skips is a prefix of forbidden characters. */
  lemma {:induction false} SkipRunSuffix(s: string)
    ensures SkipRun(s) == s[|s| - |SkipRun(s)|..]
    ensures forall i :: 0 <= i < |s| - |SkipRun(s)| ==> Forbidden(s[i])
  {
    if s != [] && Forbidden(s[0]) {
      SkipRunSuffix(s[1..]);
    }
  }

  /** The substitution: a maximal run of forbidden characters becomes one `_`,
      everything else is copied. */
  function Sanitize(s: string): (r: string)
    ensures Clean(r)
    ensures |r| <= |s|
    decreases |s|
  {
    if s == [] then []
    else if Forbidden(s[0]) then "_" + Sanitize(SkipRun(s))
    else [s[0]] + Sanitize(s[1..])
  }

  /** A title holding no forbidden character is used as it is. */
  lemma {:induction false} SanitizeClean(s: string)
    requires Clean(s)
    ensures Sanitize(s) == s
  {
    if s != [] {
      SanitizeClean(s[1..]);
    }
  }

  /** A whole non-empty run of forbidden characters becomes a single `_`. */
  lemma SanitizeRun(s: string)
    requires s != []
    requires forall i :: 0 <= i < |s| ==> Forbidden(s[i])
    ensures Sanitize(s) == "_"
  {
    SkipRunSuffix(s);
    assert SkipRun(s) == [];
  }

  /** The substitution is idempotent. */
  lemma SanitizeIdempotent(s: string)
    ensures Sanitize(Sanitize(s)) == Sanitize(s)
  {
    SanitizeClean(Sanitize(s));
  }

  /** `u` and `v` do not meet inside a run of forbidden characters. */
  predicate Boundary(u: string, v: string) {
    u == [] || v == [] || !Forbidden(u[|u| - 1]) || !Forbidden(v[0])
  }

  lemma {:induction false} SkipRunAppend(u: string, v: string)
    requires SkipRun(u) != [] || v == [] || !Forbidden(v[0])
    ensures SkipRun(u + v) == SkipRun(u) + v
  {
    if u == [] {
      assert u + v == v;
    } else {
      assert (u + v)[0] == u[0];
      if Forbidden(u[0]) {
        assert SkipRun(u) == SkipRun(u[1..]);
        assert (u + v)[1..] == u[1..] + v;
        SkipRunAppend(u[1..], v);
        assert SkipRun(u + v) == SkipRun(u[1..] + v);
      } else {
        assert SkipRun(u) == u;
        assert SkipRun(u + v) == u + v;
      }
    }
  }

  /** Runs are maximal: cutting the title anywhere outside a run and
      substituting the two halves separately gives the same name. */
  lemma {:induction false} SanitizeAppend(u: string, v: string)
    requires Boundary(u, v)
    ensures Sanitize(u + v) == Sanitize(u) + Sanitize(v)
    decreases |u|
  {
    if u == [] {
      assert u + v == v;
    } else if !Forbidden(u[0]) {
      assert (u + v)[1..] == u[1..] + v;
      SanitizeAppend(u[1..], v);
    } else {
      var w := SkipRun(u);
      SkipRunSuffix(u);
      SkipRunAppend(u, v);
      assert w != [] ==> w[|w| - 1] == u[|u| - 1];
      SanitizeAppend(w, v);
    }
  }

  /** The characters that are neither forbidden nor `_`, in order. */
  function Kept(s: string): (r: string)
  {
    if s == [] then []
    else if Forbidden(s[0]) || s[0] == '_' then Kept(s[1..])
    else [s[0]] + Kept(s[1..])
  }

  lemma {:induction false} KeptSkipRun(s: string)
    ensures Kept(SkipRun(s)) == Kept(s)
  {
    if s != [] && Forbidden(s[0]) {
      KeptSkipRun(s[1..]);
    }
  }

  /** Every character that is neither forbidden nor `_` survives, in order. */
  lemma {:induction false} SanitizeKeeps(s: string)
    ensures Kept(Sanitize(s)) == Kept(s)
    decreases |s|
  {
    if s != [] {
      if Forbidden(s[0]) {
        var w := SkipRun(s);
        SanitizeKeeps(w);
        KeptSkipRun(s);
        assert ("_" + Sanitize(w))[1..] == Sanitize(w);
      } else {
        SanitizeKeeps(s[1..]);
        assert ([s[0]] + Sanitize(s[1..]))[1..] == Sanitize(s[1..]);
      }
    }
  }
}
