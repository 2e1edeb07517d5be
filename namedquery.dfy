/**
 * The named parameters of a query as sqlx's named-query compiler finds them:
 * a `:` followed by a run of name characters is a parameter, `::` stands for
 * a literal colon. A named query runs only when every parameter it names has
 * an argument.
 */
module NamedQuery {

  predicate IsNameChar(c: char) {
    ('a' <= c <= 'z') || ('A' <= c <= 'Z') || ('0' <= c <= '9') || c == '_' || c == '.'
  }

  /** Length of the run of name characters `s` starts with. */
  function NameRun(s: string): (n: nat)
    ensures n <= |s|
    ensures forall i :: 0 <= i < n ==> IsNameChar(s[i])
    ensures n < |s| ==> !IsNameChar(s[n])
  {
    if |s| > 0 && IsNameChar(s[0]) then 1 + NameRun(s[1..]) else 0
  }

  /** The names of the parameters `s` refers to. */
  function Params(s: string): set<string>
    decreases |s|
  {
    if |s| == 0 then {}
    else if s[0] != ':' then Params(s[1..])
    else if |s| > 1 && s[1] == ':' then Params(s[2..])
    else
      var n := NameRun(s[1..]);
      (if n == 0 then {} else {s[1..1 + n]}) + Params(s[1 + n..])
  }

  /** A name that the compiler reads back whole after a colon. */
  ghost predicate IsName(key: string) {
    |key| > 0 && forall i :: 0 <= i < |key| ==> IsNameChar(key[i])
  }

  /** Text with no colon refers to no parameter. */
  lemma {:induction false} ParamsNoColon(s: string)
    requires ':' !in s
    ensures Params(s) == {}
  {
    if |s| > 0 {
      assert s[0] in s;
      ParamsNoColon(s[1..]);
    }
  }

  /** A run of name characters stops where the name characters do. */
  lemma {:induction false} NameRunConcat(a: string, b: string)
    requires b == [] || !IsNameChar(b[0])
    ensures NameRun(a + b) == NameRun(a)
  {
    if |a| > 0 {
      assert (a + b)[1..] == a[1..] + b;
      NameRunConcat(a[1..], b);
    } else {
      assert a + b == b;
    }
  }

  /**
   * Two pieces of query text name the union of what each names, provided no
   * parameter straddles the seam: the first does not end in a colon and the
   * second does not start with a name character.
   */
  lemma {:induction false} ParamsConcat(a: string, b: string)
    requires a == [] || a[|a| - 1] != ':'
    requires b == [] || !IsNameChar(b[0])
    ensures Params(a + b) == Params(a) + Params(b)
    decreases |a|
  {
    var ab := a + b;
    if a == [] {
      assert ab == b;
    } else if a[0] != ':' {
      assert ab[0] == a[0];
      assert ab[1..] == a[1..] + b;
      ParamsConcat(a[1..], b);
    } else if |a| > 1 && a[1] == ':' {
      assert ab[0] == ':' && ab[1] == ':';
      assert ab[2..] == a[2..] + b;
      ParamsConcat(a[2..], b);
    } else {
      ParamsAfterColon(a, b);
    }
  }

  /** One step of `Params` over text that starts with a parameter. */
  lemma ParamsColonStep(s: string)
    requires |s| > 1 && s[0] == ':' && s[1] != ':'
    ensures var n := NameRun(s[1..]);
      Params(s) == (if n == 0 then {} else {s[1..1 + n]}) + Params(s[1 + n..])
  {
  }

  /** After the colon, the parameter read from `a + b` is the one read from `a`, and the rest is `a`'s rest then `b`. */
  lemma ColonSeam(a: string, b: string) returns (n: nat)
    requires |a| > 1 && a[0] == ':'
    requires b == [] || !IsNameChar(b[0])
    ensures n == NameRun(a[1..]) == NameRun((a + b)[1..])
    ensures (a + b)[1..1 + n] == a[1..1 + n] && (a + b)[1 + n..] == a[1 + n..] + b
  {
    var ab := a + b;
    assert ab[1..] == a[1..] + b;
    NameRunConcat(a[1..], b);
    n := NameRun(a[1..]);
  }

  /** The case of `ParamsConcat` where `a` starts with a parameter. */
  lemma {:induction false} ParamsAfterColon(a: string, b: string)
    requires |a| > 0 && a[0] == ':' && !(|a| > 1 && a[1] == ':')
    requires a[|a| - 1] != ':'
    requires b == [] || !IsNameChar(b[0])
    ensures Params(a + b) == Params(a) + Params(b)
    decreases |a|, 0
  {
    var ab := a + b;
    assert |a| > 1 && ab[0] == ':' && ab[1] == a[1];
    var n := ColonSeam(a, b);
    ParamsColonStep(a);
    ParamsColonStep(ab);
    ParamsConcat(a[1 + n..], b);
  }

  /** `:key` names exactly `key`. */
  lemma ParamsOfPlaceholder(key: string)
    requires IsName(key)
    ensures Params(":" + key) == {key}
  {
    var s := ":" + key;
    assert s[0] == ':' && s[1] == key[0] && IsNameChar(key[0]);
    assert s[1..] == key;
    var n := NameRun(key);
    assert n == |key|;
    assert s[1..1 + n] == key;
    assert s[1 + n..] == [];
  }

  /** A condition with no colon followed by `:key` names exactly `key`. */
  lemma ParamsOfCondition(cond: string, key: string)
    requires ':' !in cond
    requires IsName(key)
    ensures Params(cond + ":" + key) == {key}
  {
    ParamsNoColon(cond);
    ParamsOfPlaceholder(key);
    assert cond != [] ==> cond[|cond| - 1] in cond;
    ParamsConcat(cond, ":" + key);
    assert cond + ":" + key == cond + (":" + key);
  }
}
