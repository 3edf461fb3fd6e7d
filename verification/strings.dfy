/** The parts of Go's `strings` package that the bridge relies on, over
    `string` = `seq<char>`: `HasPrefix`, `HasSuffix`, `Contains`,
    `Split(s, ":")` and `TrimSpace`. */
module Strings {

  /** The separator of the PLC command protocol. */
  const Colon: char := ':'

  predicate HasPrefix(s: string, prefix: string) {
    |prefix| <= |s| && s[..|prefix|] == prefix
  }

  predicate HasSuffix(s: string, suffix: string) {
    |suffix| <= |s| && s[|s| - |suffix|..] == suffix
  }

  /** `strings.Contains`: `sub` occurs at some position of `s`. */
  predicate Contains(s: string, sub: string)
    decreases |s|
  {
    HasPrefix(s, sub) || (|s| > 0 && Contains(s[1..], sub))
  }

  /** A string that contains `sub` contains `sub`'s first character. */
  lemma {:induction false} ContainsFirstChar(s: string, sub: string)
    requires Contains(s, sub) && sub != []
    ensures sub[0] in s
    decreases |s|
  {
    if HasPrefix(s, sub) {
      assert s[0] == sub[0];
    } else {
      ContainsFirstChar(s[1..], sub);
    }
  }

  // ---------------------------------------------------------------------
  // strings.Split(s, ":")
  // ---------------------------------------------------------------------

  /** `strings.Split(s, ":")`: the maximal colon-free fields of `s`, in order.
      Go returns one field more than there are separators, so the result is
      never empty; the empty string gives `[""]`. */
  function Split(s: string): (parts: seq<string>)
    ensures |parts| >= 1
    ensures forall p :: p in parts ==> Colon !in p
    decreases |s|
  {
    if s == [] then [""]
    else
      var rest := Split(s[1..]);
      if s[0] == Colon then [""] + rest
      else [[s[0]] + rest[0]] + rest[1..]
  }

  /** `strings.Join(parts, ":")`, the inverse of `Split`. */
  function Join(parts: seq<string>): (s: string)
    requires |parts| >= 1
    decreases |parts|
  {
    if |parts| == 1 then parts[0] else parts[0] + [Colon] + Join(parts[1..])
  }

  lemma {:induction false} JoinConsChar(c: char, p: string, ps: seq<string>)
    ensures Join([[c] + p] + ps) == [c] + Join([p] + ps)
  {
    if ps != [] {
      assert ([[c] + p] + ps)[1..] == ps;
      assert ([p] + ps)[1..] == ps;
    }
  }

  /** Joining the fields of `s` with ':' gives back `s`. */
  lemma {:induction false} SplitThenJoin(s: string)
    ensures Join(Split(s)) == s
    decreases |s|
  {
    if s != [] {
      var rest := Split(s[1..]);
      SplitThenJoin(s[1..]);
      if s[0] == Colon {
        assert ([""] + rest)[1..] == rest;
        assert s == [Colon] + s[1..];
      } else {
        JoinConsChar(s[0], rest[0], rest[1..]);
        assert [rest[0]] + rest[1..] == rest;
        assert s == [s[0]] + s[1..];
      }
    }
  }

  /** Splitting a colon-free prefix glued onto `t` extends `t`'s first field. */
  lemma {:induction false} SplitColonFreePrefix(p: string, t: string)
    requires Colon !in p
    ensures Split(p + t) == [p + Split(t)[0]] + Split(t)[1..]
    decreases |p|
  {
    if p != [] {
      SplitColonFreePrefix(p[1..], t);
      assert (p + t)[1..] == p[1..] + t;
      assert (p + t)[0] == p[0];
      assert [p[0]] + (p[1..] + Split(t)[0]) == p + Split(t)[0];
    } else {
      assert p + t == t;
      assert p + Split(t)[0] == Split(t)[0];
      assert [Split(t)[0]] + Split(t)[1..] == Split(t);
    }
  }

  /** `base + ":" + t` splits into `base` followed by the fields of `t`. */
  lemma SplitAfterColonFreePrefix(base: string, t: string)
    requires Colon !in base
    ensures Split(base + [Colon] + t) == [base] + Split(t)
  {
    SplitColonFreePrefix(base, [Colon] + t);
    assert base + [Colon] + t == base + ([Colon] + t);
    assert ([Colon] + t)[1..] == t;
    var st := Split(t);
    assert Split([Colon] + t) == [""] + st;
    assert base + "" == base;
  }

  /** Splitting the join of colon-free fields gives back the fields. */
  lemma {:induction false} JoinThenSplit(parts: seq<string>)
    requires |parts| >= 1
    requires forall p :: p in parts ==> Colon !in p
    ensures Split(Join(parts)) == parts
    decreases |parts|
  {
    if |parts| == 1 {
      SplitColonFreePrefix(parts[0], "");
      assert parts[0] + "" == parts[0];
    } else {
      assert parts[0] in parts;
      assert forall p :: p in parts[1..] ==> p in parts;
      JoinThenSplit(parts[1..]);
      SplitAfterColonFreePrefix(parts[0], Join(parts[1..]));
      assert [parts[0]] + parts[1..] == parts;
    }
  }

  /** `s` has at least two fields exactly when it contains a colon. */
  lemma {:induction false} TwoFieldsIffColon(s: string)
    ensures |Split(s)| >= 2 <==> Colon in s
    decreases |s|
  {
    if s != [] {
      TwoFieldsIffColon(s[1..]);
      assert Colon in s <==> s[0] == Colon || Colon in s[1..];
    }
  }

  // ---------------------------------------------------------------------
  // strings.TrimSpace
  // ---------------------------------------------------------------------

  /** Go's `unicode.IsSpace`: the Latin-1 spaces and the Unicode White_Space
      property. */
  predicate IsSpace(c: char) {
    c == '\t' || c == '\n' || c == '\U{000B}' || c == '\U{000C}' || c == '\r' || c == ' '
    || c == '\U{0085}' || c == '\U{00A0}' || c == '\U{1680}'
    || ('\U{2000}' <= c <= '\U{200A}')
    || c == '\U{2028}' || c == '\U{2029}' || c == '\U{202F}' || c == '\U{205F}'
    || c == '\U{3000}'
  }

  predicate AllSpace(s: string) {
    forall i :: 0 <= i < |s| ==> IsSpace(s[i])
  }

  /** Drops the leading white space. */
  function TrimLeft(s: string): (r: string)
    decreases |s|
  {
    if s != [] && IsSpace(s[0]) then TrimLeft(s[1..]) else s
  }

  /** Drops the trailing white space. */
  function TrimRight(s: string): (r: string)
    decreases |s|
  {
    if s != [] && IsSpace(s[|s| - 1]) then TrimRight(s[..|s| - 1]) else s
  }

  /** `strings.TrimSpace`: `s` without its leading and trailing white space. */
  function TrimSpace(s: string): (r: string) {
    TrimRight(TrimLeft(s))
  }

  lemma {:induction false} TrimLeftIsSuffix(s: string)
    ensures var r := TrimLeft(s);
      && |r| <= |s| && r == s[|s| - |r|..]
      && AllSpace(s[..|s| - |r|])
      && (r == [] || !IsSpace(r[0]))
    decreases |s|
  {
    if s != [] && IsSpace(s[0]) {
      var t := s[1..];
      TrimLeftIsSuffix(t);
      var r := TrimLeft(t);
      assert r == s[|s| - |r|..];
      assert s[..|s| - |r|] == [s[0]] + t[..|t| - |r|];
    }
  }

  lemma {:induction false} TrimRightIsPrefix(s: string)
    ensures var r := TrimRight(s);
      && |r| <= |s| && r == s[..|r|]
      && AllSpace(s[|r|..])
      && (r == [] || !IsSpace(r[|r| - 1]))
    decreases |s|
  {
    if s != [] && IsSpace(s[|s| - 1]) {
      var t := s[..|s| - 1];
      TrimRightIsPrefix(t);
      var r := TrimRight(t);
      assert r == s[..|r|];
      assert s[|r|..] == t[|r|..] + [s[|s| - 1]];
    }
  }

  /** What `TrimSpace` removes is white space at both ends and nothing else,
      and what it keeps neither starts nor ends with white space. */
  lemma TrimSpaceIsCore(s: string)
    ensures var r := TrimSpace(s);
      exists i, j :: 0 <= i <= j <= |s| && r == s[i..j]
        && AllSpace(s[..i]) && AllSpace(s[j..])
    ensures var r := TrimSpace(s);
      r == [] || (!IsSpace(r[0]) && !IsSpace(r[|r| - 1]))
  {
    var l := TrimLeft(s);
    var r := TrimRight(l);
    TrimLeftIsSuffix(s);
    TrimRightIsPrefix(l);
    var i := |s| - |l|;
    var j := i + |r|;
    assert r == s[i..j];
    assert s[j..] == l[|r|..];
  }

  /** A string that neither starts nor ends with white space is its own
      trimmed form. */
  lemma TrimSpaceKeepsTrimmed(s: string)
    requires s == [] || (!IsSpace(s[0]) && !IsSpace(s[|s| - 1]))
    ensures TrimSpace(s) == s
  {
    assert TrimLeft(s) == s;
  }

  /** Trimming is idempotent. */
  lemma TrimSpaceIdempotent(s: string)
    ensures TrimSpace(TrimSpace(s)) == TrimSpace(s)
  {
    var r := TrimSpace(s);
    TrimSpaceIsCore(s);
    TrimSpaceKeepsTrimmed(r);
  }
}
