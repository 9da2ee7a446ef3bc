/**
 * `getAllParameters`: recover a function's parameter names from its source
 * text. The pattern `\(([^)]*)\)` selects the text between the first `(` and
 * the next `)`; that text is split on `,` and every piece is trimmed.
 */
module Params {
  import opened Values

  /** The characters String.prototype.trim removes: white space and line terminators. */
  predicate IsSpace(c: char)
    ensures IsSpace(c) ==> c != ',' && c != '(' && c != ')'
  {
    || c == ' ' || c == '\t' || c == '\n' || c == '\r'
    || c == '\U{000B}' || c == '\U{000C}'
    || c == '\U{00A0}' || c == '\U{1680}'
    || ('\U{2000}' <= c <= '\U{200A}')
    || c == '\U{2028}' || c == '\U{2029}'
    || c == '\U{202F}' || c == '\U{205F}' || c == '\U{3000}' || c == '\U{FEFF}'
  }

  /** Among ASCII characters, exactly the six C0 white-space characters are trimmed. */
  lemma AsciiSpaces(c: char)
    requires c < '\U{0080}'
    ensures IsSpace(c) <==> c in {' ', '\t', '\n', '\r', '\U{000B}', '\U{000C}'}
  {
  }

  /** Neither the first nor the last character is white space. */
  predicate NoEdgeSpace(s: string) {
    s == [] || (!IsSpace(s[0]) && !IsSpace(s[|s| - 1]))
  }

  /** The first position at or after `from` that holds `c`. */
  function IndexOf(s: string, c: char, from: nat): (r: Option<nat>)
    requires from <= |s|
    decreases |s| - from
    ensures r.Some? ==> from <= r.value < |s| && s[r.value] == c
    ensures r.Some? ==> forall j :: from <= j < r.value ==> s[j] != c
    ensures r.None? ==> forall j :: from <= j < |s| ==> s[j] != c
  {
    if from == |s| then None
    else if s[from] == c then Some(from)
    else IndexOf(s, c, from + 1)
  }

  /**
   * Group 1 of the leftmost match of `\(([^)]*)\)`. A match exists exactly when
   * some `(` is followed, later on, by a `)`; the group then runs from the first
   * `(` to the first `)` after it, and may itself contain `(`.
   */
  function ParamGroup(src: string): (g: Option<string>)
    ensures g.Some? <==> exists p, q :: 0 <= p < q < |src| && src[p] == '(' && src[q] == ')'
    ensures g.Some? ==>
      exists p :: 0 <= p && p + |g.value| + 1 < |src| && src[p] == '('
        && (forall j :: 0 <= j < p ==> src[j] != '(')
        && src[p + 1..p + 1 + |g.value|] == g.value
        && src[p + 1 + |g.value|] == ')'
    ensures g.Some? ==> ')' !in g.value
  {
    match IndexOf(src, '(', 0)
    case None => None
    case Some(p) =>
      match IndexOf(src, ')', p + 1)
      case None =>
        assert forall p', q' :: 0 <= p' < q' < |src| && src[p'] == '(' ==> src[q'] != ')' by {
          forall p', q' | 0 <= p' < q' < |src| && src[p'] == '(' ensures src[q'] != ')' {
            assert p <= p';
          }
        }
        None
      case Some(q) =>
        var g := src[p + 1..q];
        assert src[p + 1..p + 1 + |g|] == g;
        assert forall k :: 0 <= k < |g| ==> g[k] == src[p + 1 + k];
        Some(g)
  }

  /** String.prototype.split with a one-character separator. */
  function Split(s: string, sep: char): (parts: seq<string>)
    decreases |s|
    ensures |parts| == multiset(s)[sep] + 1
    ensures forall k :: 0 <= k < |parts| ==> sep !in parts[k]
  {
    match IndexOf(s, sep, 0)
    case None =>
      assert sep !in s;
      [s]
    case Some(i) =>
      assert s == s[..i] + [sep] + s[i + 1..];
      assert sep !in s[..i];
      [s[..i]] + Split(s[i + 1..], sep)
  }

  /** Array.prototype.join, the inverse of Split. */
  function Join(parts: seq<string>, sep: char): (s: string)
    requires |parts| > 0
  {
    if |parts| == 1 then parts[0] else parts[0] + [sep] + Join(parts[1..], sep)
  }

  lemma {:induction false} SplitThenJoin(s: string, sep: char)
    ensures Join(Split(s, sep), sep) == s
    decreases |s|
  {
    match IndexOf(s, sep, 0)
    case None =>
    case Some(i) =>
      SplitThenJoin(s[i + 1..], sep);
      assert s == s[..i] + [sep] + s[i + 1..];
  }

  lemma {:induction false} JoinThenSplit(parts: seq<string>, sep: char)
    requires |parts| > 0
    requires forall k :: 0 <= k < |parts| ==> sep !in parts[k]
    ensures Split(Join(parts, sep), sep) == parts
  {
    var s := Join(parts, sep);
    if |parts| == 1 {
      assert IndexOf(s, sep, 0).None?;
    } else {
      var rest := Join(parts[1..], sep);
      assert s == parts[0] + [sep] + rest;
      assert s[|parts[0]|] == sep;
      assert IndexOf(s, sep, 0) == Some(|parts[0]|);
      assert s[..|parts[0]|] == parts[0];
      assert s[|parts[0]| + 1..] == rest;
      JoinThenSplit(parts[1..], sep);
    }
  }

  function TrimStart(s: string): (r: string)
    ensures |r| <= |s| && r == s[|s| - |r|..]
    ensures forall k :: 0 <= k < |s| - |r| ==> IsSpace(s[k])
    ensures r != [] ==> !IsSpace(r[0])
  {
    if s != [] && IsSpace(s[0]) then TrimStart(s[1..]) else s
  }

  function TrimEnd(s: string): (r: string)
    ensures |r| <= |s| && r == s[..|r|]
    ensures forall k :: |r| <= k < |s| ==> IsSpace(s[k])
    ensures r != [] ==> !IsSpace(r[|r| - 1])
  {
    if s != [] && IsSpace(s[|s| - 1]) then TrimEnd(s[..|s| - 1]) else s
  }

  /** Every character of `w` is white space. */
  predicate AllSpace(w: string) {
    forall k :: 0 <= k < |w| ==> IsSpace(w[k])
  }

  /** `r` is `s` from position `i` on, with only white space around it. */
  predicate InfixBetweenSpaces(s: string, i: nat, r: string) {
    && i + |r| <= |s| && r == s[i..i + |r|]
    && AllSpace(s[..i]) && AllSpace(s[i + |r|..])
  }

  /** Cutting white space off the front and then off the back leaves an infix between white space. */
  lemma InfixAfterCuts(s: string, t: string, r: string)
    requires |t| <= |s| && t == s[|s| - |t|..]
    requires forall k :: 0 <= k < |s| - |t| ==> IsSpace(s[k])
    requires |r| <= |t| && r == t[..|r|]
    requires forall k :: |r| <= k < |t| ==> IsSpace(t[k])
    ensures InfixBetweenSpaces(s, |s| - |t|, r)
  {
    var i := |s| - |t|;
    assert r == s[i..i + |r|];
    assert AllSpace(s[..i]) by {
      forall k | 0 <= k < i ensures IsSpace(s[..i][k]) {
        assert s[..i][k] == s[k];
      }
    }
    var post := s[i + |r|..];
    assert AllSpace(post) by {
      forall k | 0 <= k < |post| ensures IsSpace(post[k]) {
        assert post[k] == t[|r| + k];
      }
    }
  }

  lemma TrimmedIsInfix(s: string)
    ensures InfixBetweenSpaces(s, |s| - |TrimStart(s)|, TrimEnd(TrimStart(s)))
  {
    InfixAfterCuts(s, TrimStart(s), TrimEnd(TrimStart(s)));
  }

  /**
   * String.prototype.trim: the infix of `s` left once the white space at both
   * ends is removed.
   */
  function Trim(s: string): (r: string)
    ensures NoEdgeSpace(r)
    ensures exists i: nat :: InfixBetweenSpaces(s, i, r)
  {
    var t := TrimStart(s);
    TrimmedIsInfix(s);
    assert TrimEnd(t) != [] ==> TrimEnd(t)[0] == t[0];
    TrimEnd(t)
  }

  lemma TrimIdempotent(s: string)
    ensures Trim(Trim(s)) == Trim(s)
  {
    var r := Trim(s);
    assert TrimStart(r) == r;
    assert TrimEnd(r) == r;
  }

  function TrimAll(parts: seq<string>): (r: seq<string>)
    ensures |r| == |parts|
    ensures forall k :: 0 <= k < |r| ==> r[k] == Trim(parts[k])
  {
    seq(|parts|, k requires 0 <= k < |parts| => Trim(parts[k]))
  }

  /**
   * The parameter list of a function whose source text is `src`: one trimmed
   * piece per comma-separated entry of the parenthesised group, so an empty
   * group `()` still yields one (empty) piece. Without a match, reading group 1
   * of `null` throws.
   */
  function GetAllParameters(src: string): (r: Result<seq<string>>)
    ensures r.Err? <==> ParamGroup(src).None?
    ensures r.Err? ==> r.error == NoParameterList
    ensures r.Ok? ==> |r.value| == multiset(ParamGroup(src).value)[','] + 1
    ensures r.Ok? ==> forall k :: 0 <= k < |r.value| ==>
      && r.value[k] == Trim(Split(ParamGroup(src).value, ',')[k])
      && NoEdgeSpace(r.value[k])
  {
    match ParamGroup(src)
    case None => Err(NoParameterList)
    case Some(g) => Ok(TrimAll(Split(g, ',')))
  }

  /** A function without parameters still counts one (empty) parameter name. */
  lemma EmptyGroupExample()
    ensures GetAllParameters("() => 3") == Ok([""])
  {
    EmptyGroup();
    assert Split([], ',') == [[]];
    TrimNothing();
  }

  lemma EmptyGroup()
    ensures ParamGroup("() => 3") == Some([])
  {
    var src := "() => 3";
    assert IndexOf(src, '(', 0) == Some(0);
    assert IndexOf(src, ')', 1) == Some(1);
  }

  lemma TrimNothing()
    ensures TrimAll([[]]) == [[]]
  {
    assert Trim([]) == [];
  }

  /** The arrow function `(x, y) => x - y` has the parameters `x` and `y`. */
  lemma TwoParametersExample()
    ensures GetAllParameters("(x, y) => x - y") == Ok(["x", "y"])
  {
    var src := "(x, y) => x - y";
    assert IndexOf(src, '(', 0) == Some(0);
    assert IndexOf(src, ')', 1) == Some(5);
    assert src[1..5] == "x, y";
    assert ParamGroup(src) == Some("x, y");
    SplitTwoNames();
    TrimSingleLetter();
    TrimLeadingSpace();
    TrimPair("x", " y", "x", "y");
  }

  lemma SplitTwoNames()
    ensures Split("x, y", ',') == ["x", " y"]
  {
    assert IndexOf("x, y", ',', 0) == Some(1);
    assert IndexOf(" y", ',', 0).None?;
    assert Split(" y", ',') == [" y"];
    assert "x, y"[..1] == "x" && "x, y"[2..] == " y";
  }

  /** Trimming a two-piece list trims each piece. */
  lemma TrimPair(a: string, b: string, a': string, b': string)
    requires Trim(a) == a' && Trim(b) == b'
    ensures TrimAll([a, b]) == [a', b']
  {
  }

  lemma TrimLeadingSpace()
    ensures Trim(" y") == "y"
  {
    assert IsSpace(' ') && !IsSpace('y');
    assert " y"[1..] == "y";
    assert TrimStart("y") == "y";
    assert TrimStart(" y") == "y";
    assert TrimEnd("y") == "y";
  }

  lemma TrimSingleLetter()
    ensures Trim("x") == "x"
  {
    assert !IsSpace('x');
    assert TrimStart("x") == "x";
    assert TrimEnd("x") == "x";
  }
}
