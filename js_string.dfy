/**
 * The two string operations the request gates rely on: validator.js's
 * `trim` (the `trim: true` sanitizer) and JavaScript's `split(' ')`.
 */
module JsString {

  /** The characters JavaScript's `\s` class matches. */
  predicate IsWhitespace(c: char) {
    c in {' ', '\t', '\n', '\U{000B}', '\U{000C}', '\r', '\U{00A0}', '\U{1680}', '\U{2028}',
          '\U{2029}', '\U{202F}', '\U{205F}', '\U{3000}', '\U{FEFF}'}
    || '\U{2000}' <= c <= '\U{200A}'
  }

  /** `s` with its leading whitespace removed. */
  function TrimStart(s: string): (r: string)
    ensures |r| <= |s| && r == s[|s| - |r|..]
    ensures forall i :: 0 <= i < |s| - |r| ==> IsWhitespace(s[i])
    ensures r != [] ==> !IsWhitespace(r[0])
  {
    if |s| > 0 && IsWhitespace(s[0]) then TrimStart(s[1..]) else s
  }

  /** `s` with its trailing whitespace removed. */
  function TrimEnd(s: string): (r: string)
    ensures |r| <= |s| && r == s[..|r|]
    ensures forall i :: |r| <= i < |s| ==> IsWhitespace(s[i])
    ensures r != [] ==> !IsWhitespace(r[|r| - 1])
  {
    if |s| > 0 && IsWhitespace(s[|s| - 1]) then TrimEnd(s[..|s| - 1]) else s
  }

  /** validator.js `trim(str)`: both ends stripped of whitespace. */
  function Trim(s: string): (r: string)
    ensures |r| <= |s|
    ensures r != [] ==> !IsWhitespace(r[0]) && !IsWhitespace(r[|r| - 1])
  {
    TrimEnd(TrimStart(s))
  }

  /** `s[..i]` and `s[j..]` are whitespace only. */
  predicate WhitespaceOutside(s: string, i: nat, j: nat)
    requires i <= j <= |s|
  {
    (forall k :: 0 <= k < i ==> IsWhitespace(s[k])) && (forall k :: j <= k < |s| ==> IsWhitespace(s[k]))
  }

  /**
   * Trimming keeps the text between the ends: the result is the slice of `s`
   * between a run of leading and a run of trailing whitespace.
   */
  lemma TrimIsSlice(s: string)
    ensures exists i: nat, j: nat :: i <= j <= |s| && WhitespaceOutside(s, i, j) && Trim(s) == s[i..j]
  {
    var t := TrimStart(s);
    var r := TrimEnd(t);
    var i := |s| - |t|;
    var j := i + |r|;
    assert t == s[i..];
    assert r == t[..|r|];
    forall k | j <= k < |s|
      ensures IsWhitespace(s[k])
    {
      assert s[k] == t[k - i];
    }
    assert WhitespaceOutside(s, i, j) && Trim(s) == s[i..j];
  }

  /** A string that neither starts nor ends with whitespace is its own trim. */
  lemma {:induction false} TrimmedIsFixed(s: string)
    requires s != [] ==> !IsWhitespace(s[0]) && !IsWhitespace(s[|s| - 1])
    ensures Trim(s) == s
  {
    assert TrimStart(s) == s;
    assert TrimEnd(s) == s;
  }

  /** Trimming twice is trimming once. */
  lemma TrimIdempotent(s: string)
    ensures Trim(Trim(s)) == Trim(s)
  {
    TrimmedIsFixed(Trim(s));
  }

  /** JavaScript `s.split(' ')`: the pieces between single spaces, never empty. */
  function SplitOnSpace(s: string): (parts: seq<string>)
    ensures |parts| >= 1
  {
    if |s| == 0 then [""]
    else
      var rest := SplitOnSpace(s[1..]);
      if s[0] == ' ' then [""] + rest else [[s[0]] + rest[0]] + rest[1..]
  }

  /** Joins pieces with single spaces (JavaScript `parts.join(' ')`). */
  function JoinOnSpace(parts: seq<string>): string
    requires |parts| >= 1
  {
    if |parts| == 1 then parts[0] else parts[0] + " " + JoinOnSpace(parts[1..])
  }

  /** Splitting then joining gives the string back, and no piece holds a space. */
  lemma {:induction false} SplitJoinRoundTrip(s: string)
    ensures JoinOnSpace(SplitOnSpace(s)) == s
    ensures forall k :: 0 <= k < |SplitOnSpace(s)| ==> ' ' !in SplitOnSpace(s)[k]
  {
    if |s| > 0 {
      var rest := SplitOnSpace(s[1..]);
      SplitJoinRoundTrip(s[1..]);
      if s[0] == ' ' {
        assert SplitOnSpace(s) == [""] + rest;
        assert JoinOnSpace([""] + rest) == "" + " " + JoinOnSpace(rest);
        assert s == [s[0]] + s[1..];
      } else {
        var parts := [[s[0]] + rest[0]] + rest[1..];
        assert SplitOnSpace(s) == parts;
        if |rest| == 1 {
          assert JoinOnSpace(parts) == [s[0]] + rest[0];
        } else {
          assert JoinOnSpace(rest) == rest[0] + " " + JoinOnSpace(rest[1..]);
          assert parts[1..] == rest[1..];
          assert JoinOnSpace(parts) == [s[0]] + rest[0] + " " + JoinOnSpace(rest[1..]);
        }
        assert s == [s[0]] + s[1..];
        forall k | 0 <= k < |parts| ensures ' ' !in parts[k] {
          if k == 0 {
            assert ' ' !in rest[0];
          } else {
            assert parts[k] == rest[k];
          }
        }
      }
    }
  }

  /** A string without spaces splits into itself alone. */
  lemma {:induction false} SplitWithoutSpace(w: string)
    requires ' ' !in w
    ensures SplitOnSpace(w) == [w]
  {
    if |w| > 0 {
      SplitWithoutSpace(w[1..]);
      assert [w[0]] + w[1..] == w;
    }
  }

  /** A leading space-free word followed by a space splits off as the first piece. */
  lemma {:induction false} SplitAfterWord(w: string, rest: string)
    requires ' ' !in w
    ensures SplitOnSpace(w + " " + rest) == [w] + SplitOnSpace(rest)
  {
    if |w| == 0 {
      assert w + " " + rest == [' '] + rest;
      assert (w + " " + rest)[1..] == rest;
    } else {
      SplitAfterWord(w[1..], rest);
      assert (w + " " + rest)[1..] == w[1..] + " " + rest;
      assert [w[0]] + w[1..] == w;
    }
  }

  /**
   * The second piece of `w + " " + t + rest` is `t`, whatever the first word
   * `w` is, when `t` holds no space and `rest` is empty or starts with one.
   */
  lemma SecondPiece(w: string, t: string, rest: string)
    requires ' ' !in w && ' ' !in t
    requires rest == [] || rest[0] == ' '
    ensures |SplitOnSpace(w + " " + t + rest)| >= 2
    ensures SplitOnSpace(w + " " + t + rest)[1] == t
  {
    assert w + " " + t + rest == w + " " + (t + rest);
    SplitAfterWord(w, t + rest);
    if rest == [] {
      assert t + rest == t;
      SplitWithoutSpace(t);
    } else {
      assert t + rest == t + " " + rest[1..];
      SplitAfterWord(t, rest[1..]);
    }
  }

  /** `split(' ')` yields a second piece exactly when the string holds a space. */
  lemma {:induction false} SecondPieceIffSpace(s: string)
    ensures |SplitOnSpace(s)| >= 2 <==> ' ' in s
  {
    if ' ' !in s {
      SplitWithoutSpace(s);
    } else if |s| > 0 && s[0] != ' ' {
      SecondPieceIffSpace(s[1..]);
    }
  }
}
