/** The few JavaScript string built-ins the wizard relies on: `trim`,
    `split` on one character, `join`, and `||` between strings. */
module JsStrings {

  /** ECMAScript WhiteSpace and LineTerminator code points, the characters
      `String.prototype.trim` removes. */
  predicate IsWhitespace(c: char) {
    || c == '\t' || c == '\n' || c == '\U{000B}' || c == '\U{000C}' || c == '\r'
    || c == ' ' || c == '\U{00A0}' || c == '\U{1680}'
    || ('\U{2000}' <= c <= '\U{200A}')
    || c == '\U{2028}' || c == '\U{2029}' || c == '\U{202F}' || c == '\U{205F}'
    || c == '\U{3000}' || c == '\U{FEFF}'
  }

  predicate AllWhitespace(s: string) {
    forall k :: 0 <= k < |s| ==> IsWhitespace(s[k])
  }

  /** `s.trimStart()`: the suffix of `s` left after its leading whitespace. */
  function TrimStart(s: string): (r: string)
    ensures |r| <= |s| && r == s[|s| - |r|..]
    ensures AllWhitespace(s[..|s| - |r|])
    ensures r == [] || !IsWhitespace(r[0])
  {
    if |s| > 0 && IsWhitespace(s[0]) then TrimStart(s[1..]) else s
  }

  /** `s.trimEnd()`: the prefix of `s` left before its trailing whitespace. */
  function TrimEnd(s: string): (r: string)
    ensures |r| <= |s| && r == s[..|r|]
    ensures AllWhitespace(s[|r|..])
    ensures r == [] || !IsWhitespace(r[|r| - 1])
  {
    if |s| > 0 && IsWhitespace(s[|s| - 1]) then
      var r := TrimEnd(s[..|s| - 1]);
      assert s[|r|..] == s[..|s| - 1][|r|..] + [s[|s| - 1]];
      r
    else s
  }

  /** `s.trim()`: a contiguous slice of `s` that neither starts nor ends
      with whitespace and is empty exactly when `s` is all whitespace. */
  function Trim(s: string): (r: string)
    ensures |TrimStart(s)| >= |r| && r == s[|s| - |TrimStart(s)|..][..|r|]
    ensures r == [] || (!IsWhitespace(r[0]) && !IsWhitespace(r[|r| - 1]))
    ensures r == [] <==> AllWhitespace(s)
    ensures AllWhitespace(s[..|s| - |TrimStart(s)|]) && AllWhitespace(TrimStart(s)[|r|..])
  {
    var t := TrimStart(s);
    var r := TrimEnd(t);
    assert r == [] ==> AllWhitespace(s) by {
      if r == [] {
        assert s == s[..|s| - |t|] + t[|r|..];
      }
    }
    r
  }

  /** Trimming ignores one more trailing line feed. */
  lemma {:induction false} TrimIgnoresTrailingNewline(s: string)
    ensures Trim(s + "\n") == Trim(s)
  {
    TrimStartAppendNewline(s);
    var t := TrimStart(s);
    if AllWhitespace(s) {
      assert TrimStart(s + "\n") == [];
      assert Trim(s) == [];
    } else {
      assert t != [];
      assert TrimStart(s + "\n") == t + "\n";
      assert (t + "\n")[..|t + "\n"| - 1] == t;
    }
  }

  lemma {:induction false} TrimStartAppendNewline(s: string)
    ensures AllWhitespace(s) ==> TrimStart(s + "\n") == []
    ensures !AllWhitespace(s) ==> TrimStart(s + "\n") == TrimStart(s) + "\n"
  {
    if |s| > 0 {
      assert (s + "\n")[1..] == s[1..] + "\n";
      TrimStartAppendNewline(s[1..]);
      if IsWhitespace(s[0]) {
        assert AllWhitespace(s) <==> AllWhitespace(s[1..]);
      }
    } else {
      assert TrimStart("\n") == TrimStart("");
    }
  }

  /** A string that neither starts nor ends with whitespace trims to itself. */
  lemma TrimOfTrimmed(s: string)
    requires s == [] || (!IsWhitespace(s[0]) && !IsWhitespace(s[|s| - 1]))
    ensures Trim(s) == s
  {
  }

  /** `parts.join(sep)`. */
  function Join(parts: seq<string>, sep: string): (r: string)
    ensures |parts| == 0 ==> r == ""
    ensures |parts| > 0 ==> |r| >= |parts[0]| && r[..|parts[0]|] == parts[0]
    ensures |parts| == 1 ==> r == parts[0]
  {
    if |parts| == 0 then ""
    else if |parts| == 1 then parts[0]
    else parts[0] + sep + Join(parts[1..], sep)
  }

  /** `s.split(sep)` for a one-character separator: the maximal pieces of `s`
      between separators, which join back to `s`. */
  function Split(s: string, sep: char): (r: seq<string>)
    ensures |r| >= 1
    ensures forall i :: 0 <= i < |r| ==> sep !in r[i]
    ensures Join(r, [sep]) == s
  {
    if |s| == 0 then [""]
    else
      var t := Split(s[1..], sep);
      if s[0] == sep then
        assert s == [] + [sep] + Join(t, [sep]);
        [""] + t
      else
        var r := [[s[0]] + t[0]] + t[1..];
        assert Join(r, [sep]) == s by {
          if |t| == 1 {
            assert s == [s[0]] + s[1..];
          } else {
            assert r[1..] == t[1..];
            calc {
              Join(r, [sep]);
              ([s[0]] + t[0]) + [sep] + Join(t[1..], [sep]);
              [s[0]] + (t[0] + [sep] + Join(t[1..], [sep]));
              [s[0]] + Join(t, [sep]);
            }
          }
        }
        r
  }

  /** Splitting undoes joining when no piece holds the separator. */
  lemma {:induction false} SplitJoin(parts: seq<string>, sep: char)
    requires |parts| >= 1
    requires forall i :: 0 <= i < |parts| ==> sep !in parts[i]
    ensures Split(Join(parts, [sep]), sep) == parts
  {
    SplitWithoutSeparator(parts[0], sep);
    if |parts| > 1 {
      SplitJoin(parts[1..], sep);
      SplitAfterPiece(parts[0], Join(parts[1..], [sep]), sep);
    }
  }

  lemma {:induction false} SplitWithoutSeparator(s: string, sep: char)
    requires sep !in s
    ensures Split(s, sep) == [s]
  {
    if |s| > 0 {
      SplitWithoutSeparator(s[1..], sep);
      assert [s[0]] + s[1..] == s;
    }
  }

  lemma {:induction false} SplitAfterPiece(a: string, rest: string, sep: char)
    requires sep !in a
    ensures Split(a + [sep] + rest, sep) == [a] + Split(rest, sep)
  {
    if |a| == 0 {
      assert ([sep] + rest)[1..] == rest;
    } else {
      assert (a + [sep] + rest)[1..] == a[1..] + [sep] + rest;
      SplitAfterPiece(a[1..], rest, sep);
      assert [a[0]] + a[1..] == a;
    }
  }

  /** `s || fallback` between strings: the empty string is falsy. */
  function Or(s: string, fallback: string): (r: string)
    ensures s != "" ==> r == s
    ensures s == "" ==> r == fallback
  {
    if s != "" then s else fallback
  }
}
