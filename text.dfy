/** The Python string operations the judge's output normalisers are built
    from: `str.strip()`, `str.rstrip(c)` and `str.replace('\r\n', '\n')`. */
module Text {

  /** The characters Python's `str.isspace` accepts, which is the set the
      argument-less `str.strip()` removes. */
  predicate IsSpace(c: char)
    ensures c == ' ' || c == '\t' || c == '\n' || c == '\r' ==> IsSpace(c)
    ensures '0' <= c <= '9' || 'a' <= c <= 'z' || 'A' <= c <= 'Z' ==> !IsSpace(c)
  {
    || c == ' '
    || ('\t' <= c <= '\r')              // \t \n \v \f \r
    || ('\U{1C}' <= c <= '\U{1F}')      // file, group, record and unit separators
    || c == '\U{85}' || c == '\U{A0}' || c == '\U{1680}'
    || ('\U{2000}' <= c <= '\U{200A}')
    || c == '\U{2028}' || c == '\U{2029}' || c == '\U{202F}' || c == '\U{205F}'
    || c == '\U{3000}'
  }

  /** `s.lstrip()`: drops the longest all-whitespace prefix. */
  function LStrip(s: string): (r: string)
    ensures |r| <= |s| && r == s[|s| - |r|..]
    ensures r == [] || !IsSpace(r[0])
  {
    if s != [] && IsSpace(s[0]) then LStrip(s[1..]) else s
  }

  /** What LStrip drops is whitespace only. */
  lemma {:induction false} LStripDropsOnlySpace(s: string)
    ensures forall k :: 0 <= k < |s| - |LStrip(s)| ==> IsSpace(s[k])
  {
    if s != [] && IsSpace(s[0]) {
      var rest := s[1..];
      LStripDropsOnlySpace(rest);
      assert LStrip(s) == LStrip(rest);
      forall k | 1 <= k < |s| - |LStrip(s)|
        ensures IsSpace(s[k])
      {
        assert s[k] == rest[k - 1];
      }
    }
  }

  /** `s.rstrip()`: drops the longest all-whitespace suffix. */
  function RStrip(s: string): (r: string)
    ensures |r| <= |s| && r == s[..|r|]
    ensures r == [] || !IsSpace(r[|r| - 1])
  {
    if s != [] && IsSpace(s[|s| - 1]) then RStrip(s[..|s| - 1]) else s
  }

  /** What RStrip drops is whitespace only. */
  lemma {:induction false} RStripDropsOnlySpace(s: string)
    ensures forall k :: |RStrip(s)| <= k < |s| ==> IsSpace(s[k])
  {
    if s != [] && IsSpace(s[|s| - 1]) {
      RStripDropsOnlySpace(s[..|s| - 1]);
    }
  }

  /** `s.strip()`: the result is a piece of `s` with whitespace at neither end. */
  function Strip(s: string): (r: string)
    ensures |r| <= |s|
    ensures r == [] || (!IsSpace(r[0]) && !IsSpace(r[|r| - 1]))
    ensures forall c :: c in r ==> c in s
  {
    var t := RStrip(s);
    var r := LStrip(t);
    assert forall c :: c in r ==> c in t;
    r
  }

  /** `s.rstrip(c)` for a one-character argument: drops every trailing `c`. */
  function RStripChar(s: string, c: char): (r: string)
    ensures |r| <= |s| && r == s[..|r|]
    ensures r == [] || r[|r| - 1] != c
    ensures forall k :: |r| <= k < |s| ==> s[k] == c
  {
    if s != [] && s[|s| - 1] == c then RStripChar(s[..|s| - 1], c) else s
  }

  /** `s.replace('\r\n', '\n')`: Python scans left to right and replaces
      non-overlapping occurrences, so "\r\r\n" becomes "\r\n". */
  function ReplaceCrLf(s: string): (r: string)
    ensures |r| <= |s|
  {
    if |s| >= 2 && s[0] == '\r' && s[1] == '\n' then "\n" + ReplaceCrLf(s[2..])
    else if s == [] then []
    else [s[0]] + ReplaceCrLf(s[1..])
  }

  /** Writes every line feed of `t` as a carriage return and a line feed:
      the text a program prints on a platform with CRLF line endings. */
  function WithCrLf(t: string): (r: string)
    ensures |r| >= |t|
  {
    if t == [] then []
    else (if t[0] == '\n' then "\r\n" else [t[0]]) + WithCrLf(t[1..])
  }

  /** Replacing CRLF leaves text without carriage returns as it is. */
  lemma {:induction false} ReplaceCrLfWithoutCr(s: string)
    requires '\r' !in s
    ensures ReplaceCrLf(s) == s
  {
    if s != [] {
      assert s[0] != '\r';
      ReplaceCrLfWithoutCr(s[1..]);
    }
  }

  /** Replacing CRLF undoes WithCrLf on text without carriage returns. */
  lemma {:induction false} ReplaceCrLfUndoesWithCrLf(t: string)
    requires '\r' !in t
    ensures ReplaceCrLf(WithCrLf(t)) == t
  {
    if t != [] {
      var rest := WithCrLf(t[1..]);
      ReplaceCrLfUndoesWithCrLf(t[1..]);
      if t[0] == '\n' {
        assert WithCrLf(t) == "\r\n" + rest;
        assert ("\r\n" + rest)[2..] == rest;
      } else {
        assert t[0] != '\r';
        assert WithCrLf(t) == [t[0]] + rest;
        assert ([t[0]] + rest)[1..] == rest;
      }
    }
  }

  lemma {:induction false} WithCrLfAppend(a: string, b: string)
    ensures WithCrLf(a + b) == WithCrLf(a) + WithCrLf(b)
  {
    if a == [] {
      assert a + b == b;
    } else {
      assert (a + b)[0] == a[0];
      assert (a + b)[1..] == a[1..] + b;
      WithCrLfAppend(a[1..], b);
    }
  }

  /** Whitespace at the front of a text is dropped by LStrip. */
  lemma LStripSpaceHead(c: char, rest: string)
    requires IsSpace(c)
    ensures LStrip([c] + rest) == LStrip(rest)
  {
    assert ([c] + rest)[1..] == rest;
  }

  /** The CRLF form of a text is the CRLF form of its first character
      followed by that of the rest. */
  lemma WithCrLfCons(c: char, rest: string)
    ensures WithCrLf([c] + rest) == WithCrLf([c]) + WithCrLf(rest)
  {
    WithCrLfAppend([c], rest);
  }

  lemma {:induction false} LStripWithCrLf(t: string)
    ensures LStrip(WithCrLf(t)) == WithCrLf(LStrip(t))
  {
    if t != [] {
      var c, tail := t[0], t[1..];
      assert t == [c] + tail;
      WithCrLfCons(c, tail);
      WithCrLfSingle(c);
      var rest := WithCrLf(tail);
      if c == '\n' {
        assert WithCrLf(t) == ['\r'] + (['\n'] + rest);
        LStripSpaceHead('\r', ['\n'] + rest);
        LStripSpaceHead('\n', rest);
        LStripSpaceHead(c, tail);
        LStripWithCrLf(tail);
      } else if IsSpace(c) {
        assert WithCrLf(t) == [c] + rest;
        LStripSpaceHead(c, rest);
        LStripSpaceHead(c, tail);
        LStripWithCrLf(tail);
      } else {
        assert WithCrLf(t) == [c] + rest;
        LStripKeepsHead(c, rest);
        LStripKeepsHead(c, tail);
      }
    }
  }

  /** A text starting with a non-space character is its own LStrip. */
  lemma LStripKeepsHead(c: char, rest: string)
    requires !IsSpace(c)
    ensures LStrip([c] + rest) == [c] + rest
  {
  }

  /** Whitespace at the end of a text is dropped by RStrip. */
  lemma RStripSpaceTail(init: string, c: char)
    requires IsSpace(c)
    ensures RStrip(init + [c]) == RStrip(init)
  {
    assert (init + [c])[..|init|] == init;
  }

  /** A text ending in a non-space character is its own RStrip. */
  lemma RStripKeepsTail(init: string, c: char)
    requires !IsSpace(c)
    ensures RStrip(init + [c]) == init + [c]
  {
  }

  /** The CRLF form of a one-character text. */
  lemma WithCrLfSingle(c: char)
    ensures WithCrLf([c]) == if c == '\n' then "\r\n" else [c]
  {
    assert [c][1..] == [];
  }

  lemma {:induction false} RStripWithCrLf(t: string)
    ensures RStrip(WithCrLf(t)) == WithCrLf(RStrip(t))
    decreases |t|
  {
    if t != [] {
      var init, last := t[..|t| - 1], t[|t| - 1];
      assert t == init + [last];
      WithCrLfAppend(init, [last]);
      WithCrLfSingle(last);
      var head := WithCrLf(init);
      if last == '\n' {
        assert WithCrLf(t) == (head + ['\r']) + ['\n'];
        RStripSpaceTail(head + ['\r'], '\n');
        RStripSpaceTail(head, '\r');
        RStripSpaceTail(init, last);
        RStripWithCrLf(init);
      } else if IsSpace(last) {
        assert WithCrLf(t) == head + [last];
        RStripSpaceTail(head, last);
        RStripSpaceTail(init, last);
        RStripWithCrLf(init);
      } else {
        assert WithCrLf(t) == head + [last];
        RStripKeepsTail(head, last);
        RStripKeepsTail(init, last);
      }
    }
  }

  /** Stripping commutes with writing line feeds as CRLF. */
  lemma StripWithCrLf(t: string)
    ensures Strip(WithCrLf(t)) == WithCrLf(Strip(t))
  {
    RStripWithCrLf(t);
    LStripWithCrLf(RStrip(t));
  }

  /** A text that starts and ends with a non-space character is its own strip. */
  lemma StripFixesTrimmed(s: string)
    requires s != [] && !IsSpace(s[0]) && !IsSpace(s[|s| - 1])
    ensures Strip(s) == s
  {
  }

  /** Stripping twice is stripping once. */
  lemma StripIdempotent(s: string)
    ensures Strip(Strip(s)) == Strip(s)
  {
    var r := Strip(s);
    assert RStrip(r) == r;
  }
}
