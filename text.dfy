/** String helpers with Python's semantics: `split`, `strip`, `startswith`, `str(int)`. */
module Text {

  /** The first index of `c` in `s`. */
  function IndexOf(s: string, c: char): (i: nat)
    requires c in s
    ensures i < |s| && s[i] == c && c !in s[..i]
  {
    if s[0] == c then 0 else 1 + IndexOf(s[1..], c)
  }

  /** Python's `s.split(sep)` for a one-character separator: the pieces between
      separators, empty pieces included, so that `"".split("\n") == [""]`. */
  function SplitOn(s: string, sep: char): (r: seq<string>)
    ensures |r| >= 1
    ensures forall i :: 0 <= i < |r| ==> sep !in r[i]
    decreases |s|
  {
    if sep !in s then [s]
    else
      var i := IndexOf(s, sep);
      [s[..i]] + SplitOn(s[i + 1..], sep)
  }

  /** Python's `sep.join(parts)`. */
  function JoinWith(parts: seq<string>, sep: char): string
  {
    if |parts| == 0 then ""
    else if |parts| == 1 then parts[0]
    else parts[0] + [sep] + JoinWith(parts[1..], sep)
  }

  /** Splitting undoes joining, provided no part contains the separator. */
  lemma {:induction false} SplitJoin(parts: seq<string>, sep: char)
    requires |parts| >= 1
    requires forall i :: 0 <= i < |parts| ==> sep !in parts[i]
    ensures SplitOn(JoinWith(parts, sep), sep) == parts
  {
    if |parts| > 1 {
      var rest := JoinWith(parts[1..], sep);
      var s := parts[0] + [sep] + rest;
      assert sep in s by { assert s[|parts[0]|] == sep; }
      var i := IndexOf(s, sep);
      assert i == |parts[0]| by {
        assert forall j :: 0 <= j < |parts[0]| ==> s[j] == parts[0][j];
        assert forall j :: 0 <= j < i ==> s[..i][j] == s[j];
        assert s[|parts[0]|] == sep;
      }
      assert s[..i] == parts[0];
      assert s[i + 1..] == rest;
      SplitJoin(parts[1..], sep);
    }
  }

  /** Joining undoes splitting. */
  lemma {:induction false} JoinSplit(s: string, sep: char)
    ensures JoinWith(SplitOn(s, sep), sep) == s
    decreases |s|
  {
    if sep in s {
      var i := IndexOf(s, sep);
      var parts, rest := SplitOn(s, sep), SplitOn(s[i + 1..], sep);
      assert parts == [s[..i]] + rest;
      assert parts[0] == s[..i] && parts[1..] == rest;
      JoinSplit(s[i + 1..], sep);
      assert JoinWith(parts, sep) == s[..i] + [sep] + s[i + 1..];
      assert s == s[..i] + [sep] + s[i + 1..];
    }
  }

  function StartsWith(s: string, prefix: string): bool
  {
    |prefix| <= |s| && s[..|prefix|] == prefix
  }

  function EndsWith(s: string, suffix: string): bool
  {
    |suffix| <= |s| && s[|s| - |suffix|..] == suffix
  }

  /** Python's `str.isspace` for one character. */
  predicate IsSpace(c: char)
  {
    var n := c as int;
    n == 32 || 9 <= n <= 13 || 28 <= n <= 31 || n == 0x85 || n == 0xA0 || n == 0x1680
    || 0x2000 <= n <= 0x200A || n == 0x2028 || n == 0x2029 || n == 0x202F || n == 0x205F
    || n == 0x3000
  }

  function TrimStart(s: string): (r: string)
    ensures |r| <= |s| && r == s[|s| - |r|..]
    ensures r == [] || !IsSpace(r[0])
    ensures forall i :: 0 <= i < |s| - |r| ==> IsSpace(s[i])
  {
    if |s| > 0 && IsSpace(s[0]) then TrimStart(s[1..]) else s
  }

  function TrimEnd(s: string): (r: string)
    ensures |r| <= |s| && r == s[..|r|]
    ensures r == [] || !IsSpace(r[|r| - 1])
    ensures forall i :: |r| <= i < |s| ==> IsSpace(s[i])
  {
    if |s| > 0 && IsSpace(s[|s| - 1]) then TrimEnd(s[..|s| - 1]) else s
  }

  /** Python's `s.strip()`: the slice of `s` left once leading and trailing
      whitespace is removed. */
  function Strip(s: string): (r: string)
    ensures r == [] || (!IsSpace(r[0]) && !IsSpace(r[|r| - 1]))
    ensures var a := |s| - |TrimStart(s)|;
      a + |r| <= |s| && r == s[a..a + |r|]
      && (forall i :: 0 <= i < a ==> IsSpace(s[i]))
      && (forall i :: a + |r| <= i < |s| ==> IsSpace(s[i]))
  {
    TrimEnd(TrimStart(s))
  }

  /** Python's `s.split()` with no argument: the maximal runs of non-whitespace. */
  function SplitWhitespace(s: string): (r: seq<string>)
    ensures forall i :: 0 <= i < |r| ==> |r[i]| > 0 && forall j :: 0 <= j < |r[i]| ==> !IsSpace(r[i][j])
    decreases |s|
  {
    if |s| == 0 then []
    else if IsSpace(s[0]) then SplitWhitespace(s[1..])
    else
      var w := Word(s);
      [w] + SplitWhitespace(s[|w|..])
  }

  /** The run of non-whitespace at the start of `s`. */
  function Word(s: string): (w: string)
    ensures |w| <= |s| && w == s[..|w|]
    ensures forall j :: 0 <= j < |w| ==> !IsSpace(w[j])
    ensures |w| == |s| || IsSpace(s[|w|])
    ensures |s| > 0 && !IsSpace(s[0]) ==> |w| > 0
  {
    if |s| == 0 || IsSpace(s[0]) then [] else [s[0]] + Word(s[1..])
  }

  /** `s` without its whitespace characters. */
  function RemoveSpace(s: string): string
  {
    if |s| == 0 then [] else (if IsSpace(s[0]) then [] else [s[0]]) + RemoveSpace(s[1..])
  }

  function Concat(parts: seq<string>): string
  {
    if |parts| == 0 then [] else parts[0] + Concat(parts[1..])
  }

  lemma {:induction false} RemoveSpaceAppend(a: string, b: string)
    ensures RemoveSpace(a + b) == RemoveSpace(a) + RemoveSpace(b)
  {
    if |a| > 0 {
      assert (a + b)[1..] == a[1..] + b;
      RemoveSpaceAppend(a[1..], b);
    } else {
      assert a + b == b;
    }
  }

  lemma {:induction false} RemoveSpaceOfWord(w: string)
    requires forall j :: 0 <= j < |w| ==> !IsSpace(w[j])
    ensures RemoveSpace(w) == w
  {
    if |w| > 0 { RemoveSpaceOfWord(w[1..]); }
  }

  /** `split()` loses nothing but whitespace: its words, put back together,
      are the input with its whitespace removed. */
  lemma {:induction false} SplitWhitespaceKeepsText(s: string)
    ensures Concat(SplitWhitespace(s)) == RemoveSpace(s)
    decreases |s|
  {
    if |s| == 0 {
    } else if IsSpace(s[0]) {
      SplitWhitespaceKeepsText(s[1..]);
    } else {
      var w := Word(s);
      assert s == w + s[|w|..];
      SplitWhitespaceKeepsText(s[|w|..]);
      RemoveSpaceAppend(w, s[|w|..]);
      RemoveSpaceOfWord(w);
      assert SplitWhitespace(s) == [w] + SplitWhitespace(s[|w|..]);
    }
  }

  /** Leading whitespace does not change the words. */
  lemma {:induction false} SplitWhitespaceSkipsSpace(sp: string, s: string)
    requires forall j :: 0 <= j < |sp| ==> IsSpace(sp[j])
    ensures SplitWhitespace(sp + s) == SplitWhitespace(s)
    decreases |sp|
  {
    if |sp| > 0 {
      assert (sp + s)[0] == sp[0];
      assert (sp + s)[1..] == sp[1..] + s;
      SplitWhitespaceSkipsSpace(sp[1..], s);
    } else {
      assert sp + s == s;
    }
  }

  /** A run of non-whitespace ended by whitespace or by the end is the first word. */
  lemma {:induction false} WordOf(w: string, s: string)
    requires forall j :: 0 <= j < |w| ==> !IsSpace(w[j])
    requires |s| == 0 || IsSpace(s[0])
    ensures Word(w + s) == w
    decreases |w|
  {
    if |w| > 0 {
      assert (w + s)[0] == w[0];
      assert (w + s)[1..] == w[1..] + s;
      WordOf(w[1..], s);
    } else {
      assert w + s == s;
    }
  }

  lemma WordFirst(w: string, s: string)
    requires |w| > 0 && forall j :: 0 <= j < |w| ==> !IsSpace(w[j])
    requires |s| == 0 || IsSpace(s[0])
    ensures SplitWhitespace(w + s) == [w] + SplitWhitespace(s)
  {
    WordOf(w, s);
    assert (w + s)[|w|..] == s;
  }

  /** The text made of the words `ws` with the runs `gaps` before, between and
      after them. */
  function Spaced(gaps: seq<string>, ws: seq<string>): string
    requires |gaps| == |ws| + 1
    decreases |ws|
  {
    if |ws| == 0 then gaps[0] else gaps[0] + ws[0] + Spaced(gaps[1..], ws[1..])
  }

  /** `split()` undoes spacing: words without whitespace, separated by
      non-empty whitespace runs and with any whitespace around them, split
      back into exactly those words. */
  lemma {:induction false} SplitWhitespaceSpaced(gaps: seq<string>, ws: seq<string>)
    requires |gaps| == |ws| + 1
    requires forall i :: 0 <= i < |gaps| ==> forall j :: 0 <= j < |gaps[i]| ==> IsSpace(gaps[i][j])
    requires forall i :: 0 < i < |ws| ==> |gaps[i]| > 0
    requires forall i :: 0 <= i < |ws| ==> |ws[i]| > 0 && forall j :: 0 <= j < |ws[i]| ==> !IsSpace(ws[i][j])
    ensures SplitWhitespace(Spaced(gaps, ws)) == ws
    decreases |ws|
  {
    if |ws| == 0 {
      SplitWhitespaceSkipsSpace(gaps[0], []);
      assert gaps[0] + [] == gaps[0];
    } else {
      var gs, rest := gaps[1..], ws[1..];
      var tail := Spaced(gs, rest);
      forall i | 0 < i < |rest| ensures |gs[i]| > 0 {
        assert gs[i] == gaps[i + 1];
      }
      SplitWhitespaceSpaced(gs, rest);
      assert |tail| == 0 || IsSpace(tail[0]) by {
        if |rest| > 0 {
          assert |gaps[1]| > 0;
          assert tail == gaps[1] + rest[0] + Spaced(gs[1..], rest[1..]);
          assert tail[0] == gaps[1][0];
        } else {
          assert tail == gaps[1];
          if |tail| > 0 { assert tail[0] == gaps[1][0]; }
        }
      }
      assert Spaced(gaps, ws) == gaps[0] + (ws[0] + tail);
      SplitWhitespaceSkipsSpace(gaps[0], ws[0] + tail);
      WordFirst(ws[0], tail);
    }
  }

  function Digit(d: nat): (c: char)
    requires d < 10
    ensures '0' <= c <= '9' && (c as int) - ('0' as int) == d
  {
    (('0' as int) + d) as char
  }

  /** Python's `str(n)` for a natural number. */
  function NatToString(n: nat): (s: string)
    ensures |s| > 0
    ensures forall i :: 0 <= i < |s| ==> '0' <= s[i] <= '9'
  {
    if n < 10 then [Digit(n)] else NatToString(n / 10) + [Digit(n % 10)]
  }

  /** Python's `str(i)` for any integer. */
  function IntToString(i: int): string
  {
    if i < 0 then "-" + NatToString(-i) else NatToString(i)
  }

  /** Reads a string of decimal digits back as a number. */
  function ParseNat(s: string): nat
    requires forall i :: 0 <= i < |s| ==> '0' <= s[i] <= '9'
  {
    if |s| == 0 then 0
    else ParseNat(s[..|s| - 1]) * 10 + ((s[|s| - 1] as int) - ('0' as int))
  }

  lemma {:induction false} ParseNatToString(n: nat)
    ensures ParseNat(NatToString(n)) == n
  {
    if n >= 10 {
      var s := NatToString(n / 10);
      var t := s + [Digit(n % 10)];
      assert t[..|t| - 1] == s;
      ParseNatToString(n / 10);
    }
  }

  /** Different numbers print differently. */
  lemma NatToStringInjective(a: nat, b: nat)
    ensures NatToString(a) == NatToString(b) ==> a == b
  {
    ParseNatToString(a);
    ParseNatToString(b);
  }

  lemma IntToStringInjective(a: int, b: int)
    ensures IntToString(a) == IntToString(b) ==> a == b
  {
    var sa, sb := IntToString(a), IntToString(b);
    assert a < 0 <==> sa[0] == '-';
    assert b < 0 <==> sb[0] == '-';
    if sa == sb {
      if a < 0 {
        assert NatToString(-a) == sa[1..];
        assert NatToString(-b) == sb[1..];
        NatToStringInjective(-a, -b);
      } else {
        NatToStringInjective(a, b);
      }
    }
  }
}
