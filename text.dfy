/** String helpers with the semantics of the JavaScript string operations the
    resume builder uses: `split` on one character, `join`, `startsWith`,
    `endsWith`, `toLowerCase`, the `\s` character class, and the decimal
    rendering of a non-negative integer in a template literal. */
module Text {

  /** `s.split(sep)` for a one-character separator: always at least one piece,
      `""` splits to `[""]`. */
  function Split(s: string, sep: char): (parts: seq<string>)
    ensures |parts| >= 1
    ensures forall i :: 0 <= i < |parts| ==> sep !in parts[i]
  {
    if s == [] then [""]
    else
      var rest := Split(s[1..], sep);
      if s[0] == sep then [""] + rest
      else [[s[0]] + rest[0]] + rest[1..]
  }

  /** `parts.join(sep)`. */
  function Join(parts: seq<string>, sep: string): string
  {
    if |parts| == 0 then ""
    else if |parts| == 1 then parts[0]
    else parts[0] + sep + Join(parts[1..], sep)
  }

  /** No piece of `parts` contains `c`. */
  predicate FreeOf(parts: seq<string>, c: char)
  {
    forall i :: 0 <= i < |parts| ==> c !in parts[i]
  }

  /** `t` occurs somewhere in `s`. */
  predicate Contains(s: string, t: string)
  {
    exists i, j :: 0 <= i <= j <= |s| && s[i..j] == t
  }

  /** What occurs in `t` occurs in any text around `t`. */
  lemma ContainsInside(a: string, t: string, b: string, p: string)
    requires Contains(t, p)
    ensures Contains(a + t + b, p)
  {
    var i, j :| 0 <= i <= j <= |t| && t[i..j] == p;
    var s := a + t + b;
    assert s[|a| + i..|a| + j] == t[i..j];
  }

  /** Every one of `lines` occurs in `s`. */
  predicate ContainsAll(s: string, lines: seq<string>)
  {
    forall i :: 0 <= i < |lines| ==> Contains(s, lines[i])
  }

  lemma ContainsAllAfter(a: string, t: string, lines: seq<string>)
    requires ContainsAll(t, lines)
    ensures ContainsAll(a + t, lines)
  {
    forall i | 0 <= i < |lines| ensures Contains(a + t, lines[i]) {
      ContainsInside(a, t, "", lines[i]);
      assert a + t + "" == a + t;
    }
  }

  lemma ContainsAllBefore(t: string, b: string, lines: seq<string>)
    requires ContainsAll(t, lines)
    ensures ContainsAll(t + b, lines)
  {
    forall i | 0 <= i < |lines| ensures Contains(t + b, lines[i]) {
      ContainsInside("", t, b, lines[i]);
      assert "" + t + b == t + b;
    }
  }

  /** Every piece occurs in the joined text. */
  lemma {:induction false} JoinContains(parts: seq<string>, sep: string, k: nat)
    requires k < |parts|
    ensures Contains(Join(parts, sep), parts[k])
  {
    var p := parts[k];
    if |parts| == 1 {
      assert Join(parts, sep)[0..|p|] == p;
    } else if k == 0 {
      var s := Join(parts, sep);
      assert s == p + (sep + Join(parts[1..], sep));
      assert s[0..|p|] == p;
    } else {
      JoinContains(parts[1..], sep, k - 1);
      ContainsInside(parts[0] + sep, Join(parts[1..], sep), "", p);
      assert Join(parts, sep) == parts[0] + sep + Join(parts[1..], sep) + "";
    }
  }

  /** A joined text holds `c` exactly when a piece does, provided the
      separator does not. */
  lemma {:induction false} JoinFreeOf(parts: seq<string>, sep: string, c: char)
    requires c !in sep
    ensures c !in Join(parts, sep) <==> FreeOf(parts, c)
  {
    if |parts| > 1 {
      JoinFreeOf(parts[1..], sep, c);
      var rest := parts[1..];
      assert forall i :: 1 <= i < |parts| ==> parts[i] == rest[i - 1];
    }
  }

  lemma {:induction false} SplitWithoutSeparator(s: string, sep: char)
    requires sep !in s
    ensures Split(s, sep) == [s]
  {
    if s != [] {
      SplitWithoutSeparator(s[1..], sep);
      assert [s[0]] + s[1..] == s;
    }
  }

  lemma {:induction false} SplitAtFirstSeparator(a: string, sep: char, b: string)
    requires sep !in a
    ensures Split(a + [sep] + b, sep) == [a] + Split(b, sep)
  {
    if a == [] {
      assert a + [sep] + b == [sep] + b;
      assert ([sep] + b)[1..] == b;
    } else {
      var s := a + [sep] + b;
      assert s[1..] == a[1..] + [sep] + b;
      SplitAtFirstSeparator(a[1..], sep, b);
      assert [a[0]] + a[1..] == a;
    }
  }

  /** Splitting what `join` produced gives the pieces back, provided there is
      at least one piece and none contains the separator. */
  lemma {:induction false} SplitJoin(parts: seq<string>, sep: char)
    requires |parts| > 0 && FreeOf(parts, sep)
    ensures Split(Join(parts, [sep]), sep) == parts
  {
    if |parts| == 1 {
      SplitWithoutSeparator(parts[0], sep);
    } else {
      SplitJoin(parts[1..], sep);
      SplitAtFirstSeparator(parts[0], sep, Join(parts[1..], [sep]));
      assert [parts[0]] + parts[1..] == parts;
    }
  }

  /** Joining what `split` produced gives the original string back. */
  lemma {:induction false} JoinSplit(s: string, sep: char)
    ensures Join(Split(s, sep), [sep]) == s
  {
    if s != [] {
      var tail := s[1..];
      var rest := Split(tail, sep);
      JoinSplit(tail, sep);
      assert Join(rest, [sep]) == tail;
      assert s == [s[0]] + tail;
      if s[0] == sep {
        assert Split(s, sep) == [""] + rest;
        assert ([""] + rest)[1..] == rest;
      } else {
        var parts := [[s[0]] + rest[0]] + rest[1..];
        assert Split(s, sep) == parts;
        if |rest| == 1 {
          assert Join(parts, [sep]) == [s[0]] + rest[0];
        } else {
          assert parts[1..] == rest[1..];
          assert Join(parts, [sep]) == [s[0]] + rest[0] + [sep] + Join(rest[1..], [sep]);
        }
      }
    }
  }

  function DigitChar(d: nat): (c: char)
    requires d < 10
    ensures '0' <= c <= '9'
  {
    ('0' as int + d) as char
  }

  /** The decimal rendering of a non-negative integer, as `${n}` produces it:
      no sign, no leading zeros. */
  function Decimal(n: nat): (s: string)
    ensures |s| >= 1
    ensures forall i :: 0 <= i < |s| ==> '0' <= s[i] <= '9'
    ensures n >= 10 ==> |s| >= 2
    decreases n
  {
    if n < 10 then [DigitChar(n)] else Decimal(n / 10) + [DigitChar(n % 10)]
  }

  /** Different numbers have different decimal renderings. */
  lemma {:induction false} DecimalInjective(a: nat, b: nat)
    requires Decimal(a) == Decimal(b)
    ensures a == b
  {
    if a >= 10 && b >= 10 {
      var da, db := Decimal(a), Decimal(b);
      assert da[..|da| - 1] == Decimal(a / 10);
      assert db[..|db| - 1] == Decimal(b / 10);
      DecimalInjective(a / 10, b / 10);
      assert da[|da| - 1] == DigitChar(a % 10);
    }
  }

  function EndsWith(s: string, suffix: string): bool
  {
    |suffix| <= |s| && s[|s| - |suffix|..] == suffix
  }

  /** `toLowerCase` on the ASCII letters A-Z. */
  function LowerChar(c: char): char
  {
    if 'A' <= c <= 'Z' then (c as int + 32) as char else c
  }

  function ToLower(s: string): (r: string)
    ensures |r| == |s|
    ensures forall i :: 0 <= i < |s| ==> r[i] == LowerChar(s[i])
  {
    if s == [] then [] else [LowerChar(s[0])] + ToLower(s[1..])
  }

  /** Lower-casing twice is lower-casing once. */
  lemma ToLowerIdempotent(s: string)
    ensures ToLower(ToLower(s)) == ToLower(s)
  {
    var once := ToLower(s);
    assert forall i :: 0 <= i < |s| ==> ToLower(once)[i] == once[i];
  }

  /** The JavaScript `\s` class: WhiteSpace and LineTerminator code points. */
  predicate IsSpace(c: char)
  {
    c == '\t' || c == '\n' || c == '\U{000B}' || c == '\U{000C}' || c == '\r' || c == ' '
    || c == '\U{00A0}' || c == '\U{1680}' || ('\U{2000}' <= c <= '\U{200A}')
    || c == '\U{2028}' || c == '\U{2029}' || c == '\U{202F}' || c == '\U{205F}'
    || c == '\U{3000}' || c == '\U{FEFF}'
  }

  predicate NoSpace(s: string)
  {
    forall i :: 0 <= i < |s| ==> !IsSpace(s[i])
  }

  /** Drops the leading run of whitespace. */
  function DropSpaces(s: string): (r: string)
    ensures |r| <= |s|
    ensures r == [] || !IsSpace(r[0])
    ensures NoSpace(s) ==> r == s
  {
    if s != [] && IsSpace(s[0]) then DropSpaces(s[1..]) else s
  }

  /** `s.replace(/\s+/g, rep)`: every maximal run of whitespace becomes `rep`. */
  function ReplaceSpaceRuns(s: string, rep: char): (r: string)
    requires !IsSpace(rep)
    ensures NoSpace(r)
    ensures NoSpace(s) ==> r == s
    ensures |r| <= |s|
    decreases |s|
  {
    if s == [] then []
    else if IsSpace(s[0]) then [rep] + ReplaceSpaceRuns(DropSpaces(s[1..]), rep)
    else [s[0]] + ReplaceSpaceRuns(s[1..], rep)
  }

  lemma EndsWithAppend(s: string, suffix: string)
    ensures EndsWith(s + suffix, suffix)
  {
    assert (s + suffix)[|s|..] == suffix;
  }

  lemma NoSpaceAppend(a: string, b: string)
    requires NoSpace(a) && NoSpace(b)
    ensures NoSpace(a + b)
  {
    assert forall i :: |a| <= i < |a + b| ==> (a + b)[i] == b[i - |a|];
  }

  /** A run of whitespace is dropped up to the text after it. */
  lemma {:induction false} DropSpacesRun(ws: string, b: string)
    requires forall i :: 0 <= i < |ws| ==> IsSpace(ws[i])
    requires b == [] || !IsSpace(b[0])
    ensures DropSpaces(ws + b) == b
  {
    if ws != [] {
      assert (ws + b)[1..] == ws[1..] + b;
      DropSpacesRun(ws[1..], b);
    } else {
      assert ws + b == b;
    }
  }

  /** Dropping leading whitespace leaves a suffix of the text. */
  lemma {:induction false} DropSpacesSuffix(s: string)
    ensures DropSpaces(s) == s[|s| - |DropSpaces(s)|..]
    ensures s != [] && !IsSpace(s[|s| - 1]) ==> DropSpaces(s) != []
  {
    if s != [] && IsSpace(s[0]) {
      DropSpacesSuffix(s[1..]);
    }
  }

  /** Leading whitespace of `x` that does not reach its end is dropped
      before anything appended to `x` is looked at. */
  lemma {:induction false} DropSpacesBefore(x: string, t: string)
    requires x != [] && !IsSpace(x[|x| - 1])
    ensures DropSpaces(x + t) == DropSpaces(x) + t
  {
    if IsSpace(x[0]) {
      assert (x + t)[1..] == x[1..] + t;
      DropSpacesBefore(x[1..], t);
    }
  }

  /** Text that does not end in whitespace is rewritten on its own: no run of
      whitespace straddles the seam. */
  lemma {:induction false} ReplaceAppend(a: string, t: string, rep: char)
    requires !IsSpace(rep)
    requires a == [] || !IsSpace(a[|a| - 1])
    ensures ReplaceSpaceRuns(a + t, rep) == ReplaceSpaceRuns(a, rep) + ReplaceSpaceRuns(t, rep)
    decreases |a|
  {
    if a == [] {
      assert a + t == t;
    } else if !IsSpace(a[0]) {
      var whole, rest := a + t, a[1..];
      assert whole[0] == a[0] && whole[1..] == rest + t;
      ReplaceAppend(rest, t, rep);
      assert ReplaceSpaceRuns(whole, rep) == [a[0]] + (ReplaceSpaceRuns(rest, rep) + ReplaceSpaceRuns(t, rep));
    } else {
      var whole, rest := a + t, a[1..];
      assert whole[0] == a[0] && whole[1..] == rest + t;
      assert rest != [] && rest[|rest| - 1] == a[|a| - 1];
      DropSpacesBefore(rest, t);
      var kept := DropSpaces(rest);
      DropSpacesSuffix(rest);
      assert kept[|kept| - 1] == rest[|rest| - 1];
      ReplaceAppend(kept, t, rep);
      assert ReplaceSpaceRuns(whole, rep) == [rep] + (ReplaceSpaceRuns(kept, rep) + ReplaceSpaceRuns(t, rep));
    }
  }

  /** A run of whitespace between two texts, the first not ending and the
      second not starting in whitespace, becomes one `rep`; each side is
      rewritten on its own. */
  lemma SpaceRunBetween(a: string, ws: string, b: string, rep: char)
    requires !IsSpace(rep)
    requires a == [] || !IsSpace(a[|a| - 1])
    requires ws != [] && forall i :: 0 <= i < |ws| ==> IsSpace(ws[i])
    requires b == [] || !IsSpace(b[0])
    ensures ReplaceSpaceRuns(a + ws + b, rep) == ReplaceSpaceRuns(a, rep) + [rep] + ReplaceSpaceRuns(b, rep)
  {
    assert a + ws + b == a + (ws + b);
    ReplaceAppend(a, ws + b, rep);
    RunThenWord(ws, b, rep);
    Associative(ReplaceSpaceRuns(a, rep), [rep], ReplaceSpaceRuns(b, rep));
  }

  lemma Associative(x: string, y: string, z: string)
    ensures x + (y + z) == x + y + z
  {
  }

  /** A run of whitespace ahead of a word becomes one `rep`. */
  lemma RunThenWord(ws: string, b: string, rep: char)
    requires !IsSpace(rep)
    requires ws != [] && forall i :: 0 <= i < |ws| ==> IsSpace(ws[i])
    requires b == [] || !IsSpace(b[0])
    ensures ReplaceSpaceRuns(ws + b, rep) == [rep] + ReplaceSpaceRuns(b, rep)
  {
    var tail := ws + b;
    assert tail[0] == ws[0] && tail[1..] == ws[1..] + b;
    DropSpacesRun(ws[1..], b);
  }
}
