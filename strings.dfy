/** The JavaScript string operations the dashboard relies on: `split` and
    `join` on a one-character separator, `startsWith`, ASCII case mapping,
    and the two name conversions of the breadcrumb. */
module Strings {
  import opened Wrappers

  /** JavaScript's `s || fallback` for a string that may be absent: the
      absent string and the empty string are both falsy. */
  function StringOr(s: Option<string>, fallback: string): (r: string)
    ensures s.Some? && s.value != "" ==> r == s.value
    ensures s.None? || s.value == "" ==> r == fallback
  {
    if s.Some? && s.value != "" then s.value else fallback
  }

  /** Number of occurrences of `c` in `s`. */
  function Count(s: string, c: char): nat
  {
    if s == [] then 0 else (if s[0] == c then 1 else 0) + Count(s[1..], c)
  }

  lemma {:induction false} CountZeroIffAbsent(s: string, c: char)
    ensures Count(s, c) == 0 <==> c !in s
  {
    if s != [] {
      CountZeroIffAbsent(s[1..], c);
      assert s == [s[0]] + s[1..];
    }
  }

  /** JavaScript's `s.split(c)`: the pieces between separators, empty pieces
      included; there is always one piece more than there are separators. */
  function Split(s: string, c: char): (parts: seq<string>)
    ensures |parts| == Count(s, c) + 1
    ensures forall i :: 0 <= i < |parts| ==> c !in parts[i]
    decreases |s|
  {
    if s == [] then [""]
    else
      var rest := Split(s[1..], c);
      if s[0] == c then [""] + rest
      else [[s[0]] + rest[0]] + rest[1..]
  }

  /** JavaScript's `parts.join(c)`. */
  function Join(parts: seq<string>, c: char): string
  {
    if |parts| == 0 then ""
    else if |parts| == 1 then parts[0]
    else parts[0] + [c] + Join(parts[1..], c)
  }

  /** JavaScript's `s.startsWith(p)`. */
  predicate StartsWith(s: string, p: string)
  {
    |p| <= |s| && s[..|p|] == p
  }

  lemma {:induction false} SplitWithoutSeparator(s: string, c: char)
    requires c !in s
    ensures Split(s, c) == [s]
    decreases |s|
  {
    if s != [] {
      SplitWithoutSeparator(s[1..], c);
      assert [s[0]] + s[1..] == s;
    }
  }

  /** Splitting at one separator splits the two sides independently. */
  lemma {:induction false} SplitConcat(a: string, b: string, c: char)
    ensures Split(a + [c] + b, c) == Split(a, c) + Split(b, c)
    decreases |a|
  {
    var s := a + [c] + b;
    if a == [] {
      assert s[1..] == b;
    } else {
      assert s[1..] == a[1..] + [c] + b;
      SplitConcat(a[1..], b, c);
    }
  }

  /** `split` undoes `join` when no piece contains the separator. */
  lemma {:induction false} SplitJoin(parts: seq<string>, c: char)
    requires |parts| >= 1
    requires forall i :: 0 <= i < |parts| ==> c !in parts[i]
    ensures Split(Join(parts, c), c) == parts
    decreases |parts|
  {
    if |parts| == 1 {
      SplitWithoutSeparator(parts[0], c);
    } else {
      SplitJoin(parts[1..], c);
      SplitConcat(parts[0], Join(parts[1..], c), c);
      SplitWithoutSeparator(parts[0], c);
      assert [parts[0]] + parts[1..] == parts;
    }
  }

  /** `join` undoes `split`. */
  lemma {:induction false} JoinSplit(s: string, c: char)
    ensures Join(Split(s, c), c) == s
    decreases |s|
  {
    if s != [] {
      var rest := Split(s[1..], c);
      JoinSplit(s[1..], c);
      if s[0] == c {
        assert ([""] + rest)[1..] == rest;
        assert s == [c] + s[1..];
      } else {
        var parts := [[s[0]] + rest[0]] + rest[1..];
        assert parts[1..] == rest[1..];
        assert s == [s[0]] + s[1..];
      }
    }
  }

  /** A character that does not occur in `s` occurs in none of its pieces. */
  lemma {:induction false} SplitPiecesAvoid(s: string, c: char, d: char)
    requires d !in s
    ensures forall i :: 0 <= i < |Split(s, c)| ==> d !in Split(s, c)[i]
    decreases |s|
  {
    if s != [] {
      SplitPiecesAvoid(s[1..], c, d);
      assert forall x :: x in s[1..] ==> x in s;
    }
  }

  predicate IsLowerAscii(ch: char) { 'a' <= ch <= 'z' }

  predicate IsUpperAscii(ch: char) { 'A' <= ch <= 'Z' }

  /** `toUpperCase` of one character, ASCII letters only. */
  function UpperChar(ch: char): char
  {
    if IsLowerAscii(ch) then (ch as int - 32) as char else ch
  }

  /** `toLowerCase` of one character, ASCII letters only. */
  function LowerChar(ch: char): char
  {
    if IsUpperAscii(ch) then (ch as int + 32) as char else ch
  }

  /** `s.toLowerCase()`, ASCII letters only. */
  function ToLower(s: string): (r: string)
    ensures |r| == |s|
    ensures forall i :: 0 <= i < |s| ==> !IsUpperAscii(r[i])
  {
    seq(|s|, i requires 0 <= i < |s| => LowerChar(s[i]))
  }

  lemma ToLowerIdempotent(s: string)
    ensures ToLower(ToLower(s)) == ToLower(s)
  {
  }

  /** `s.charAt(0).toUpperCase() + s.slice(1)`. */
  function CapitalizeFirst(s: string): (r: string)
    ensures |r| == |s|
    ensures s != [] ==> r[0] == UpperChar(s[0])
    ensures s != [] && IsLowerAscii(s[0]) ==> IsUpperAscii(r[0])
    ensures |s| > 0 ==> r[1..] == s[1..]
  {
    if s == [] then "" else [UpperChar(s[0])] + s[1..]
  }

  /** `s.replace(/-([a-z])/g, g => g[1].toUpperCase())`: the regular
      expression is matched left to right without overlap, so each `-`
      followed by a lower-case letter becomes that letter in upper case. */
  function CamelCase(s: string): (r: string)
    ensures |r| <= |s|
    ensures s != [] ==> r != []
    decreases |s|
  {
    if s == [] then ""
    else if |s| >= 2 && s[0] == '-' && IsLowerAscii(s[1]) then [UpperChar(s[1])] + CamelCase(s[2..])
    else [s[0]] + CamelCase(s[1..])
  }

  /** A name without `-` is its own camel-case form. */
  lemma {:induction false} CamelCaseWithoutDash(s: string)
    requires '-' !in s
    ensures CamelCase(s) == s
    decreases |s|
  {
    if s != [] {
      CamelCaseWithoutDash(s[1..]);
      assert [s[0]] + s[1..] == s;
    }
  }

  /** The first character of a camel-cased name is never a lower-case letter
      that came from after a dash: it is the input's first character, or the
      upper-cased letter that followed a leading dash. */
  lemma CamelCaseHead(s: string)
    requires s != []
    ensures CamelCase(s)[0] == s[0] || (s[0] == '-' && |s| >= 2 && CamelCase(s)[0] == UpperChar(s[1]))
  {
  }

  /** No `-` followed by a lower-case letter survives camel-casing. */
  lemma {:induction false} CamelCaseLeavesNoJoint(s: string)
    ensures forall i :: 0 <= i < |CamelCase(s)| - 1 && CamelCase(s)[i] == '-' ==> !IsLowerAscii(CamelCase(s)[i + 1])
    decreases |s|
  {
    if s != [] {
      if |s| >= 2 && s[0] == '-' && IsLowerAscii(s[1]) {
        CamelCaseLeavesNoJoint(s[2..]);
      } else {
        CamelCaseLeavesNoJoint(s[1..]);
        if |s| >= 2 {
          CamelCaseHead(s[1..]);
        }
      }
    }
  }

  /** Camel-casing walks a name joint by joint: the text before the first
      dash is kept, a dash followed by a lower-case letter becomes that
      letter in upper case, and the rest is camel-cased in turn. */
  lemma {:induction false} CamelCaseStep(w1: string, x: char, w2: string)
    requires '-' !in w1 && IsLowerAscii(x)
    ensures CamelCase(w1 + ['-', x] + w2) == w1 + [UpperChar(x)] + CamelCase(w2)
    decreases |w1|
  {
    var s := w1 + ['-', x] + w2;
    if w1 == [] {
      assert s[2..] == w2;
    } else {
      assert s[1..] == w1[1..] + ['-', x] + w2;
      CamelCaseStep(w1[1..], x, w2);
      assert [w1[0]] + (w1[1..] + [UpperChar(x)] + CamelCase(w2)) == w1 + [UpperChar(x)] + CamelCase(w2);
    }
  }

  /** A dash not followed by a lower-case letter is kept as it is, and the
      rest is camel-cased in turn. */
  lemma {:induction false} CamelCaseKeepsDash(w1: string, w2: string)
    requires '-' !in w1 && (w2 == [] || !IsLowerAscii(w2[0]))
    ensures CamelCase(w1 + ['-'] + w2) == w1 + ['-'] + CamelCase(w2)
    decreases |w1|
  {
    var s := w1 + ['-'] + w2;
    if w1 == [] {
      assert s[1..] == w2;
    } else {
      assert s[1..] == w1[1..] + ['-'] + w2;
      CamelCaseKeepsDash(w1[1..], w2);
      assert [w1[0]] + (w1[1..] + ['-'] + CamelCase(w2)) == w1 + ['-'] + CamelCase(w2);
    }
  }

  /** Every word of `words` with its first character upper-cased. */
  function CapitalizeAll(words: seq<string>): (r: seq<string>)
    ensures |r| == |words|
  {
    seq(|words|, i requires 0 <= i < |words| => CapitalizeFirst(words[i]))
  }

  /** `s.split('-').map(w => w.charAt(0).toUpperCase() + w.slice(1)).join(' ')`. */
  function FormatUnitName(s: string): string
  {
    Join(CapitalizeAll(Split(s, '-')), ' ')
  }

  /** When the name holds no space, splitting the formatted name on spaces
      gives back the capitalised words: one word per dash-separated piece. */
  lemma FormatUnitNameWords(s: string)
    requires ' ' !in s
    ensures Split(FormatUnitName(s), ' ') == CapitalizeAll(Split(s, '-'))
    ensures |Split(FormatUnitName(s), ' ')| == Count(s, '-') + 1
  {
    var words := CapitalizeAll(Split(s, '-'));
    SplitPiecesAvoid(s, '-', ' ');
    forall i | 0 <= i < |words| ensures ' ' !in words[i] {
      var w := Split(s, '-')[i];
      if w != [] {
        assert words[i] == [UpperChar(w[0])] + w[1..];
        assert w[0] in w;
      }
    }
    SplitJoin(words, ' ');
  }
}
