/** String primitives with the semantics of the JavaScript built-ins the
    source calls: `split` on one character, `join`, `trim`, `startsWith`,
    `includes`, and `toLowerCase` restricted to ASCII letters. */
module Text {

  /** `s.startsWith(p)`. */
  predicate StartsWith(s: string, p: string)
  {
    p <= s
  }

  /** `s.endsWith(p)`. */
  predicate EndsWith(s: string, p: string)
  {
    |p| <= |s| && s[|s| - |p|..] == p
  }

  /** `s.includes(sub)`. */
  predicate Contains(s: string, sub: string)
    decreases |s|
  {
    sub <= s || (|s| > 0 && Contains(s[1..], sub))
  }

  /** The characters `String.prototype.trim` removes: ECMAScript WhiteSpace
      (tab, VT, FF, space, NBSP, BOM and the Unicode Zs category) and
      LineTerminator (LF, CR, LS, PS). */
  predicate IsSpace(c: char)
  {
    c == '\t' || c == '\n' || c == '\U{000B}' || c == '\U{000C}' || c == '\r' ||
    c == ' ' || c == '\U{00A0}' || c == '\U{1680}' ||
    ('\U{2000}' <= c <= '\U{200A}') ||
    c == '\U{2028}' || c == '\U{2029}' || c == '\U{202F}' || c == '\U{205F}' ||
    c == '\U{3000}' || c == '\U{FEFF}'
  }

  function TrimStart(s: string): (r: string)
    ensures |r| <= |s|
    ensures |r| > 0 ==> !IsSpace(r[0])
    ensures forall i :: 0 <= i < |s| - |r| ==> IsSpace(s[i])
    ensures r == s[|s| - |r|..]
  {
    if |s| > 0 && IsSpace(s[0]) then TrimStart(s[1..]) else s
  }

  function TrimEnd(s: string): (r: string)
    ensures |r| <= |s| && r == s[..|r|]
    ensures |r| > 0 ==> !IsSpace(r[|r| - 1])
    ensures forall i :: |r| <= i < |s| ==> IsSpace(s[i])
  {
    if |s| > 0 && IsSpace(s[|s| - 1]) then TrimEnd(s[..|s| - 1]) else s
  }

  /** `s.trim()`. */
  function Trim(s: string): string
  {
    TrimEnd(TrimStart(s))
  }

  function LowerChar(c: char): char
  {
    if 'A' <= c <= 'Z' then (c as int + 32) as char else c
  }

  /** `s.toLowerCase()` on ASCII letters; other characters are kept. */
  function Lower(s: string): (r: string)
    ensures |r| == |s|
    ensures forall i :: 0 <= i < |s| ==> r[i] == LowerChar(s[i])
  {
    seq(|s|, i requires 0 <= i < |s| => LowerChar(s[i]))
  }

  /** `s.split(c)` for a one-character separator: always at least one piece. */
  function Split(s: string, c: char): (parts: seq<string>)
    ensures |parts| > 0
  {
    if |s| == 0 then [""]
    else if s[0] == c then [""] + Split(s[1..], c)
    else
      var rest := Split(s[1..], c);
      [[s[0]] + rest[0]] + rest[1..]
  }

  /** `parts.join(sep)`. */
  function Join(parts: seq<string>, sep: string): string
  {
    if |parts| == 0 then ""
    else if |parts| == 1 then parts[0]
    else parts[0] + sep + Join(parts[1..], sep)
  }

  /** Index of the last occurrence of `c` in `s`, or -1 (`s.lastIndexOf(c)`). */
  function LastIndexOf(s: string, c: char): (k: int)
    ensures -1 <= k < |s|
    ensures k >= 0 ==> s[k] == c
  {
    LastIndexBefore(s, c, |s|)
  }

  /** The last occurrence of `c` among the first `n` characters of `s`. */
  function LastIndexBefore(s: string, c: char, n: nat): (k: int)
    requires n <= |s|
    ensures -1 <= k < n
    ensures k >= 0 ==> s[k] == c
  {
    if n == 0 then -1
    else if s[n - 1] == c then n - 1
    else LastIndexBefore(s, c, n - 1)
  }

  /** No character between the last occurrence before `n` and `n` is `c`. */
  lemma {:induction false} LastBeforeIsLast(s: string, c: char, n: nat)
    requires n <= |s|
    ensures forall j :: LastIndexBefore(s, c, n) < j < n ==> s[j] != c
  {
    if n > 0 && s[n - 1] != c {
      LastBeforeIsLast(s, c, n - 1);
    }
  }

  /** No character after the last occurrence is `c`. */
  lemma {:induction false} LastIndexIsLast(s: string, c: char)
    ensures forall j :: LastIndexOf(s, c) < j < |s| ==> s[j] != c
  {
    LastBeforeIsLast(s, c, |s|);
  }

  /** No piece of a split contains the separator. */
  lemma {:induction false} SplitPiecesFree(s: string, c: char)
    ensures forall p :: p in Split(s, c) ==> c !in p
  {
    if |s| > 0 {
      SplitPiecesFree(s[1..], c);
    }
  }

  /** Joining the pieces of a split with the separator gives back the string. */
  lemma {:induction false} JoinSplit(s: string, c: char)
    ensures Join(Split(s, c), [c]) == s
  {
    if |s| > 0 {
      var rest := Split(s[1..], c);
      JoinSplit(s[1..], c);
      if s[0] == c {
        assert Split(s, c) == [""] + rest;
        if |rest| == 1 {
          assert Join(Split(s, c), [c]) == "" + [c] + rest[0];
        } else {
          assert Join(Split(s, c), [c]) == "" + [c] + Join(rest, [c]);
        }
        assert s == [s[0]] + s[1..];
      } else {
        var parts := [[s[0]] + rest[0]] + rest[1..];
        assert Split(s, c) == parts;
        if |rest| == 1 {
          assert Join(parts, [c]) == [s[0]] + rest[0];
        } else {
          assert parts[1..] == rest[1..];
          assert Join(rest, [c]) == rest[0] + [c] + Join(rest[1..], [c]);
          assert Join(parts, [c]) == [s[0]] + rest[0] + [c] + Join(rest[1..], [c]);
        }
        assert s == [s[0]] + s[1..];
      }
    }
  }

  /** A character that is in no part and not in the separator is not in the join. */
  lemma {:induction false} JoinFree(parts: seq<string>, sep: string, c: char)
    requires c !in sep
    requires forall i :: 0 <= i < |parts| ==> c !in parts[i]
    ensures c !in Join(parts, sep)
  {
    if |parts| > 1 {
      JoinFree(parts[1..], sep, c);
    }
  }

  /** Joining non-empty parts gives the empty string only for no parts. */
  lemma {:induction false} JoinEmpty(parts: seq<string>, sep: string)
    requires forall i :: 0 <= i < |parts| ==> parts[i] != ""
    ensures Join(parts, sep) == "" <==> parts == []
  {
    if |parts| > 1 {
      assert |Join(parts, sep)| >= |parts[0]|;
    }
  }

  /** The first part starts the join. */
  lemma {:induction false} JoinHead(parts: seq<string>, sep: string)
    requires |parts| > 0
    ensures parts[0] <= Join(parts, sep)
  {
  }

  /** `k` is the last occurrence of `c` when `s[k] == c` (or `k` is -1) and
      no later character is `c`. */
  lemma {:induction false} LastIndexAt(s: string, c: char, k: int)
    requires -1 <= k < |s|
    requires k >= 0 ==> s[k] == c
    requires forall j :: k < j < |s| ==> s[j] != c
    ensures LastIndexOf(s, c) == k
  {
    LastBeforeAt(s, c, |s|, k);
  }

  lemma {:induction false} LastBeforeAt(s: string, c: char, n: nat, k: int)
    requires -1 <= k < n <= |s|
    requires k >= 0 ==> s[k] == c
    requires forall j :: k < j < n ==> s[j] != c
    ensures LastIndexBefore(s, c, n) == k
  {
    if k < n - 1 {
      LastBeforeAt(s, c, n - 1, k);
    }
  }

  /** What follows the last occurrence of `c` is free of `c` and ends the
      string. */
  lemma {:induction false} LastIndexTail(s: string, c: char)
    ensures c !in s[LastIndexOf(s, c) + 1..]
    ensures EndsWith(s, s[LastIndexOf(s, c) + 1..])
  {
    var k := LastIndexOf(s, c);
    LastIndexIsLast(s, c);
    SliceFree(s, k + 1, c);
    assert |s| - |s[k + 1..]| == k + 1;
  }

  /** A slice whose characters from the original are not `c` holds no `c`. */
  lemma {:induction false} SliceFree(s: string, n: nat, c: char)
    requires n <= |s|
    requires forall j :: n <= j < |s| ==> s[j] != c
    ensures c !in s[n..]
  {
    var t := s[n..];
    forall j | 0 <= j < |t| ensures t[j] != c {
      assert t[j] == s[n + j];
    }
  }

  /** The last occurrence in a concatenation is in the second part when
      there is one there, and otherwise in the first. */
  lemma {:induction false} LastIndexAppend(a: string, b: string, c: char)
    ensures LastIndexOf(a + b, c) ==
              if LastIndexOf(b, c) >= 0 then |a| + LastIndexOf(b, c) else LastIndexOf(a, c)
  {
    var s := a + b;
    var ka, kb := LastIndexOf(a, c), LastIndexOf(b, c);
    LastIndexIsLast(a, c);
    LastIndexIsLast(b, c);
    if kb >= 0 {
      forall j | |a| + kb < j < |s| ensures s[j] != c {
        assert s[j] == b[j - |a|];
      }
      assert s[|a| + kb] == b[kb];
      LastIndexAt(s, c, |a| + kb);
    } else {
      forall j | ka < j < |s| ensures s[j] != c {
        if j < |a| { assert s[j] == a[j]; } else { assert s[j] == b[j - |a|]; }
      }
      if ka >= 0 { assert s[ka] == a[ka]; }
      LastIndexAt(s, c, ka);
    }
  }

  /** The last occurrence in `s`, seen from a cut at `n`. */
  lemma {:induction false} LastIndexSplit(s: string, n: nat, c: char)
    requires n <= |s|
    ensures LastIndexOf(s, c) ==
              if LastIndexOf(s[n..], c) >= 0 then n + LastIndexOf(s[n..], c) else LastIndexOf(s[..n], c)
  {
    assert s[..n] + s[n..] == s;
    LastIndexAppend(s[..n], s[n..], c);
  }

  /** Splitting at the first separator. */
  lemma {:induction false} SplitAt(a: string, b: string, c: char)
    requires c !in a
    ensures Split(a + [c] + b, c) == [a] + Split(b, c)
  {
    var s := a + [c] + b;
    if |a| == 0 {
      assert s == [c] + b;
      assert s[1..] == b;
    } else {
      assert s[1..] == a[1..] + [c] + b;
      assert c !in a[1..];
      SplitAt(a[1..], b, c);
      assert [a[0]] + a[1..] == a;
    }
  }

  /** A string without the separator splits into itself. */
  lemma {:induction false} SplitWithoutSeparator(s: string, c: char)
    requires c !in s
    ensures Split(s, c) == [s]
  {
    if |s| > 0 {
      assert c !in s[1..];
      SplitWithoutSeparator(s[1..], c);
      assert s == [s[0]] + s[1..];
    }
  }

  /** Strings that agree after a common prefix are equal. */
  lemma {:induction false} SamePrefix(p: string, a: string, b: string)
    requires p + a == p + b
    ensures a == b
  {
    assert a == (p + a)[|p|..];
    assert b == (p + b)[|p|..];
  }

  /** Strings that agree before a common suffix are equal. */
  lemma {:induction false} SameSuffix(a: string, b: string, t: string)
    requires a + t == b + t
    ensures a == b
  {
    assert a == (a + t)[..|a|];
    assert b == (b + t)[..|b|];
  }

  /** Splitting a join of separator-free parts gives the parts back. */
  lemma {:induction false} SplitJoin(parts: seq<string>, c: char)
    requires |parts| > 0
    requires forall i :: 0 <= i < |parts| ==> c !in parts[i]
    ensures Split(Join(parts, [c]), c) == parts
  {
    if |parts| == 1 {
      SplitWithoutSeparator(parts[0], c);
    } else {
      var rest := Join(parts[1..], [c]);
      assert Join(parts, [c]) == parts[0] + [c] + rest;
      SplitAt(parts[0], rest, c);
      SplitJoin(parts[1..], c);
      assert parts == [parts[0]] + parts[1..];
    }
  }
}
