/**
 * String helpers shared by the model: the JavaScript string methods the
 * application relies on (`trim`, `toLowerCase`, `includes`, `startsWith`,
 * `endsWith`, `slice(0, n)`, `replace`, `join`), stated on `seq<char>`.
 */
module Text {

  /** The characters JavaScript's `trim` and the regular expression `\s` treat as white space. */
  predicate IsSpace(c: char)
  {
    var n := c as int;
    n == 0x20 || (0x09 <= n <= 0x0D) || n == 0xA0 || n == 0x1680 ||
    (0x2000 <= n <= 0x200A) || n == 0x2028 || n == 0x2029 || n == 0x202F ||
    n == 0x205F || n == 0x3000 || n == 0xFEFF
  }

  predicate IsBlank(s: string)
  {
    forall i :: 0 <= i < |s| ==> IsSpace(s[i])
  }

  /** `toLowerCase` on one character (ASCII and Latin-1 capitals). */
  function LowerChar(c: char): (r: char)
  {
    var n := c as int;
    if 0x41 <= n <= 0x5A || (0xC0 <= n <= 0xDE && n != 0xD7) then (n + 32) as char else c
  }

  function Lower(s: string): (r: string)
    ensures |r| == |s|
    ensures forall i :: 0 <= i < |s| ==> r[i] == LowerChar(s[i])
  {
    if s == [] then [] else [LowerChar(s[0])] + Lower(s[1..])
  }

  function TrimStart(s: string): (r: string)
    ensures |r| <= |s| && r == s[|s| - |r|..]
    ensures r == [] || !IsSpace(r[0])
    decreases |s|
  {
    if s != [] && IsSpace(s[0]) then TrimStart(s[1..]) else s
  }

  function TrimEnd(s: string): (r: string)
    ensures |r| <= |s| && r == s[..|r|]
    ensures r == [] || !IsSpace(r[|r| - 1])
    decreases |s|
  {
    if s != [] && IsSpace(s[|s| - 1]) then TrimEnd(s[..|s| - 1]) else s
  }

  /** `String.prototype.trim`. */
  function Trim(s: string): (r: string)
    ensures |r| <= |s|
    ensures r == [] || (!IsSpace(r[0]) && !IsSpace(r[|r| - 1]))
  {
    TrimEnd(TrimStart(s))
  }

  /** `includes`: `t` occurs as a contiguous piece of `s`. */
  predicate Contains(s: string, t: string)
  {
    exists i :: 0 <= i <= |s| && t <= s[i..]
  }

  /** Every character of a piece that occurs in `s` is a character of `s`. */
  lemma {:induction false} ContainsChars(s: string, t: string, c: char)
    requires Contains(s, t) && c in t
    ensures c in s
  {
    var i :| 0 <= i <= |s| && t <= s[i..];
    var j :| 0 <= j < |t| && t[j] == c;
    assert s[i + j] == c;
  }

  lemma {:induction false} NotContains(s: string, t: string, c: char)
    requires c in t && c !in s
    ensures !Contains(s, t)
  {
    if Contains(s, t) {
      ContainsChars(s, t, c);
    }
  }

  predicate StartsWith(s: string, p: string) { p <= s }

  predicate EndsWith(s: string, suffix: string)
  {
    |suffix| <= |s| && s[|s| - |suffix|..] == suffix
  }

  /** `slice(0, n)` / `substring(0, n)` for a non-negative `n`. */
  function Take(s: string, n: nat): (r: string)
    ensures |r| == if n < |s| then n else |s|
    ensures r <= s
  {
    if n < |s| then s[..n] else s
  }

  /** `replace(/a/g, b)` for a single character `a`. */
  function ReplaceAllChar(s: string, a: char, b: char): (r: string)
    ensures |r| == |s|
    ensures forall i :: 0 <= i < |s| ==> r[i] == (if s[i] == a then b else s[i])
  {
    if s == [] then [] else [if s[0] == a then b else s[0]] + ReplaceAllChar(s[1..], a, b)
  }

  /** `replace(a, b)` with a one-character string pattern: only the first `a` changes. */
  function ReplaceFirstChar(s: string, a: char, b: char): (r: string)
    ensures |r| == |s|
  {
    if s == [] then []
    else if s[0] == a then [b] + s[1..]
    else [s[0]] + ReplaceFirstChar(s[1..], a, b)
  }

  /** `Array.prototype.join(sep)` on strings. */
  function Join(parts: seq<string>, sep: string): string
  {
    if parts == [] then ""
    else if |parts| == 1 then parts[0]
    else parts[0] + sep + Join(parts[1..], sep)
  }

  function DigitChar(d: nat): char
    requires d < 10
  {
    ('0' as int + d) as char
  }

  /** Decimal rendering of an integer, as `String(n)` prints it. */
  function NatToString(n: nat): (r: string)
    ensures r != []
    decreases n
  {
    if n < 10 then [DigitChar(n)] else NatToString(n / 10) + [DigitChar(n % 10)]
  }

  function IntToString(n: int): string
  {
    if n < 0 then "-" + NatToString(-n) else NatToString(n)
  }

  /** A printed integer holds only digits and a leading minus sign. */
  lemma {:induction false} NatToStringDigits(n: nat)
    ensures forall i :: 0 <= i < |NatToString(n)| ==> '0' <= NatToString(n)[i] <= '9'
    decreases n
  {
    if n >= 10 {
      NatToStringDigits(n / 10);
    }
  }

  lemma {:induction false} IntToStringChars(n: int)
    ensures forall i :: 0 <= i < |IntToString(n)| ==> IntToString(n)[i] == '-' || '0' <= IntToString(n)[i] <= '9'
  {
    NatToStringDigits(if n < 0 then -n else n);
  }

  /** The pieces written one after another, as repeated `+=` leaves them. */
  function Concat(parts: seq<string>): string
  {
    if parts == [] then "" else Concat(parts[..|parts| - 1]) + parts[|parts| - 1]
  }

  lemma AppendAssoc(a: string, b: string, c: string)
    ensures (a + b) + c == a + (b + c)
  {
  }

  lemma {:induction false} ConcatSnoc(parts: seq<string>, i: nat)
    requires i < |parts|
    ensures Concat(parts[..i + 1]) == Concat(parts[..i]) + parts[i]
  {
    assert parts[..i + 1][..i] == parts[..i];
  }

  lemma {:induction false} ConcatCons(parts: seq<string>)
    requires parts != []
    ensures Concat(parts) == parts[0] + Concat(parts[1..])
  {
    if |parts| > 1 {
      var init := parts[..|parts| - 1];
      ConcatCons(init);
      assert init[1..] == parts[1..][..|parts| - 2];
      AppendAssoc(parts[0], Concat(init[1..]), parts[|parts| - 1]);
    } else {
      assert parts[..0] == [] && parts[1..] == [];
    }
  }

  /** The pieces before position `k` form a prefix of the whole. */
  lemma {:induction false} ConcatPrefix(parts: seq<string>, k: nat)
    requires k <= |parts|
    ensures Concat(parts[..k]) <= Concat(parts)
    decreases |parts|
  {
    if k < |parts| {
      ConcatPrefix(parts[..|parts| - 1], k);
      assert parts[..|parts| - 1][..k] == parts[..k];
    } else {
      assert parts[..k] == parts;
    }
  }

  /** The first `k` parts, joined, are a prefix of all of them joined. */
  lemma {:induction false} JoinPrefix(parts: seq<string>, k: nat, sep: string)
    requires 1 <= k <= |parts|
    ensures Join(parts[..k], sep) <= Join(parts, sep)
  {
    if k > 1 {
      JoinPrefix(parts[1..], k - 1, sep);
      assert parts[..k][1..] == parts[1..][..k - 1];
      AppendAssoc(parts[0], sep, Join(parts[..k][1..], sep));
      AppendAssoc(parts[0], sep, Join(parts[1..], sep));
    }
  }
  /** `replaceAll(c, rep)` / `replace(/c/g, rep)` for a single character `c`: every `c` becomes `rep`. */
  function ReplaceAll(s: string, c: char, rep: string): string
  {
    if s == [] then [] else (if s[0] == c then rep else [s[0]]) + ReplaceAll(s[1..], c, rep)
  }

  /** Replacing all occurrences works piece by piece. */
  lemma {:induction false} ReplaceAllAppend(a: string, b: string, c: char, rep: string)
    ensures ReplaceAll(a + b, c, rep) == ReplaceAll(a, c, rep) + ReplaceAll(b, c, rep)
  {
    if a == [] {
      assert a + b == b;
    } else {
      assert (a + b)[0] == a[0] && (a + b)[1..] == a[1..] + b;
      ReplaceAllAppend(a[1..], b, c, rep);
    }
  }

  /** A text without `c` comes through `ReplaceAll` unchanged. */
  lemma {:induction false} ReplaceAllAbsent(s: string, c: char, rep: string)
    requires forall i :: 0 <= i < |s| ==> s[i] != c
    ensures ReplaceAll(s, c, rep) == s
  {
    if s != [] {
      ReplaceAllAbsent(s[1..], c, rep);
    }
  }

  /** `replace(a, b)` changes the first `a` only: at its first position `k`, and nowhere else. */
  lemma {:induction false} ReplaceFirstSplit(s: string, a: char, b: char, k: nat)
    requires k < |s| && s[k] == a && forall j :: 0 <= j < k ==> s[j] != a
    ensures ReplaceFirstChar(s, a, b) == s[..k] + [b] + s[k + 1..]
  {
    if k > 0 {
      ReplaceFirstSplit(s[1..], a, b, k - 1);
      assert s[1..][..k - 1] == s[1..k] && s[1..][k..] == s[k + 1..];
      assert s[..k] == [s[0]] + s[1..k];
    }
  }

  /** With no `a` in it, `replace(a, b)` leaves the text as it is. */
  lemma {:induction false} ReplaceFirstAbsent(s: string, a: char, b: char)
    requires forall j :: 0 <= j < |s| ==> s[j] != a
    ensures ReplaceFirstChar(s, a, b) == s
  {
    if s != [] {
      ReplaceFirstAbsent(s[1..], a, b);
    }
  }

  /** `split(sep)` for a one-character separator: the pieces between separators, in order. */
  function Split(s: string, sep: char): (r: seq<string>)
    ensures |r| >= 1
  {
    if s == [] then [""]
    else
      var rest := Split(s[1..], sep);
      if s[0] == sep then [""] + rest else [[s[0]] + rest[0]] + rest[1..]
  }

  /** Splitting a text that starts with a separator gives an empty first piece. */
  lemma SplitAtSep(s: string, sep: char)
    requires s != [] && s[0] == sep
    ensures Split(s, sep) == [""] + Split(s[1..], sep)
  {
  }

  /** Splitting a text that starts with another character extends the first piece of the rest. */
  lemma SplitAtOther(s: string, sep: char)
    requires s != [] && s[0] != sep
    ensures Split(s, sep)[0] == [s[0]] + Split(s[1..], sep)[0]
    ensures Split(s, sep)[1..] == Split(s[1..], sep)[1..]
  {
  }

  /** Joining a first piece and the rest of a list. */
  lemma JoinCons(parts: seq<string>, sep: string)
    requires |parts| >= 1
    ensures Join(parts, sep) == if |parts| == 1 then parts[0] else parts[0] + sep + Join(parts[1..], sep)
  {
  }

  /** Joining the pieces back with the separator gives the text. */
  lemma {:induction false} SplitJoinBack(s: string, sep: char)
    ensures Join(Split(s, sep), [sep]) == s
  {
    if s != [] {
      var rest := Split(s[1..], sep);
      var r := Split(s, sep);
      assert Join(rest, [sep]) == s[1..] by { SplitJoinBack(s[1..], sep); }
      if s[0] == sep {
        SplitJoinSep(s, sep, rest, r);
      } else {
        SplitJoinOther(s, sep, rest, r);
      }
    }
  }

  /** The step of `SplitJoinBack` for a text that starts with the separator. */
  lemma SplitJoinSep(s: string, sep: char, rest: seq<string>, r: seq<string>)
    requires s != [] && s[0] == sep
    requires rest == Split(s[1..], sep) && r == Split(s, sep)
    requires Join(rest, [sep]) == s[1..]
    ensures Join(r, [sep]) == s
  {
    SplitAtSep(s, sep);
    JoinCons(r, [sep]);
    assert r[1..] == rest;
    assert s == [s[0]] + s[1..];
  }

  /** The step of `SplitJoinBack` for a first character that is not the separator. */
  lemma SplitJoinOther(s: string, sep: char, rest: seq<string>, r: seq<string>)
    requires s != [] && s[0] != sep
    requires rest == Split(s[1..], sep) && r == Split(s, sep)
    requires Join(rest, [sep]) == s[1..]
    ensures Join(r, [sep]) == s
  {
    SplitAtOther(s, sep);
    JoinCons(r, [sep]);
    JoinCons(rest, [sep]);
    assert s == [s[0]] + s[1..];
    if |rest| > 1 {
      var tail := [sep] + Join(rest[1..], [sep]);
      assert r[1..] == rest[1..];
      assert Join(r, [sep]) == ([s[0]] + rest[0]) + tail by {
        AppendAssoc([s[0]] + rest[0], [sep], Join(rest[1..], [sep]));
      }
      assert s[1..] == rest[0] + tail by {
        AppendAssoc(rest[0], [sep], Join(rest[1..], [sep]));
      }
      AppendAssoc([s[0]], rest[0], tail);
    }
  }

  /** No piece holds the separator. */
  lemma {:induction false} SplitPiecesClean(s: string, sep: char)
    ensures forall p, i :: p in Split(s, sep) && 0 <= i < |p| ==> p[i] != sep
  {
    if s != [] {
      var rest := Split(s[1..], sep);
      SplitPiecesClean(s[1..], sep);
      if s[0] == sep {
        SplitAtSep(s, sep);
      } else {
        var r := Split(s, sep);
        SplitAtOther(s, sep);
        forall p, i | p in r && 0 <= i < |p| ensures p[i] != sep {
          if p != r[0] {
            assert p in r[1..];
            assert p in rest;
          } else if i > 0 {
            assert p[i] == rest[0][i - 1];
          }
        }
      }
    }
  }

  /** No piece holds the separator, and joining the pieces back with it gives the text. */
  lemma {:induction false} SplitJoin(s: string, sep: char)
    ensures Join(Split(s, sep), [sep]) == s
    ensures forall p, i :: p in Split(s, sep) && 0 <= i < |p| ==> p[i] != sep
  {
    SplitJoinBack(s, sep);
    SplitPiecesClean(s, sep);
  }

  /** Replacing `c` by a text without `c` leaves no `c` behind. */
  lemma {:induction false} ReplaceAllRemoves(s: string, c: char, rep: string)
    requires forall i :: 0 <= i < |rep| ==> rep[i] != c
    ensures forall i :: 0 <= i < |ReplaceAll(s, c, rep)| ==> ReplaceAll(s, c, rep)[i] != c
  {
    if s != [] {
      ReplaceAllRemoves(s[1..], c, rep);
    }
  }

  /** A text is blank exactly when its first character is white space and the rest is blank. */
  lemma {:induction false} BlankCons(s: string)
    requires s != []
    ensures IsBlank(s) <==> IsSpace(s[0]) && IsBlank(s[1..])
  {
    if IsSpace(s[0]) && IsBlank(s[1..]) {
      forall i | 1 <= i < |s|
        ensures IsSpace(s[i])
      {
        assert s[i] == s[1..][i - 1];
      }
    }
    if IsBlank(s) {
      forall i | 0 <= i < |s| - 1
        ensures IsSpace(s[1..][i])
      {
        assert s[1..][i] == s[i + 1];
      }
    }
  }

  lemma {:induction false} TrimStartBlank(s: string)
    ensures TrimStart(s) == [] <==> IsBlank(s)
  {
    if s != [] {
      BlankCons(s);
      if IsSpace(s[0]) {
        TrimStartBlank(s[1..]);
      }
    }
  }

  /** `trim()` leaves nothing exactly when the text is all white space. */
  lemma {:induction false} TrimBlank(s: string)
    ensures Trim(s) == [] <==> IsBlank(s)
  {
    TrimStartBlank(s);
    var t := TrimStart(s);
    if t != [] {
      assert !IsSpace(t[0]);
      assert TrimEnd(t) != [] by {
        if TrimEnd(t) == [] {
          TrimEndEmpty(t);
        }
      }
    }
  }

  lemma {:induction false} TrimEndEmpty(t: string)
    requires TrimEnd(t) == []
    ensures IsBlank(t)
    decreases |t|
  {
    if t != [] {
      TrimEndEmpty(t[..|t| - 1]);
      forall i | 0 <= i < |t| ensures IsSpace(t[i]) {
        if i < |t| - 1 { assert t[i] == t[..|t| - 1][i]; }
      }
    }
  }
}
