/** Character-level string operations used to derive an LC's name, over
    ASCII `seq<char>`. */
module Strings {

  /** Number of occurrences of `c` in `s`. */
  function Occurrences(s: string, c: char): nat
  {
    if |s| == 0 then 0 else (if s[0] == c then 1 else 0) + Occurrences(s[1..], c)
  }

  lemma {:induction false} LemmaOccurrencesZero(s: string, c: char)
    ensures Occurrences(s, c) == 0 <==> c !in s
  {
    if |s| > 0 {
      LemmaOccurrencesZero(s[1..], c);
      assert s == [s[0]] + s[1..];
    }
  }

  lemma {:induction false} LemmaOccurrencesAppend(a: string, b: string, c: char)
    ensures Occurrences(a + b, c) == Occurrences(a, c) + Occurrences(b, c)
  {
    if |a| > 0 {
      assert (a + b)[1..] == a[1..] + b;
      LemmaOccurrencesAppend(a[1..], b, c);
    } else {
      assert a + b == b;
    }
  }

  /** The characters matched by the regular expression `[0-9]`. */
  predicate IsDigit(c: char)
  {
    '0' <= c <= '9'
  }

  predicate IsLower(c: char)
  {
    'a' <= c <= 'z'
  }

  predicate IsUpper(c: char)
  {
    'A' <= c <= 'Z'
  }

  /** ASCII upper-casing: a lower-case letter becomes its capital, every
      other character is left as it is. */
  function ToUpper(c: char): (r: char)
    ensures IsLower(c) ==> IsUpper(r) && r as int == c as int - 32
    ensures !IsLower(c) ==> r == c
  {
    if IsLower(c) then (c as int - 'a' as int + 'A' as int) as char else c
  }

  /** The part of `s` before the first `c`, or all of `s` when `c` does not
      occur: element 0 of JavaScript's `s.split(c)` for a one-character
      separator. */
  function PrefixBefore(s: string, c: char): (r: string)
    ensures r <= s
    ensures c !in r
    ensures |r| < |s| ==> s[|r|] == c
  {
    if |s| == 0 || s[0] == c then [] else [s[0]] + PrefixBefore(s[1..], c)
  }

  /** The three facts in PrefixBefore's contract determine its result. */
  lemma LemmaPrefixBeforeUnique(s: string, c: char, p: string)
    requires p <= s && c !in p
    requires |p| < |s| ==> s[|p|] == c
    ensures PrefixBefore(s, c) == p
  {
  }

  /** Whatever follows the first separator does not affect the prefix. */
  lemma LemmaPrefixBeforeIgnoresRest(s: string, c: char, rest: string)
    requires c !in s
    ensures PrefixBefore(s + [c] + rest, c) == s
    ensures PrefixBefore(s, c) == s
  {
    LemmaPrefixBeforeUnique(s + [c] + rest, c, s);
    LemmaPrefixBeforeUnique(s, c, s);
  }

  /** `s` with its first `from` replaced by `to` (JavaScript's
      `s.replace(from, to)` with a one-character string pattern); unchanged
      when `from` does not occur. */
  function ReplaceFirst(s: string, from: char, to: char): (r: string)
    ensures |r| == |s|
    ensures forall k :: 0 <= k < |s| ==>
              r[k] == (if k == |PrefixBefore(s, from)| then to else s[k])
  {
    var p := PrefixBefore(s, from);
    if |p| == |s| then s else p + [to] + s[|p| + 1..]
  }

  /** Replacing the first occurrence removes exactly one `from` when there
      is one, adds exactly one `to`, and leaves every other character's
      count alone. */
  lemma LemmaReplaceFirstOccurrences(s: string, from: char, to: char, c: char)
    requires from != to
    ensures c == from ==>
              Occurrences(ReplaceFirst(s, from, to), c) ==
              (if from in s then Occurrences(s, c) - 1 else Occurrences(s, c))
    ensures c == to ==>
              Occurrences(ReplaceFirst(s, from, to), c) ==
              (if from in s then Occurrences(s, c) + 1 else Occurrences(s, c))
    ensures c != from && c != to ==>
              Occurrences(ReplaceFirst(s, from, to), c) == Occurrences(s, c)
  {
    var p := PrefixBefore(s, from);
    if |p| < |s| {
      var rest := s[|p| + 1..];
      assert s == p + [from] + rest;
      LemmaOccurrencesAppend(p + [from], rest, c);
      LemmaOccurrencesAppend(p, [from], c);
      LemmaOccurrencesAppend(p + [to], rest, c);
      LemmaOccurrencesAppend(p, [to], c);
      LemmaOccurrencesZero(p, from);
    } else {
      assert p == s;
    }
  }

  /** Replacing in a string split at its first `from`. */
  lemma LemmaReplaceFirstAt(a: string, b: string, from: char, to: char)
    requires from !in a
    ensures ReplaceFirst(a + [from] + b, from, to) == a + [to] + b
    ensures ReplaceFirst(a, from, to) == a
  {
    LemmaPrefixBeforeIgnoresRest(a, from, b);
    var s := a + [from] + b;
    var r := ReplaceFirst(s, from, to);
    assert forall k :: 0 <= k < |s| ==> r[k] == (a + [to] + b)[k];
  }

  /** `s` with every decimal digit removed, other characters kept in order
      (JavaScript's `s.replace(/[0-9]/g, '')`). */
  function RemoveDigits(s: string): (r: string)
    ensures |r| <= |s|
    ensures forall k :: 0 <= k < |r| ==> !IsDigit(r[k])
  {
    if |s| == 0 then []
    else
      var rest := RemoveDigits(s[1..]);
      if IsDigit(s[0]) then rest else [s[0]] + rest
  }

  /** Digit removal keeps every other character, as often as it occurs. */
  lemma {:induction false} LemmaRemoveDigitsOccurrences(s: string, c: char)
    requires !IsDigit(c)
    ensures Occurrences(RemoveDigits(s), c) == Occurrences(s, c)
  {
    if |s| > 0 {
      LemmaRemoveDigitsOccurrences(s[1..], c);
      if !IsDigit(s[0]) {
        assert ([s[0]] + RemoveDigits(s[1..]))[1..] == RemoveDigits(s[1..]);
      }
    }
  }

  /** Digit removal works piecewise, so it keeps the order of the kept
      characters. */
  lemma {:induction false} LemmaRemoveDigitsAppend(a: string, b: string)
    ensures RemoveDigits(a + b) == RemoveDigits(a) + RemoveDigits(b)
  {
    if |a| == 0 {
      assert a + b == b;
    } else {
      assert (a + b)[1..] == a[1..] + b;
      LemmaRemoveDigitsAppend(a[1..], b);
    }
  }

  /** A string without digits is left as it is. */
  lemma {:induction false} LemmaRemoveDigitsNone(s: string)
    requires forall k :: 0 <= k < |s| ==> !IsDigit(s[k])
    ensures RemoveDigits(s) == s
  {
    if |s| > 0 {
      LemmaRemoveDigitsNone(s[1..]);
      assert s == [s[0]] + s[1..];
    }
  }

  /** `s` with its first character upper-cased and the rest unchanged
      (JavaScript's `s.charAt(0).toUpperCase() + s.slice(1)`); the empty
      string stays empty. */
  function Capitalize(s: string): (r: string)
    ensures |r| == |s|
    ensures |s| > 0 ==> r[0] == ToUpper(s[0]) && !IsLower(r[0])
    ensures forall k :: 1 <= k < |r| ==> r[k] == s[k]
  {
    if |s| == 0 then [] else [ToUpper(s[0])] + s[1..]
  }

  /** Capitalising keeps the count of every character that is not a letter. */
  lemma LemmaCapitalizeOccurrences(s: string, c: char)
    requires !IsLower(c) && !IsUpper(c)
    ensures Occurrences(Capitalize(s), c) == Occurrences(s, c)
  {
    if |s| > 0 {
      assert Capitalize(s)[1..] == s[1..];
    }
  }
}
