/** The handful of Python string operations the command-line layer relies on. */
module Text {

  /** The ASCII part of `str.lower()` for one character. */
  function LowerChar(c: char): char {
    if 'A' <= c <= 'Z' then (c as int - 'A' as int + 'a' as int) as char else c
  }

  /** `s.lower()`, restricted to ASCII letters. */
  function Lower(s: string): (r: string)
    ensures |r| == |s|
    ensures forall i :: 0 <= i < |s| ==> r[i] == LowerChar(s[i])
  {
    if s == [] then [] else [LowerChar(s[0])] + Lower(s[1..])
  }

  /** The characters whose lower-case form is `c`, for a lower-case ASCII letter or a digit. */
  lemma LowerCharIs(x: char, c: char)
    requires 'a' <= c <= 'z' || '0' <= c <= '9'
    ensures LowerChar(x) == c <==> x == c || ('a' <= c <= 'z' && x as int == c as int - 32)
  {
  }

  /** Number of occurrences of `c` in `s`. */
  function Count(s: string, c: char): (n: nat)
    ensures n <= |s|
    ensures n == 0 <==> c !in s
  {
    if s == [] then 0 else (if s[0] == c then 1 else 0) + Count(s[1..], c)
  }

  /** `sep.join(parts)`. */
  function JoinWith(sep: string, parts: seq<string>): (r: string)
    ensures |parts| == 0 ==> r == []
    ensures |parts| == 1 ==> r == parts[0]
  {
    if |parts| == 0 then []
    else if |parts| == 1 then parts[0]
    else parts[0] + sep + JoinWith(sep, parts[1..])
  }

  /**
   * Joining two non-empty runs of parts is joining each and putting one separator
   * between them; with the one-part case this fixes `sep.join` completely.
   */
  lemma {:induction false} JoinWithAppend(sep: string, a: seq<string>, b: seq<string>)
    requires |a| >= 1 && |b| >= 1
    ensures JoinWith(sep, a + b) == JoinWith(sep, a) + sep + JoinWith(sep, b)
  {
    assert (a + b)[0] == a[0];
    if |a| == 1 {
      assert (a + b)[1..] == b;
    } else {
      assert (a + b)[1..] == a[1..] + b;
      JoinWithAppend(sep, a[1..], b);
    }
  }

  /** A non-empty join starts with its first part. */
  lemma JoinWithPrefix(sep: string, parts: seq<string>)
    requires |parts| >= 1
    ensures parts[0] <= JoinWith(sep, parts)
  {
  }

  /** Total length of the parts. */
  function TotalLength(parts: seq<string>): nat {
    if parts == [] then 0 else |parts[0]| + TotalLength(parts[1..])
  }

  /** A join is as long as its parts plus one separator between each two. */
  lemma {:induction false} JoinWithLength(sep: string, parts: seq<string>)
    requires |parts| >= 1
    ensures |JoinWith(sep, parts)| == TotalLength(parts) + (|parts| - 1) * |sep|
  {
    if |parts| > 1 {
      JoinWithLength(sep, parts[1..]);
    }
  }

  /** `s.split(sep)` for a one-character separator: splits at every occurrence, keeps empty parts. */
  function Split(s: string, sep: char): (parts: seq<string>)
    ensures |parts| == Count(s, sep) + 1
    ensures forall i :: 0 <= i < |parts| ==> sep !in parts[i]
  {
    if s == [] then [[]]
    else
      var rest := Split(s[1..], sep);
      if s[0] == sep then [[]] + rest
      else [[s[0]] + rest[0]] + rest[1..]
  }

  /** Joining the parts of a split with the separator gives back the string. */
  lemma {:induction false} JoinSplit(s: string, sep: char)
    ensures JoinWith([sep], Split(s, sep)) == s
  {
    if s != [] {
      var rest := Split(s[1..], sep);
      JoinSplit(s[1..], sep);
      JoinSplitHead(s[0], s[1..], sep, rest, Split(s, sep));
      assert [s[0]] + s[1..] == s;
    }
  }

  /** The step of `JoinSplit`: the parts of `c` followed by `tail` join to `[c] + tail`. */
  lemma JoinSplitHead(c: char, tail: string, sep: char, rest: seq<string>, parts: seq<string>)
    requires |rest| >= 1 && JoinWith([sep], rest) == tail
    requires parts == if c == sep then [[]] + rest else [[c] + rest[0]] + rest[1..]
    ensures JoinWith([sep], parts) == [c] + tail
  {
    if c == sep {
      JoinCons([sep], [], rest);
    } else {
      JoinGlue([sep], c, rest);
    }
  }

  /** One more part in front: the part, then the separator, then the join of the rest. */
  lemma JoinCons(sep: string, part: string, parts: seq<string>)
    requires |parts| >= 1
    ensures JoinWith(sep, [part] + parts) == part + sep + JoinWith(sep, parts)
  {
    assert ([part] + parts)[1..] == parts;
  }

  /** A character glued to the front of the first part ends up in front of the join. */
  lemma {:induction false} JoinGlue(sep: string, c: char, parts: seq<string>)
    requires |parts| >= 1
    ensures JoinWith(sep, [[c] + parts[0]] + parts[1..]) == [c] + JoinWith(sep, parts)
  {
    if |parts| == 1 {
      assert [[c] + parts[0]] + parts[1..] == [[c] + parts[0]];
    } else {
      JoinCons(sep, [c] + parts[0], parts[1..]);
      JoinCons(sep, parts[0], parts[1..]);
      assert [parts[0]] + parts[1..] == parts;
    }
  }

  /** Splitting a join of separator-free parts gives back the parts. */
  lemma {:induction false} SplitJoin(parts: seq<string>, sep: char)
    requires |parts| >= 1
    requires forall i :: 0 <= i < |parts| ==> sep !in parts[i]
    ensures Split(JoinWith([sep], parts), sep) == parts
  {
    if |parts| == 1 {
      SplitFree(parts[0], sep);
    } else {
      SplitJoin(parts[1..], sep);
      SplitPrefix(parts[0], [sep] + JoinWith([sep], parts[1..]), sep);
      assert parts[0] + [sep] + JoinWith([sep], parts[1..]) == parts[0] + ([sep] + JoinWith([sep], parts[1..]));
      var tail := JoinWith([sep], parts[1..]);
      assert ([sep] + tail)[1..] == tail;
      assert parts == [parts[0]] + parts[1..];
    }
  }

  /** A separator-free string splits into itself. */
  lemma {:induction false} SplitFree(s: string, sep: char)
    requires sep !in s
    ensures Split(s, sep) == [s]
  {
    if s != [] {
      SplitFree(s[1..], sep);
      assert s == [s[0]] + s[1..];
    }
  }

  /** A separator-free prefix glues onto the first part of what follows. */
  lemma {:induction false} SplitPrefix(p: string, t: string, sep: char)
    requires sep !in p
    requires t != [] && t[0] == sep
    ensures Split(p + t, sep) == [p] + Split(t[1..], sep)
  {
    if p == [] {
      assert p + t == t;
    } else {
      assert (p + t)[1..] == p[1..] + t;
      SplitPrefix(p[1..], t, sep);
      assert p == [p[0]] + p[1..];
    }
  }

  /** `s.ljust(width)`: pads with spaces on the right to `width`, never truncates. */
  function LJust(s: string, width: nat): (r: string)
    ensures |r| == if |s| < width then width else |s|
    ensures r[..|s|] == s
    ensures forall i :: |s| <= i < |r| ==> r[i] == ' '
  {
    if |s| < width then s + Spaces(width - |s|) else s
  }

  function Spaces(n: nat): (r: string)
    ensures |r| == n
    ensures forall i :: 0 <= i < n ==> r[i] == ' '
  {
    if n == 0 then [] else [' '] + Spaces(n - 1)
  }

  /** `str(b)` for a Python bool. */
  function BoolStr(b: bool): (r: string)
    ensures r == "True" || r == "False"
    ensures b <==> r == "True"
  {
    if b then "True" else "False"
  }

  /** `str(n)` for a Python int: decimal digits, with a leading minus sign when negative. */
  function IntStr(n: int): (r: string)
    ensures r != []
    ensures n >= 0 ==> forall i :: 0 <= i < |r| ==> '0' <= r[i] <= '9'
    ensures n < 0 ==> r[0] == '-'
  {
    if n < 0 then "-" + NatStr(-n) else NatStr(n)
  }

  function NatStr(n: nat): (r: string)
    ensures r != []
    ensures forall i :: 0 <= i < |r| ==> '0' <= r[i] <= '9'
    decreases n
  {
    var d := ['0' + (n % 10) as char];
    if n < 10 then d else NatStr(n / 10) + d
  }

  /** The number a string of decimal digits denotes. */
  function DigitsValue(s: string): nat
    requires forall i :: 0 <= i < |s| ==> '0' <= s[i] <= '9'
  {
    if s == [] then 0
    else DigitsValue(s[..|s| - 1]) * 10 + (s[|s| - 1] as int - '0' as int)
  }

  /** The digits of `NatStr(n)` denote `n`, and there is no leading zero. */
  lemma {:induction false} NatStrValue(n: nat)
    ensures DigitsValue(NatStr(n)) == n
    ensures |NatStr(n)| > 1 ==> NatStr(n)[0] != '0'
    decreases n
  {
    var r := NatStr(n);
    if n >= 10 {
      var p := NatStr(n / 10);
      NatStrValue(n / 10);
      assert r == p + ['0' + (n % 10) as char];
      assert r[..|r| - 1] == p;
      if |p| == 1 {
        assert p[0] as int - '0' as int == n / 10;
      }
    }
  }

  /** `str(n)` denotes `n`: its digits give `n`, after a minus sign when `n` is negative. */
  lemma IntStrValue(n: int)
    ensures n >= 0 ==> DigitsValue(IntStr(n)) == n
    ensures n < 0 ==> IntStr(n)[0] == '-' && IntStr(n)[1..] == NatStr(-n) && DigitsValue(IntStr(n)[1..]) == -n
    ensures |IntStr(n)| > 1 && IntStr(n)[0] != '-' ==> IntStr(n)[0] != '0'
  {
    if n < 0 {
      NatStrValue(-n);
      assert IntStr(n)[1..] == NatStr(-n);
    } else {
      NatStrValue(n);
    }
  }
}
