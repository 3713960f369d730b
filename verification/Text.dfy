/** Texts: splitting and joining at a separator, and lower case over the ASCII letters. */
module Text {
  function LowerChar(c: char): char {
    if 'A' <= c <= 'Z' then c - 'A' + 'a' else c
  }

  function Lower(s: string): (r: string)
    ensures |r| == |s|
  {
    seq(|s|, i requires 0 <= i < |s| => LowerChar(s[i]))
  }

  const UPPER := "ABCDEFGHIJKLMNOPQRSTUVWXYZ"
  const LOWER := "abcdefghijklmnopqrstuvwxyz"

  /** The letters of the two alphabets correspond, and no other character changes. */
  lemma LowerLetters(c: char, i: nat)
    requires i < |UPPER|
    ensures c !in UPPER ==> LowerChar(c) == c
    ensures LowerChar(UPPER[i]) == LOWER[i]
  {
    if 'A' <= c <= 'Z' {
      assert UPPER[c as int - 'A' as int] == c;
    }
  }

  function Split(s: string, sep: char): (parts: seq<string>)
    ensures |parts| >= 1
    decreases |s|
  {
    if s == "" then [""]
    else
      var rest := Split(s[1..], sep);
      if s[0] == sep then [""] + rest else [[s[0]] + rest[0]] + rest[1..]
  }

  function Join(parts: seq<string>, sep: char): string
    requires parts != []
    decreases |parts|
  {
    if |parts| == 1 then parts[0] else parts[0] + [sep] + Join(parts[1..], sep)
  }

  lemma {:induction false} SplitUnbroken(a: string, sep: char)
    requires sep !in a
    ensures Split(a, sep) == [a]
    decreases |a|
  {
    if a == "" {
    } else {
      SplitUnbroken(a[1..], sep);
      assert [a[0]] + a[1..] == a;
    }
  }

  lemma {:induction false} SplitFirst(a: string, s: string, sep: char)
    requires sep !in a
    ensures Split(a + [sep] + s, sep) == [a] + Split(s, sep)
    decreases |a|
  {
    var t := a + [sep] + s;
    if a == "" {
      assert t[0] == sep && t[1..] == s;
    } else {
      assert t[0] == a[0] && t[1..] == a[1..] + [sep] + s;
      SplitFirst(a[1..], s, sep);
      assert [a[0]] + a[1..] == a;
      assert ([a[1..]] + Split(s, sep))[1..] == Split(s, sep);
    }
  }

  /** Parts without the separator come back from a split of their join. */
  lemma {:induction false} SplitOfJoin(parts: seq<string>, sep: char)
    requires parts != [] && forall i :: 0 <= i < |parts| ==> sep !in parts[i]
    ensures Split(Join(parts, sep), sep) == parts
    decreases |parts|
  {
    if |parts| == 1 {
      SplitUnbroken(parts[0], sep);
    } else {
      SplitFirst(parts[0], Join(parts[1..], sep), sep);
      SplitOfJoin(parts[1..], sep);
    }
  }

  /** So such parts are determined by their join. */
  lemma JoinInjective(a: seq<string>, b: seq<string>, sep: char)
    requires a != [] && forall i :: 0 <= i < |a| ==> sep !in a[i]
    requires b != [] && forall i :: 0 <= i < |b| ==> sep !in b[i]
    ensures Join(a, sep) == Join(b, sep) <==> a == b
  {
    SplitOfJoin(a, sep);
    SplitOfJoin(b, sep);
  }

  /** No part of a split has the separator, and joining the parts gives the text back. */
  lemma {:induction false} JoinOfSplit(s: string, sep: char)
    ensures Join(Split(s, sep), sep) == s
    ensures forall i :: 0 <= i < |Split(s, sep)| ==> sep !in Split(s, sep)[i]
    decreases |s|
  {
    if s == "" {
    } else {
      JoinOfSplit(s[1..], sep);
      var rest := Split(s[1..], sep);
      if s[0] == sep {
        assert ([""] + rest)[1..] == rest;
      } else {
        assert ([[s[0]] + rest[0]] + rest[1..])[1..] == rest[1..];
      }
    }
  }

  /** A text is cut in one way before a last part without the separator. */
  lemma LastPartUnique(a: string, c: string, b: string, d: string, sep: char)
    requires sep !in c && sep !in d && a + [sep] + c == b + [sep] + d
    ensures a == b && c == d
  {
    var s, t := a + [sep] + c, b + [sep] + d;
    assert s[|a|] == sep && t[|b|] == sep;
    forall j | |a| < j < |s| ensures s[j] != sep {
      assert s[j] == c[j - |a| - 1];
    }
    forall j | |b| < j < |t| ensures t[j] != sep {
      assert t[j] == d[j - |b| - 1];
    }
    assert a == s[..|a|] && b == t[..|b|] && c == s[|a| + 1..] && d == t[|b| + 1..];
  }
}
