/** The java.lang.String operations the analysers rely on, at character level. */
module Strings {

  /** java.lang.String.trim removes every leading and trailing code point up to U+0020. */
  predicate IsSpace(c: char) { c <= ' ' }

  function TrimStart(s: string): (r: string)
    ensures |r| <= |s| && r == s[|s| - |r|..]
    ensures forall k :: 0 <= k < |s| - |r| ==> IsSpace(s[k])
    ensures r == [] || !IsSpace(r[0])
  {
    if s != [] && IsSpace(s[0]) then TrimStart(s[1..]) else s
  }

  function TrimEnd(s: string): (r: string)
    ensures |r| <= |s| && r == s[..|r|]
    ensures forall k :: |r| <= k < |s| ==> IsSpace(s[k])
    ensures r == [] || !IsSpace(r[|r| - 1])
  {
    if s != [] && IsSpace(s[|s| - 1]) then TrimEnd(s[..|s| - 1]) else s
  }

  /** java.lang.String.trim */
  function Trim(s: string): (r: string)
    ensures |r| <= |s|
    ensures r == [] || (!IsSpace(r[0]) && !IsSpace(r[|r| - 1]))
  {
    TrimEnd(TrimStart(s))
  }

  /** Trimming cuts s down to an infix: every character removed, at either end, is one
      trim removes, and nothing inside is touched. */
  lemma TrimInfix(s: string)
    ensures var i := |s| - |TrimStart(s)|;
            i + |Trim(s)| <= |s| && Trim(s) == s[i..i + |Trim(s)|]
            && forall k :: 0 <= k < i || i + |Trim(s)| <= k < |s| ==> IsSpace(s[k])
  {
    var t := TrimStart(s);
    var i := |s| - |t|;
    var r := Trim(s);
    assert t == s[i..];
    assert r == t[..|r|];
    forall k | i + |r| <= k < |s|
      ensures IsSpace(s[k])
    {
      assert s[k] == t[k - i];
    }
  }

  lemma TrimIdempotent(s: string)
    ensures Trim(Trim(s)) == Trim(s)
  {
    TrimmedIsFixed(Trim(s));
  }

  /** A string that has nothing to trim is its own trimmed form. */
  lemma TrimmedIsFixed(s: string)
    requires s == [] || (!IsSpace(s[0]) && !IsSpace(s[|s| - 1]))
    ensures Trim(s) == s
  {
  }

  predicate EndsWith(s: string, c: char) { |s| > 0 && s[|s| - 1] == c }

  /** String.startsWith: a raw character prefix, with no regard to segment boundaries. */
  predicate StartsWith(s: string, prefix: string) { prefix <= s }

  /** String.replace(c, "") for a single character c: every occurrence removed. */
  function RemoveChar(s: string, c: char): (r: string)
    ensures c !in r
    ensures |r| <= |s|
    ensures forall x :: x in r ==> x in s
    decreases |s|
  {
    if s == [] then []
    else (if s[0] == c then [] else [s[0]]) + RemoveChar(s[1..], c)
  }

  lemma {:induction false} RemoveCharAbsent(s: string, c: char)
    requires c !in s
    ensures RemoveChar(s, c) == s
    decreases |s|
  {
    if s != [] {
      RemoveCharAbsent(s[1..], c);
    }
  }

  /** Splitting at every occurrence of c, keeping every (possibly empty) piece. */
  function Split(s: string, c: char): (parts: seq<string>)
    ensures |parts| >= 1
    decreases |s|
  {
    if s == [] then [[]]
    else
      var rest := Split(s[1..], c);
      if s[0] == c then [[]] + rest else [[s[0]] + rest[0]] + rest[1..]
  }

  /** No piece holds the separator. */
  lemma {:induction false} SplitPieces(s: string, c: char)
    ensures forall i :: 0 <= i < |Split(s, c)| ==> c !in Split(s, c)[i]
    decreases |s|
  {
    if s != [] {
      SplitPieces(s[1..], c);
      var rest := Split(s[1..], c);
      if s[0] != c {
        assert forall i :: 1 <= i < |Split(s, c)| ==> Split(s, c)[i] == rest[i];
      } else {
        assert forall i :: 1 <= i < |Split(s, c)| ==> Split(s, c)[i] == rest[i - 1];
      }
    }
  }

  /** String.join with a one-character separator. */
  function Join(parts: seq<string>, c: char): string
    decreases |parts|
  {
    if parts == [] then []
    else if |parts| == 1 then parts[0]
    else parts[0] + [c] + Join(parts[1..], c)
  }

  lemma JoinConsHead(x: char, p: string, ps: seq<string>, c: char)
    ensures Join([[x] + p] + ps, c) == [x] + Join([p] + ps, c)
  {
    if ps != [] {
      assert ([[x] + p] + ps)[1..] == ps;
      assert ([p] + ps)[1..] == ps;
    }
  }

  /** Joining one more piece appends the separator and the piece. */
  lemma {:induction false} JoinSnoc(parts: seq<string>, t: string, c: char)
    requires |parts| >= 1
    ensures Join(parts + [t], c) == Join(parts, c) + [c] + t
    decreases |parts|
  {
    if |parts| > 1 {
      JoinSnoc(parts[1..], t, c);
      assert (parts + [t])[1..] == parts[1..] + [t];
    }
  }

  /** Joining the pieces back with the separator restores the string. */
  lemma {:induction false} JoinSplit(s: string, c: char)
    ensures Join(Split(s, c), c) == s
    decreases |s|
  {
    if s != [] {
      var rest := Split(s[1..], c);
      JoinSplit(s[1..], c);
      if s[0] == c {
        assert ([[]] + rest)[1..] == rest;
      } else {
        assert [rest[0]] + rest[1..] == rest;
        JoinConsHead(s[0], rest[0], rest[1..], c);
      }
    }
  }

  /** A piece without the separator, followed by the separator, splits off as one piece. */
  lemma {:induction false} SplitPiece(p: string, t: string, c: char)
    requires c !in p
    ensures Split(p + [c] + t, c) == [p] + Split(t, c)
    decreases |p|
  {
    if p == [] {
      assert p + [c] + t == [c] + t;
    } else {
      assert (p + [c] + t)[1..] == p[1..] + [c] + t;
      SplitPiece(p[1..], t, c);
      assert [p[0]] + p[1..] == p;
    }
  }

  /** Splitting undoes joining when no piece holds the separator. */
  lemma {:induction false} SplitJoin(parts: seq<string>, c: char)
    requires |parts| >= 1 && forall i :: 0 <= i < |parts| ==> c !in parts[i]
    ensures Split(Join(parts, c), c) == parts
    decreases |parts|
  {
    if |parts| == 1 {
      SplitWithout(parts[0], c);
    } else {
      SplitJoin(parts[1..], c);
      SplitPiece(parts[0], Join(parts[1..], c), c);
    }
  }

  /** A string without the separator is a single piece. */
  lemma {:induction false} SplitWithout(s: string, c: char)
    requires c !in s
    ensures Split(s, c) == [s]
    decreases |s|
  {
    if s != [] {
      SplitWithout(s[1..], c);
      assert s[0] != c;
      assert [s[0]] + s[1..] == s;
    }
  }

  /** String.split undoes String.join when the pieces hold no separator and the last one is
      not empty. */
  lemma JavaSplitJoin(parts: seq<string>, c: char)
    requires |parts| >= 1 && parts[|parts| - 1] != []
    requires forall i :: 0 <= i < |parts| ==> c !in parts[i]
    ensures JavaSplit(Join(parts, c), c) == parts
  {
    SplitJoin(parts, c);
    if c !in Join(parts, c) {
      JoinSplit(Join(parts, c), c);
      SplitWithout(Join(parts, c), c);
    }
  }

  /** Any first k pieces, joined again, form a prefix of the split string. */
  lemma {:induction false} JoinSplitPrefix(s: string, c: char, k: nat)
    requires k <= |Split(s, c)|
    ensures Join(Split(s, c)[..k], c) <= s
    decreases |s|
  {
    if s != [] && k > 0 {
      var rest := Split(s[1..], c);
      if s[0] == c {
        if k > 1 {
          JoinSplitPrefix(s[1..], c, k - 1);
          assert Split(s, c)[..k] == [[]] + rest[..k - 1];
          assert ([[]] + rest[..k - 1])[1..] == rest[..k - 1];
        }
      } else {
        JoinSplitPrefix(s[1..], c, k);
        assert Split(s, c)[..k] == [[s[0]] + rest[0]] + rest[1..k];
        assert rest[..k] == [rest[0]] + rest[1..k];
        JoinConsHead(s[0], rest[0], rest[1..k], c);
      }
    }
  }

  /** The list without its trailing empty strings. */
  function DropTrailingEmpty(xs: seq<string>): (r: seq<string>)
    ensures |r| <= |xs| && r == xs[..|r|]
    ensures r == [] || r[|r| - 1] != []
    ensures forall k :: |r| <= k < |xs| ==> xs[k] == []
    decreases |xs|
  {
    if xs == [] then []
    else if xs[|xs| - 1] == [] then DropTrailingEmpty(xs[..|xs| - 1])
    else xs
  }

  /** String.split with a one-character pattern: the whole string when the character does
      not occur, otherwise the pieces without the trailing empty ones. */
  function JavaSplit(s: string, c: char): seq<string>
  {
    if c !in s then [s] else DropTrailingEmpty(Split(s, c))
  }

  /** No part of String.split holds the separator. */
  lemma JavaSplitPieces(s: string, c: char)
    ensures forall p :: p in JavaSplit(s, c) ==> c !in p
  {
    if c in s {
      var parts := Split(s, c);
      var r := DropTrailingEmpty(parts);
      SplitPieces(s, c);
      forall p | p in r
        ensures c !in p
      {
        var i :| 0 <= i < |r| && r[i] == p;
        assert r[i] == parts[i] && parts[i] in parts;
      }
    }
  }

  /** Any first k parts of JavaSplit, joined with the separator, form a prefix of s. */
  lemma JavaSplitPrefix(s: string, c: char, k: nat)
    requires k <= |JavaSplit(s, c)|
    ensures Join(JavaSplit(s, c)[..k], c) <= s
  {
    if c in s {
      var parts := Split(s, c);
      assert JavaSplit(s, c)[..k] == parts[..k];
      JoinSplitPrefix(s, c, k);
    }
  }

  /** The number of occurrences of c in s. */
  function Count(s: string, c: char): nat
    decreases |s|
  {
    if s == [] then 0 else Count(s[..|s| - 1], c) + (if s[|s| - 1] == c then 1 else 0)
  }

  /** The number of pieces String.split keeps when s holds the separator c: a trailing c
      only closes an empty piece, which is dropped. */
  function Pieces(s: string, c: char): nat
    decreases |s|
  {
    if s == [] then 0
    else if s[|s| - 1] == c then Pieces(s[..|s| - 1], c)
    else Count(s, c) + 1
  }

  /** The number of parts of name.split("\\."), counted without building them. */
  function Segments(name: string): nat
  {
    if Count(name, '.') == 0 then 1 else Pieces(name, '.')
  }

  lemma {:induction false} CountAbsent(s: string, c: char)
    ensures Count(s, c) == 0 <==> c !in s
    decreases |s|
  {
    if s != [] {
      CountAbsent(s[..|s| - 1], c);
      assert s == s[..|s| - 1] + [s[|s| - 1]];
    }
  }

  /** Appending the separator to s opens a new, empty piece. */
  lemma {:induction false} SplitSnocSeparator(s: string, c: char)
    ensures Split(s + [c], c) == Split(s, c) + [[]]
    decreases |s|
  {
    if s != [] {
      assert (s + [c])[0] == s[0] && (s + [c])[1..] == s[1..] + [c];
      SplitSnocSeparator(s[1..], c);
      var rest := Split(s[1..], c);
      if s[0] != c {
        var rest' := rest + [[]];
        assert rest'[0] == rest[0] && rest'[1..] == rest[1..] + [[]];
      }
    }
  }

  /** Appending any other character to s extends the last piece. */
  lemma {:induction false} SplitSnocOther(s: string, x: char, c: char)
    requires x != c
    ensures Split(s + [x], c) == ExtendLast(Split(s, c), x)
    decreases |s|
  {
    if s == [] {
      assert s + [x] == [x];
      var empty: string := [];
      assert Split(s, c) == [empty];
      assert [x] + empty == [x];
      assert Split([x], c) == [[x] + Split(empty, c)[0]] + Split(empty, c)[1..] == [[x]];
      assert empty + [x] == [x];
      assert ExtendLast([empty], x) == [[x]];
    } else {
      assert (s + [x])[0] == s[0] && (s + [x])[1..] == s[1..] + [x];
      SplitSnocOther(s[1..], x, c);
      ExtendLastCons(s[0], Split(s[1..], c), x, c);
    }
  }

  /** The pieces with x appended to the last one. */
  function ExtendLast(parts: seq<string>, x: char): seq<string>
    requires |parts| >= 1
  {
    parts[..|parts| - 1] + [parts[|parts| - 1] + [x]]
  }

  /** The step of SplitSnocOther: consing y in front keeps extending the last piece. */
  lemma ExtendLastCons(y: char, rest: seq<string>, x: char, c: char)
    requires |rest| >= 1
    ensures (if y == c then [[]] + ExtendLast(rest, x)
             else [[y] + ExtendLast(rest, x)[0]] + ExtendLast(rest, x)[1..])
         == ExtendLast(if y == c then [[]] + rest else [[y] + rest[0]] + rest[1..], x)
  {
    var rest' := ExtendLast(rest, x);
    if y != c {
      var S := [[y] + rest[0]] + rest[1..];
      if |rest| == 1 {
        assert rest' == [rest[0] + [x]];
        assert [y] + (rest[0] + [x]) == S[0] + [x];
      } else {
        assert rest'[0] == rest[0];
        assert rest'[1..] == rest[1..|rest| - 1] + [rest[|rest| - 1] + [x]];
        assert S[..|S| - 1] == [[y] + rest[0]] + rest[1..|rest| - 1];
      }
    } else {
      var S := [[]] + rest;
      assert S[..|S| - 1] == [[]] + rest[..|rest| - 1];
    }
  }

  lemma {:induction false} SplitLength(s: string, c: char)
    ensures |Split(s, c)| == Count(s, c) + 1
    decreases |s|
  {
    if s != [] {
      var t := s[..|s| - 1];
      assert s == t + [s[|s| - 1]];
      SplitLength(t, c);
      if s[|s| - 1] == c {
        SplitSnocSeparator(t, c);
      } else {
        SplitSnocOther(t, s[|s| - 1], c);
      }
    }
  }

  lemma {:induction false} PiecesSplit(s: string, c: char)
    ensures Pieces(s, c) == |DropTrailingEmpty(Split(s, c))|
    decreases |s|
  {
    if s != [] {
      var t := s[..|s| - 1];
      var x := s[|s| - 1];
      assert s == t + [x];
      var parts := Split(s, c);
      if x == c {
        SplitSnocSeparator(t, c);
        PiecesSplit(t, c);
        assert parts[..|parts| - 1] == Split(t, c);
      } else {
        SplitSnocOther(t, x, c);
        SplitLength(s, c);
        assert parts[|parts| - 1] != [];
      }
    }
  }

  /** Segments counts the parts of name.split("\\."). */
  lemma SegmentsSplit(name: string)
    ensures Segments(name) == |JavaSplit(name, '.')|
  {
    CountAbsent(name, '.');
    PiecesSplit(name, '.');
  }

  /** String.contains */
  predicate Contains(s: string, sub: string)
    decreases |s|
  {
    sub <= s || (s != [] && Contains(s[1..], sub))
  }

  /** String.replace(target, replacement): every non-overlapping occurrence, left to right. */
  function Replace(s: string, target: string, replacement: string): string
    requires |target| > 0
    decreases |s|
  {
    if s == [] then []
    else if target <= s then replacement + Replace(s[|target|..], target, replacement)
    else [s[0]] + Replace(s[1..], target, replacement)
  }

  lemma {:induction false} ReplaceAbsent(s: string, target: string, replacement: string)
    requires |target| > 0 && !Contains(s, target)
    ensures Replace(s, target, replacement) == s
    decreases |s|
  {
    if s != [] {
      ReplaceAbsent(s[1..], target, replacement);
    }
  }

  function UpperChar(c: char): char
  {
    if 'a' <= c <= 'z' then (c as int - 32) as char else c
  }

  /** toUpperCase(Locale.ROOT), restricted to ASCII letters. */
  function ToUpper(s: string): (r: string)
    ensures |r| == |s|
    ensures forall i :: 0 <= i < |s| ==> r[i] == UpperChar(s[i])
    decreases |s|
  {
    if s == [] then [] else [UpperChar(s[0])] + ToUpper(s[1..])
  }

  /** String.equalsIgnoreCase, restricted to ASCII letters. */
  predicate EqualsIgnoreCase(a: string, b: string) { ToUpper(a) == ToUpper(b) }

  function FirstIndex(s: string, c: char): (i: nat)
    requires c in s
    ensures i < |s| && s[i] == c && c !in s[..i]
  {
    if s[0] == c then 0
    else
      var k := FirstIndex(s[1..], c);
      assert s[..k + 1] == [s[0]] + s[1..][..k];
      k + 1
  }

  /** No ':' has a '}' somewhere after it: nothing left for the regular expression
      ":[^}]*}" to match. */
  predicate NoConstraint(s: string)
  {
    forall i, j :: 0 <= i < j < |s| && s[i] == ':' ==> s[j] != '}'
  }

  /** path.replaceAll(":[^}]*}", "}"): a match starts at a ':' that has a '}' after it and
      runs to the first such '}'; scanning resumes after the match. This strips the regular
      expression of a URI template parameter "{name:regex}". */
  function RemoveRegularExpressions(s: string): string
    decreases |s|
  {
    if s == [] then []
    else if s[0] == ':' && '}' in s then ['}'] + RemoveRegularExpressions(s[FirstIndex(s, '}') + 1..])
    else [s[0]] + RemoveRegularExpressions(s[1..])
  }

  lemma {:induction false} RemoveRegularExpressionsBrace(s: string)
    ensures '}' in RemoveRegularExpressions(s) ==> '}' in s
    decreases |s|
  {
    if s != [] {
      if s[0] == ':' && '}' in s {
      } else {
        RemoveRegularExpressionsBrace(s[1..]);
      }
    }
  }

  /** After stripping, no ':' is followed by a '}'. */
  lemma {:induction false} RemoveRegularExpressionsClean(s: string)
    ensures NoConstraint(RemoveRegularExpressions(s))
    decreases |s|
  {
    if s != [] {
      var r := RemoveRegularExpressions(s);
      if s[0] == ':' && '}' in s {
        var rest := s[FirstIndex(s, '}') + 1..];
        RemoveRegularExpressionsClean(rest);
        assert r == ['}'] + RemoveRegularExpressions(rest);
        forall i, j | 0 <= i < j < |r| && r[i] == ':' ensures r[j] != '}' {
          assert r[i] == RemoveRegularExpressions(rest)[i - 1];
          assert r[j] == RemoveRegularExpressions(rest)[j - 1];
        }
      } else {
        var tail := RemoveRegularExpressions(s[1..]);
        RemoveRegularExpressionsClean(s[1..]);
        RemoveRegularExpressionsBrace(s[1..]);
        assert r == [s[0]] + tail;
        forall i, j | 0 <= i < j < |r| && r[i] == ':' ensures r[j] != '}' {
          assert r[j] == tail[j - 1];
          if i > 0 {
            assert r[i] == tail[i - 1];
          } else {
            assert '}' !in s;
            assert '}' !in s[1..];
            assert tail[j - 1] in tail;
          }
        }
      }
    }
  }

  /** A path without a constraint is left as it is. */
  lemma {:induction false} RemoveRegularExpressionsFixed(s: string)
    requires NoConstraint(s)
    ensures RemoveRegularExpressions(s) == s
    decreases |s|
  {
    if s != [] {
      assert !(s[0] == ':' && '}' in s);
      assert NoConstraint(s[1..]) by {
        forall i, j | 0 <= i < j < |s[1..]| && s[1..][i] == ':' ensures s[1..][j] != '}' {
          assert s[i + 1] == ':';
        }
      }
      RemoveRegularExpressionsFixed(s[1..]);
    }
  }

  /** Stripping twice strips nothing more. */
  lemma RemoveRegularExpressionsIdempotent(s: string)
    ensures RemoveRegularExpressions(RemoveRegularExpressions(s)) == RemoveRegularExpressions(s)
  {
    RemoveRegularExpressionsClean(s);
    RemoveRegularExpressionsFixed(RemoveRegularExpressions(s));
  }
}
