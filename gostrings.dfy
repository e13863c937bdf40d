/** The functions of Go's `strings` package that terralocacon calls, on strings
    modelled as sequences of characters (Go's runes). */
module GoStrings {

  /** `pat` occurs in `s` starting at index `i`. */
  predicate OccursAt(s: string, pat: string, i: int)
  {
    0 <= i && i + |pat| <= |s| && s[i..i + |pat|] == pat
  }

  /** `i` is the leftmost index at which `pat` occurs in `s`. */
  predicate FirstOccurrence(s: string, pat: string, i: int)
  {
    OccursAt(s, pat, i) && forall j :: 0 <= j < i ==> !OccursAt(s, pat, j)
  }

  /** The leftmost occurrence of `pat` in `s` at or after `k`, or -1 if there is none. */
  function IndexFrom(s: string, pat: string, k: nat): (r: int)
    ensures r == -1 || k <= r <= |s| - |pat|
    decreases |s| - k
  {
    if k + |pat| > |s| then -1
    else if s[k..k + |pat|] == pat then k
    else IndexFrom(s, pat, k + 1)
  }

  /** IndexFrom finds an occurrence at or after `k`, and none before it from `k` on. */
  lemma {:induction false} IndexFromSpec(s: string, pat: string, k: nat)
    ensures IndexFrom(s, pat, k) == -1 || (k <= IndexFrom(s, pat, k) && OccursAt(s, pat, IndexFrom(s, pat, k)))
    ensures forall j :: k <= j && (IndexFrom(s, pat, k) == -1 || j < IndexFrom(s, pat, k)) ==> !OccursAt(s, pat, j)
    decreases |s| - k
  {
    if k + |pat| <= |s| && s[k..k + |pat|] != pat {
      IndexFromSpec(s, pat, k + 1);
    }
  }

  /** strings.Index: the leftmost occurrence of `pat`, or -1. */
  function Index(s: string, pat: string): (r: int)
    ensures r == -1 || 0 <= r <= |s| - |pat|
  {
    IndexFrom(s, pat, 0)
  }

  /** Index is -1 exactly when `pat` occurs nowhere, and otherwise its leftmost occurrence. */
  lemma IndexSpec(s: string, pat: string)
    ensures Index(s, pat) == -1 <==> forall j :: !OccursAt(s, pat, j)
    ensures Index(s, pat) != -1 ==> FirstOccurrence(s, pat, Index(s, pat))
  {
    IndexFromSpec(s, pat, 0);
  }

  /** strings.Contains, which Go defines as Index(s, pat) >= 0. */
  predicate Contains(s: string, pat: string)
    ensures Contains(s, pat) ==> |pat| <= |s|
    ensures pat <= s ==> Contains(s, pat)
  {
    Index(s, pat) >= 0
  }

  /** Contains holds exactly when `pat` occurs somewhere in `s`. */
  lemma ContainsSpec(s: string, pat: string)
    ensures Contains(s, pat) <==> exists i :: OccursAt(s, pat, i)
  {
    IndexSpec(s, pat);
  }

  /** strings.Replace(s, pat, rep, 1): replace the leftmost occurrence only. */
  function ReplaceFirst(s: string, pat: string, rep: string): (r: string)
    ensures !Contains(s, pat) ==> r == s
    ensures Contains(s, pat) ==> |r| == |s| - |pat| + |rep|
    ensures pat <= s ==> r == rep + s[|pat|..]
  {
    var i := Index(s, pat);
    if i < 0 then s else s[..i] + rep + s[i + |pat|..]
  }

  /** Without an occurrence the string is unchanged; otherwise the leftmost
      occurrence, and only it, is replaced. */
  lemma ReplaceFirstSpec(s: string, pat: string, rep: string)
    ensures !Contains(s, pat) ==> ReplaceFirst(s, pat, rep) == s
    ensures forall i :: FirstOccurrence(s, pat, i) ==>
      ReplaceFirst(s, pat, rep) == s[..i] + rep + s[i + |pat|..]
  {
    IndexSpec(s, pat);
    forall i | FirstOccurrence(s, pat, i)
      ensures ReplaceFirst(s, pat, rep) == s[..i] + rep + s[i + |pat|..]
    {
      assert Index(s, pat) == i;
    }
  }

  /** A character absent from both the subject and the replacement is absent from the result. */
  lemma ReplaceFirstKeepsOut(s: string, pat: string, rep: string, c: char)
    requires c !in s && c !in rep
    ensures c !in ReplaceFirst(s, pat, rep)
  {
    var i := Index(s, pat);
    IndexSpec(s, pat);
    if i >= 0 {
      assert c !in s[..i] && c !in s[i + |pat|..];
    }
  }

  /** strings.TrimLeft with a cutset: drop leading characters that are in `cutset`. */
  function TrimLeft(s: string, cutset: set<char>): (r: string)
    ensures |r| <= |s| && r == s[|s| - |r|..]
    ensures r == [] || r[0] !in cutset
    ensures forall i :: 0 <= i < |s| - |r| ==> s[i] in cutset
  {
    if |s| > 0 && s[0] in cutset then TrimLeft(s[1..], cutset) else s
  }

  /** strings.TrimRight with a cutset: drop trailing characters that are in `cutset`. */
  function TrimRight(s: string, cutset: set<char>): (r: string)
    ensures |r| <= |s| && r == s[..|r|]
    ensures r == [] || r[|r| - 1] !in cutset
    ensures forall i :: |r| <= i < |s| ==> s[i] in cutset
  {
    if |s| > 0 && s[|s| - 1] in cutset then TrimRight(s[..|s| - 1], cutset) else s
  }

  /** strings.Trim(s, cutset): drop leading and trailing characters in `cutset`.
      The result is empty exactly when every character of `s` is in `cutset`. */
  function Trim(s: string, cutset: set<char>): (r: string)
    ensures r == [] <==> forall i :: 0 <= i < |s| ==> s[i] in cutset
    ensures r != [] ==> r[0] !in cutset && r[|r| - 1] !in cutset
  {
    var left := TrimLeft(s, cutset);
    var r := TrimRight(left, cutset);
    if r == [] then TrimmedAway(s, cutset, left); r else r
  }

  /** When everything left after trimming the left is cut on the right, every character was in the cutset. */
  lemma TrimmedAway(s: string, cutset: set<char>, left: string)
    requires left == TrimLeft(s, cutset)
    requires TrimRight(left, cutset) == []
    ensures forall i :: 0 <= i < |s| ==> s[i] in cutset
  {
  }

  /** The characters Go's unicode.IsSpace accepts, which strings.TrimSpace removes. */
  const GO_SPACES: set<char> := {
    '\t', '\n', '\U{0B}', '\U{0C}', '\r', ' ', '\U{85}', '\U{A0}', '\U{1680}',
    '\U{2000}', '\U{2001}', '\U{2002}', '\U{2003}', '\U{2004}', '\U{2005}',
    '\U{2006}', '\U{2007}', '\U{2008}', '\U{2009}', '\U{200A}',
    '\U{2028}', '\U{2029}', '\U{202F}', '\U{205F}', '\U{3000}'
  }

  /** strings.TrimSpace: drop leading and trailing Unicode white space. */
  function TrimSpace(s: string): (r: string)
    ensures r == [] <==> forall i :: 0 <= i < |s| ==> s[i] in GO_SPACES
  {
    Trim(s, GO_SPACES)
  }

  /** strings.Split(s, sep) for a one-character separator: the pieces between
      separators, one more than there are separators, none containing `sep`. */
  function Split(s: string, sep: char): (r: seq<string>)
    ensures |r| >= 1
    ensures forall i :: 0 <= i < |r| ==> sep !in r[i]
  {
    if |s| == 0 then [""]
    else
      var rest := Split(s[1..], sep);
      if s[0] == sep then [""] + rest
      else [[s[0]] + rest[0]] + rest[1..]
  }

  /** The first piece of a split is the text before the first separator. */
  lemma {:induction false} SplitFirstPiece(s: string, sep: char)
    ensures Split(s, sep)[0] <= s
    ensures |Split(s, sep)[0]| < |s| ==> s[|Split(s, sep)[0]|] == sep
  {
    if |s| > 0 && s[0] != sep {
      SplitFirstPiece(s[1..], sep);
    }
  }

  /** A string with n separators splits into n + 1 pieces. */
  lemma {:induction false} SplitCount(s: string, sep: char)
    ensures |Split(s, sep)| == multiset(s)[sep] + 1
  {
    if |s| > 0 {
      SplitCount(s[1..], sep);
      assert s == [s[0]] + s[1..];
    }
  }

  /** strings.Join(elems, sep) for a one-character separator. */
  function Join(elems: seq<string>, sep: char): (r: string)
    ensures |elems| >= 1 ==> elems[0] <= r
  {
    if |elems| == 0 then ""
    else if |elems| == 1 then elems[0]
    else elems[0] + [sep] + Join(elems[1..], sep)
  }

  /** The joined string continues its first piece with the separator, and ends
      with the last piece. */
  lemma {:induction false} JoinShape(elems: seq<string>, sep: char)
    requires |elems| >= 1
    ensures |elems| >= 2 ==> |elems[0]| < |Join(elems, sep)| && Join(elems, sep)[|elems[0]|] == sep
    ensures |elems[|elems| - 1]| <= |Join(elems, sep)|
    ensures Join(elems, sep)[|Join(elems, sep)| - |elems[|elems| - 1]|..] == elems[|elems| - 1]
  {
    if |elems| >= 2 {
      var tail := Join(elems[1..], sep);
      JoinShape(elems[1..], sep);
      var last := elems[|elems| - 1];
      assert elems[1..][|elems[1..]| - 1] == last;
      assert Join(elems, sep) == (elems[0] + [sep]) + tail;
      assert ((elems[0] + [sep]) + tail)[|elems[0]|] == sep;
      assert ((elems[0] + [sep]) + tail)[|elems[0]| + 1 + |tail| - |last|..] == tail[|tail| - |last|..];
    }
  }

  /** A string without the separator splits into itself alone. */
  lemma {:induction false} SplitWithoutSep(s: string, sep: char)
    ensures sep !in s ==> Split(s, sep) == [s]
  {
    if sep !in s && s != "" {
      SplitWithoutSep(s[1..], sep);
      assert [s[0]] + s[1..] == s;
    }
  }

  /** Joining the pieces of a split gives back the original string. */
  lemma {:induction false} JoinSplit(s: string, sep: char)
    ensures Join(Split(s, sep), sep) == s
  {
    if |s| > 0 {
      var rest := Split(s[1..], sep);
      JoinSplit(s[1..], sep);
      assert Join(rest, sep) == s[1..];
      if s[0] == sep {
        var pieces := [""] + rest;
        assert Split(s, sep) == pieces;
        assert pieces[1..] == rest;
        assert Join(pieces, sep) == "" + [sep] + Join(rest, sep);
        assert s == [sep] + s[1..];
      } else if |rest| == 1 {
        assert Split(s, sep) == [[s[0]] + rest[0]];
        assert Join(rest, sep) == rest[0];
        assert s == [s[0]] + s[1..];
      } else {
        var pieces := [[s[0]] + rest[0]] + rest[1..];
        assert Split(s, sep) == pieces;
        assert pieces[1..] == rest[1..];
        assert Join(rest, sep) == rest[0] + [sep] + Join(rest[1..], sep);
        assert Join(pieces, sep) == [s[0]] + rest[0] + [sep] + Join(rest[1..], sep);
        assert s == [s[0]] + s[1..];
      }
    }
  }

  /** Splitting a string that starts with a character other than the separator:
      the character is glued to the first piece of the rest. */
  lemma SplitCons(c: char, u: string, sep: char)
    requires c != sep
    ensures Split([c] + u, sep) == [[c] + Split(u, sep)[0]] + Split(u, sep)[1..]
  {
    assert ([c] + u)[0] == c;
    assert ([c] + u)[1..] == u;
  }

  /** Splitting `a + t` where `a` holds no separator: `a` is glued to the first piece of `t`. */
  lemma {:induction false} SplitAfterPlainPrefix(a: string, t: string, sep: char)
    requires sep !in a
    ensures Split(a + t, sep) == [a + Split(t, sep)[0]] + Split(t, sep)[1..]
  {
    var pieces := Split(t, sep);
    if |a| > 0 {
      var u := a[1..] + t;
      SplitAfterPlainPrefix(a[1..], t, sep);
      var rest := Split(u, sep);
      assert rest[0] == a[1..] + pieces[0] && rest[1..] == pieces[1..];
      assert a + t == [a[0]] + u;
      SplitCons(a[0], u, sep);
      assert [a[0]] + rest[0] == a + pieces[0];
    } else {
      assert a + t == t;
      assert a + pieces[0] == pieces[0];
      assert pieces == [pieces[0]] + pieces[1..];
    }
  }

  /** Splitting a join of separator-free pieces gives back the pieces. */
  lemma {:induction false} SplitJoin(elems: seq<string>, sep: char)
    requires |elems| >= 1
    requires forall i :: 0 <= i < |elems| ==> sep !in elems[i]
    ensures Split(Join(elems, sep), sep) == elems
  {
    if |elems| == 1 {
      SplitAfterPlainPrefix(elems[0], "", sep);
      assert elems[0] + "" == elems[0];
    } else {
      var tail := Join(elems[1..], sep);
      SplitJoin(elems[1..], sep);
      assert Join(elems, sep) == elems[0] + ([sep] + tail);
      SplitAfterPlainPrefix(elems[0], [sep] + tail, sep);
      assert ([sep] + tail)[1..] == tail;
      assert Split([sep] + tail, sep) == [""] + elems[1..];
      assert elems[0] + "" == elems[0];
    }
  }
}
