/**
  Stand-ins for the functions of Go's `strings` and `path` packages that the
  generator calls. A Go string is modelled as its sequence of code points.
*/
module GoLib {

  // ---------------------------------------------------------------------------
  // strings.Join and strings.Split
  // ---------------------------------------------------------------------------

  /** strings.Join: the elements of `parts` in order, with `sep` between neighbours. */
  function Join(parts: seq<string>, sep: string): string
    decreases |parts|
  {
    if |parts| == 0 then ""
    else if |parts| == 1 then parts[0]
    else parts[0] + sep + Join(parts[1..], sep)
  }

  /** A join starts with the first element and ends with the last, and an empty list joins to nothing. */
  lemma {:induction false} JoinEnds(parts: seq<string>, sep: string)
    ensures |parts| == 0 ==> Join(parts, sep) == ""
    ensures |parts| > 0 ==> |parts[0]| <= |Join(parts, sep)| && Join(parts, sep)[..|parts[0]|] == parts[0]
    ensures |parts| > 0 ==> HasSuffix(Join(parts, sep), parts[|parts| - 1])
    decreases |parts|
  {
    if |parts| > 1 {
      JoinEnds(parts[1..], sep);
      var rest := Join(parts[1..], sep);
      var r := parts[0] + sep + rest;
      assert Join(parts, sep) == r;
      assert r[..|parts[0]|] == parts[0];
      assert parts[1..][|parts[1..]| - 1] == parts[|parts| - 1];
      assert r[|r| - |rest|..] == rest;
    }
  }

  lemma JoinCons(x: string, rest: seq<string>, sep: string)
    requires |rest| > 0
    ensures Join([x] + rest, sep) == x + sep + Join(rest, sep)
  {
    assert ([x] + rest)[1..] == rest;
  }

  /** No element of `parts` contains the character `c`. */
  predicate FreeOf(parts: seq<string>, c: char)
  {
    forall i | 0 <= i < |parts| :: c !in parts[i]
  }

  /**
    strings.Split with a one-character separator: the pieces of `s` that lie
    between occurrences of `sep`. There is always at least one piece (the empty
    string splits into [""]), no piece contains the separator, and joining the
    pieces back with the separator gives `s`.
  */
  function Split(s: string, sep: char): (pieces: seq<string>)
    ensures |pieces| > 0
    ensures FreeOf(pieces, sep)
    ensures Join(pieces, [sep]) == s
    decreases |s|
  {
    if s == [] then [""]
    else
      var rest := Split(s[1..], sep);
      if s[0] == sep then
        JoinCons("", rest, [sep]);
        [""] + rest
      else
        var first := [s[0]] + rest[0];
        if |rest| == 1 then [first]
        else
          assert rest == [rest[0]] + rest[1..];
          JoinCons(first, rest[1..], [sep]);
          JoinCons(rest[0], rest[1..], [sep]);
          [first] + rest[1..]
  }

  /** Index of the first occurrence of `c` in `s`, or |s| when there is none. */
  function IndexOf(s: string, c: char): (i: nat)
    ensures i <= |s|
    ensures forall k | 0 <= k < i :: s[k] != c
    ensures i < |s| ==> s[i] == c
    decreases |s|
  {
    if s == [] || s[0] == c then 0 else 1 + IndexOf(s[1..], c)
  }

  lemma IndexOfAfterFree(x: string, y: string, c: char)
    requires c !in x
    ensures IndexOf(x + [c] + y, c) == |x|
  {
    var s := x + [c] + y;
    var i := IndexOf(s, c);
    assert s[|x|] == c;
    assert forall k | 0 <= k < |x| :: s[k] == x[k];
  }

  /** A join of separator-free pieces contains the separator exactly when there are two pieces or more. */
  lemma JoinHasSep(parts: seq<string>, sep: char)
    requires |parts| > 0 && FreeOf(parts, sep)
    ensures sep in Join(parts, [sep]) <==> |parts| > 1
  {
    if |parts| > 1 {
      assert Join(parts, [sep])[|parts[0]|] == sep;
    }
  }

  /** Text joined from separator-free pieces determines the pieces. */
  lemma {:induction false} JoinInjective(a: seq<string>, b: seq<string>, sep: char)
    requires |a| > 0 && |b| > 0
    requires FreeOf(a, sep) && FreeOf(b, sep)
    requires Join(a, [sep]) == Join(b, [sep])
    ensures a == b
    decreases |a|
  {
    var s := Join(a, [sep]);
    JoinHasSep(a, sep);
    JoinHasSep(b, sep);
    if |a| > 1 {
      var a0, b0 := a[0], b[0];
      assert s == a0 + [sep] + Join(a[1..], [sep]);
      assert s == b0 + [sep] + Join(b[1..], [sep]);
      IndexOfAfterFree(a0, Join(a[1..], [sep]), sep);
      IndexOfAfterFree(b0, Join(b[1..], [sep]), sep);
      assert a0 == s[..|a0|] == b0;
      assert Join(a[1..], [sep]) == s[|a0| + 1..] == Join(b[1..], [sep]);
      JoinInjective(a[1..], b[1..], sep);
      assert a == [a0] + a[1..] && b == [b0] + b[1..];
    }
  }

  /** Splitting undoes joining, for pieces that do not contain the separator. */
  lemma SplitJoin(parts: seq<string>, sep: char)
    requires |parts| > 0 && FreeOf(parts, sep)
    ensures Split(Join(parts, [sep]), sep) == parts
  {
    JoinInjective(Split(Join(parts, [sep]), sep), parts, sep);
  }

  /** Every element of `parts` with `pad` put in front of it. */
  function Prefixed(parts: seq<string>, pad: string): (r: seq<string>)
  {
    seq(|parts|, i requires 0 <= i < |parts| => pad + parts[i])
  }

  lemma {:induction false} JoinPrefixed(parts: seq<string>, c: char, pad: string)
    requires |parts| > 0
    ensures Join(Prefixed(parts, pad), [c]) == pad + Join(parts, [c] + pad)
    decreases |parts|
  {
    if |parts| > 1 {
      JoinPrefixed(parts[1..], c, pad);
      assert Prefixed(parts, pad)[1..] == Prefixed(parts[1..], pad);
    }
  }

  /**
    Splitting on `c` a list joined with the separator `c` followed by `pad`
    gives back the first element as it was and every later one with `pad` in
    front of it.
  */
  lemma SplitJoinPadded(parts: seq<string>, c: char, pad: string)
    requires |parts| > 0 && FreeOf(parts, c) && c !in pad
    ensures Split(Join(parts, [c] + pad), c) == [parts[0]] + Prefixed(parts[1..], pad)
  {
    JoinPadded(parts, c, pad);
    PaddedFreeOf(parts, c, pad);
    SplitJoin([parts[0]] + Prefixed(parts[1..], pad), c);
  }

  /** Joining with `c` followed by `pad` is joining with `c` after putting `pad` in front of every later element. */
  lemma JoinPadded(parts: seq<string>, c: char, pad: string)
    requires |parts| > 0
    ensures Join(parts, [c] + pad) == Join([parts[0]] + Prefixed(parts[1..], pad), [c])
  {
    if |parts| > 1 {
      JoinPrefixed(parts[1..], c, pad);
      JoinCons(parts[0], Prefixed(parts[1..], pad), [c]);
      assert Join(parts, [c] + pad) == parts[0] + ([c] + pad) + Join(parts[1..], [c] + pad);
    }
  }

  /** Padding without `c` keeps the elements free of `c`. */
  lemma PaddedFreeOf(parts: seq<string>, c: char, pad: string)
    requires |parts| > 0 && FreeOf(parts, c) && c !in pad
    ensures FreeOf([parts[0]] + Prefixed(parts[1..], pad), c)
  {
    var padded := [parts[0]] + Prefixed(parts[1..], pad);
    forall i | 0 <= i < |padded| ensures c !in padded[i] {
      if i > 0 {
        assert padded[i] == pad + parts[i];
      }
    }
  }

  // ---------------------------------------------------------------------------
  // strings.TrimSpace
  // ---------------------------------------------------------------------------

  /** unicode.IsSpace: the code points with the Unicode White_Space property. */
  predicate IsSpace(c: char)
  {
    || c == ' '
    || ('\t' <= c <= '\r')
    || c == '\U{0085}' || c == '\U{00A0}' || c == '\U{1680}'
    || ('\U{2000}' <= c <= '\U{200A}')
    || c == '\U{2028}' || c == '\U{2029}' || c == '\U{202F}' || c == '\U{205F}' || c == '\U{3000}'
  }

  /** strings.TrimLeftFunc(s, unicode.IsSpace): the suffix of `s` after its leading white space. */
  function TrimLeadingSpace(s: string): (r: string)
    ensures |r| <= |s| && r == s[|s| - |r|..]
    ensures forall k | 0 <= k < |s| - |r| :: IsSpace(s[k])
    ensures r == [] || !IsSpace(r[0])
    decreases |s|
  {
    if s != [] && IsSpace(s[0]) then TrimLeadingSpace(s[1..]) else s
  }

  /** strings.TrimRightFunc(s, unicode.IsSpace): the prefix of `s` before its trailing white space. */
  function TrimTrailingSpace(s: string): (r: string)
    ensures |r| <= |s| && r == s[..|r|]
    ensures forall k | |r| <= k < |s| :: IsSpace(s[k])
    ensures r == [] || !IsSpace(r[|r| - 1])
    decreases |s|
  {
    if s != [] && IsSpace(s[|s| - 1]) then TrimTrailingSpace(s[..|s| - 1]) else s
  }

  /** Every code point of `s` is white space. */
  predicate AllSpace(s: string)
  {
    forall k | 0 <= k < |s| :: IsSpace(s[k])
  }

  /** `s` neither starts nor ends with white space. */
  predicate IsTrimmed(s: string)
  {
    s == [] || (!IsSpace(s[0]) && !IsSpace(s[|s| - 1]))
  }

  /**
    strings.TrimSpace: `s` with its leading and trailing white space removed
    (by the contracts of the two helpers, only white space is removed).
  */
  function TrimSpace(s: string): (r: string)
    ensures IsTrimmed(r)
  {
    var left := TrimLeadingSpace(s);
    var r := TrimTrailingSpace(left);
    assert r != [] ==> |left| > 0 && r[0] == left[..|r|][0] == left[0];
    r
  }

  /** Trimming text that is already trimmed changes nothing. */
  lemma TrimSpaceOfTrimmed(s: string)
    requires IsTrimmed(s)
    ensures TrimSpace(s) == s
  {
  }

  /** White space put in front of trimmed text is removed again by TrimSpace. */
  lemma {:induction false} TrimSpacePadded(pad: string, s: string)
    requires AllSpace(pad)
    requires IsTrimmed(s)
    ensures TrimSpace(pad + s) == s
    decreases |pad|
  {
    if pad == [] {
      assert pad + s == s;
      TrimSpaceOfTrimmed(s);
    } else {
      assert (pad + s)[1..] == pad[1..] + s;
      TrimSpacePadded(pad[1..], s);
    }
  }

  /** Trimming removes white space put on both sides of trimmed text. */
  lemma TrimSpaceAround(pre: string, s: string, post: string)
    requires AllSpace(pre) && AllSpace(post)
    requires IsTrimmed(s)
    ensures TrimSpace(pre + s + post) == s
  {
    if s == [] {
      assert pre + s + post == pre + post;
      AllSpaceTrimsAway(pre + post);
    } else {
      assert pre + s + post == pre + (s + post);
      LeadingSpaceRemoved(pre, s + post);
      TrailingSpaceRemoved(s, post);
    }
  }

  /** Text made of white space only trims to nothing from the left. */
  lemma AllSpaceTrimsAway(x: string)
    requires AllSpace(x)
    ensures TrimLeadingSpace(x) == []
  {
  }

  /** TrimLeadingSpace removes white space put in front of text that starts with something else. */
  lemma LeadingSpaceRemoved(pre: string, t: string)
    requires AllSpace(pre)
    requires t != [] && !IsSpace(t[0])
    ensures TrimLeadingSpace(pre + t) == t
  {
    var x := pre + t;
    var r := TrimLeadingSpace(x);
    var k := |x| - |r|;
    assert x[|pre|] == t[0];
    assert k <= |pre|;
  }

  /** TrimTrailingSpace removes white space put after text that ends with something else. */
  lemma TrailingSpaceRemoved(t: string, post: string)
    requires AllSpace(post)
    requires t != [] && !IsSpace(t[|t| - 1])
    ensures TrimTrailingSpace(t + post) == t
  {
    var x := t + post;
    var r := TrimTrailingSpace(x);
    assert x[|t| - 1] == t[|t| - 1];
    assert |r| >= |t|;
  }

  // ---------------------------------------------------------------------------
  // strings.ToLower, strings.HasSuffix, strings.TrimSuffix, path.Join
  // ---------------------------------------------------------------------------

  /** Lower-casing of one ASCII letter; every other code point is kept. */
  function ToLowerChar(c: char): char
  {
    if 'A' <= c <= 'Z' then (c as int + 32) as char else c
  }

  /**
    strings.ToLower, restricted to ASCII letters: the result has the length of
    `s`, every capital becomes its small letter (32 code points further on),
    no capital letter is left, and every other code point is kept.
  */
  function ToLower(s: string): (r: string)
    ensures |r| == |s|
    ensures forall i | 0 <= i < |r| :: !('A' <= r[i] <= 'Z')
    ensures forall i | 0 <= i < |s| :: !('A' <= s[i] <= 'Z') ==> r[i] == s[i]
    ensures forall i | 0 <= i < |s| :: 'A' <= s[i] <= 'Z' ==> r[i] as int == s[i] as int + 32
  {
    seq(|s|, i requires 0 <= i < |s| => ToLowerChar(s[i]))
  }

  /** strings.HasSuffix */
  predicate HasSuffix(s: string, suffix: string)
  {
    |suffix| <= |s| && s[|s| - |suffix|..] == suffix
  }

  /**
    strings.TrimSuffix: `s` without `suffix` when it ends with it (removed
    once), otherwise `s` unchanged.
  */
  function TrimSuffix(s: string, suffix: string): (r: string)
    ensures HasSuffix(s, suffix) ==> r + suffix == s
    ensures !HasSuffix(s, suffix) ==> r == s
  {
    if HasSuffix(s, suffix) then s[..|s| - |suffix|] else s
  }

  /** path.Join of two elements: the non-empty ones separated by a slash (path.Clean is not applied). */
  function PathJoin(dir: string, file: string): (r: string)
    ensures |dir| <= |r| && r[..|dir|] == dir
    ensures HasSuffix(r, file)
    ensures |r| == |dir| + |file| + (if dir != "" && file != "" then 1 else 0)
    ensures dir != "" && file != "" ==> HasSuffix(r, "/" + file)
  {
    if dir == "" then file
    else if file == "" then dir
    else dir + "/" + file
  }
}
