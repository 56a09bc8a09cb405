/**
  The struct-tag pattern the generator matches field tags against,
  "`db:\"([a-zA-Z0-9_-]+),?.*\"`", written out as string functions.

  A match is a backtick, the text db:" , a captured non-empty run of name
  characters, then (through `,?.*`) any code points other than a newline, and
  finally a double quote followed by a backtick. Go's regexp reports the
  leftmost-first match: the one that starts leftmost, and at that start the
  one its greedy `+` prefers, which is the longest run of name characters
  after which the rest of the pattern still matches. Since a name character is
  never the closing quote, a shorter run closes only where the longest does
  (ClosesAtOverNameChars). The optional comma adds nothing of its own, since
  `.` also matches a comma.
*/
module DbTag {
  import opened Wrappers

  /** The literal text in front of the captured name. */
  const Opening: string := "`db:\""

  /** The character class [a-zA-Z0-9_-]. */
  predicate IsNameChar(c: char)
  {
    ('a' <= c <= 'z') || ('A' <= c <= 'Z') || ('0' <= c <= '9') || c == '_' || c == '-'
  }

  /** A column name as the pattern captures it: non-empty, name characters only. */
  predicate IsDbName(d: string)
  {
    |d| > 0 && forall k | 0 <= k < |d| :: IsNameChar(d[k])
  }

  // ---------------------------------------------------------------------------
  // The matcher
  // ---------------------------------------------------------------------------

  /** End of the longest run of name characters that starts at `i`. */
  function RunEnd(s: string, i: nat): (e: nat)
    requires i <= |s|
    ensures i <= e <= |s|
    ensures forall k | i <= k < e :: IsNameChar(s[k])
    ensures e == |s| || !IsNameChar(s[e])
    decreases |s| - i
  {
    if i < |s| && IsNameChar(s[i]) then RunEnd(s, i + 1) else i
  }

  /** Whether the tail `,?.*"`` of the pattern matches from `i`: a quote and a backtick come before any newline. */
  function ClosesFrom(s: string, i: nat): bool
    requires i <= |s|
    decreases |s| - i
  {
    if i + 2 > |s| then false
    else if s[i] == '"' && s[i + 1] == '`' then true
    else if s[i] == '\n' then false
    else ClosesFrom(s, i + 1)
  }

  /** The capture of the greedy match that starts at `p`, if the pattern matches there. */
  function MatchAt(s: string, p: nat): (r: Option<string>)
    requires p <= |s|
    ensures r.Some? ==> IsDbName(r.value)
  {
    var start := p + |Opening|;
    if start <= |s| && s[p..start] == Opening then
      var e := RunEnd(s, start);
      if start < e && ClosesFrom(s, e) then Some(s[start..e]) else None
    else None
  }

  /** The capture of the leftmost match that starts at `p` or later. */
  function FindFrom(s: string, p: nat): (r: Option<string>)
    requires p <= |s|
    ensures r.Some? ==> IsDbName(r.value)
    decreases |s| - p
  {
    match MatchAt(s, p)
    case Some(d) => Some(d)
    case None => if p < |s| then FindFrom(s, p + 1) else None
  }

  /**
    dbFieldRegex.FindStringSubmatch(tag): the captured column name, or None
    when the tag does not match. A captured name is never empty and holds name
    characters only.
  */
  function Match(tag: string): (r: Option<string>)
    ensures r.Some? ==> IsDbName(r.value)
  {
    FindFrom(tag, 0)
  }

  // ---------------------------------------------------------------------------
  // What the pattern means, stated declaratively
  // ---------------------------------------------------------------------------

  /** No newline among the code points of `s` at positions i up to (not including) j. */
  ghost predicate NoNewline(s: string, i: nat, j: nat)
  {
    forall k | i <= k < j && k < |s| :: s[k] != '\n'
  }

  /** The tail `,?.*"`` of the pattern can match from `i`. */
  ghost predicate ClosesAt(s: string, i: nat)
  {
    exists q :: i <= q && q + 2 <= |s| && s[q] == '"' && s[q + 1] == '`' && NoNewline(s, i, q)
  }

  /** The pattern matches `s` starting at `p` with its capture spanning [p + |Opening|, e). */
  ghost predicate MatchesWith(s: string, p: nat, e: nat)
  {
    && p + |Opening| < e <= |s|
    && s[p..p + |Opening|] == Opening
    && (forall k | p + |Opening| <= k < e :: IsNameChar(s[k]))
    && ClosesAt(s, e)
  }

  /**
    Among the matches that start at `from` or later, the one at (p, e) is the
    one a greedy leftmost-first search reports: it starts leftmost and, at that
    start, captures most.
  */
  ghost predicate LeftmostGreedyFrom(s: string, from: nat, p: nat, e: nat)
  {
    && from <= p
    && MatchesWith(s, p, e)
    && forall p': nat, e': nat :: from <= p' && MatchesWith(s, p', e') ==> p <= p' && (p' == p ==> e' <= e)
  }

  lemma {:induction false} ClosesFromMeansClosesAt(s: string, i: nat)
    requires i <= |s|
    ensures ClosesFrom(s, i) <==> ClosesAt(s, i)
    decreases |s| - i
  {
    if i + 2 > |s| {
    } else if s[i] == '"' && s[i + 1] == '`' {
      assert s[i] == '"' && s[i + 1] == '`' && NoNewline(s, i, i);
    } else if s[i] == '\n' {
      forall q | i <= q && q + 2 <= |s| && s[q] == '"' ensures !NoNewline(s, i, q) {
        assert q != i;
      }
    } else {
      ClosesFromMeansClosesAt(s, i + 1);
      if ClosesAt(s, i + 1) {
        var q :| i + 1 <= q && q + 2 <= |s| && s[q] == '"' && s[q + 1] == '`' && NoNewline(s, i + 1, q);
        assert NoNewline(s, i, q);
      }
      if ClosesAt(s, i) {
        var q :| i <= q && q + 2 <= |s| && s[q] == '"' && s[q + 1] == '`' && NoNewline(s, i, q);
        assert q != i;
        assert ClosesAt(s, i + 1);
      }
    }
  }

  /** Moving the start of the tail forward over name characters keeps it matching. */
  lemma ClosesAtOverNameChars(s: string, i: nat, j: nat)
    requires i <= j <= |s|
    requires forall k | i <= k < j :: IsNameChar(s[k])
    requires ClosesAt(s, i)
    ensures ClosesAt(s, j)
  {
    var q :| i <= q && q + 2 <= |s| && s[q] == '"' && s[q + 1] == '`' && NoNewline(s, i, q);
    assert !IsNameChar(s[q]);
    assert j <= q;
  }

  /** MatchAt finds a match at `p` exactly when there is one, and reports the longest capture. */
  lemma MatchAtMeaning(s: string, p: nat)
    requires p <= |s|
    ensures MatchAt(s, p).None? <==> forall e: nat :: !MatchesWith(s, p, e)
    ensures MatchAt(s, p).Some? ==>
              var e := p + |Opening| + |MatchAt(s, p).value|;
              && MatchesWith(s, p, e)
              && MatchAt(s, p).value == s[p + |Opening|..e]
              && forall e': nat :: MatchesWith(s, p, e') ==> e' <= e
  {
    var start := p + |Opening|;
    if start <= |s| && s[p..start] == Opening {
      var e := RunEnd(s, start);
      ClosesFromMeansClosesAt(s, e);
      forall e': nat | MatchesWith(s, p, e') ensures e' <= e && start < e && ClosesAt(s, e) {
        if e < |s| {
          assert !IsNameChar(s[e]);
        }
        ClosesAtOverNameChars(s, e', e);
      }
      if start < e && ClosesFrom(s, e) {
        assert MatchesWith(s, p, e);
      }
    }
  }

  /** With no match at `from`, the leftmost match from `from + 1` on is the leftmost from `from` on. */
  lemma LeftmostStep(s: string, from: nat, p: nat, e: nat)
    requires LeftmostGreedyFrom(s, from + 1, p, e)
    requires forall e': nat :: !MatchesWith(s, from, e')
    ensures LeftmostGreedyFrom(s, from, p, e)
  {
  }

  /** FindFrom fails exactly when no match starts at `from` or later. */
  lemma {:induction false} FindFromNone(s: string, from: nat)
    requires from <= |s|
    ensures FindFrom(s, from).None? <==> forall p: nat, e: nat :: from <= p ==> !MatchesWith(s, p, e)
    decreases |s| - from
  {
    MatchAtMeaning(s, from);
    if MatchAt(s, from).Some? {
      var e := from + |Opening| + |MatchAt(s, from).value|;
      assert MatchesWith(s, from, e);
    } else if from < |s| {
      assert FindFrom(s, from) == FindFrom(s, from + 1);
      FindFromNone(s, from + 1);
      if FindFrom(s, from + 1).None? {
        forall p: nat, e: nat | from <= p ensures !MatchesWith(s, p, e) {
          if p == from {
            assert !MatchesWith(s, from, e);
          }
        }
      } else {
        var p: nat, e: nat :| from + 1 <= p && MatchesWith(s, p, e);
        assert from <= p;
      }
    } else {
      assert FindFrom(s, from).None?;
    }
  }

  /** What FindFrom returns is the capture of the leftmost match from `from` on, taken greedily. */
  lemma {:induction false} FindFromSome(s: string, from: nat)
    requires from <= |s|
    ensures FindFrom(s, from).Some? ==>
              exists p: nat, e: nat :: LeftmostGreedyFrom(s, from, p, e) && FindFrom(s, from).value == s[p + |Opening|..e]
    decreases |s| - from
  {
    MatchAtMeaning(s, from);
    if MatchAt(s, from).Some? {
      var e := from + |Opening| + |MatchAt(s, from).value|;
      assert FindFrom(s, from) == MatchAt(s, from);
      assert LeftmostGreedyFrom(s, from, from, e);
    } else if from < |s| {
      assert FindFrom(s, from) == FindFrom(s, from + 1);
      FindFromSome(s, from + 1);
      if FindFrom(s, from).Some? {
        var p: nat, e: nat :| LeftmostGreedyFrom(s, from + 1, p, e) && FindFrom(s, from).value == s[p + |Opening|..e];
        LeftmostStep(s, from, p, e);
      }
    }
  }

  /**
    Match follows the regular expression: it fails exactly when the pattern
    matches nowhere in the tag, and otherwise returns the capture of the
    leftmost match, taken as long as possible.
  */
  lemma MatchMeaning(tag: string)
    ensures Match(tag).None? <==> forall p: nat, e: nat :: !MatchesWith(tag, p, e)
    ensures Match(tag).Some? ==>
              exists p: nat, e: nat :: LeftmostGreedyFrom(tag, 0, p, e) && Match(tag).value == tag[p + |Opening|..e]
  {
    FindFromNone(tag, 0);
    FindFromSome(tag, 0);
  }

  // ---------------------------------------------------------------------------
  // Consequences for the tags a Go struct carries
  // ---------------------------------------------------------------------------

  /**
    A tag whose first key is db with a valid name yields that name; whatever
    follows it up to the closing quote and backtick (a `,modifier`, further keys)
    is not part of the capture.
  */
  lemma LeadingDbKeyCaptured(d: string, rest: string)
    requires IsDbName(d)
    requires rest == [] || !IsNameChar(rest[0])
    requires '\n' !in rest
    ensures Match(Opening + d + rest + "\"`") == Some(d)
  {
    var s := Opening + d + rest + "\"`";
    var start := |Opening|;
    var end := start + |d|;
    assert s[..start] == Opening;
    CapturedRun(d, rest);
    ClosedAfterRest(Opening + d, rest);
    assert s[start..end] == d;
  }

  /** In such a tag the run of name characters after the opening is exactly the column name. */
  lemma CapturedRun(d: string, rest: string)
    requires IsDbName(d)
    requires rest == [] || !IsNameChar(rest[0])
    ensures RunEnd(Opening + d + rest + "\"`", |Opening|) == |Opening| + |d|
  {
    var s := Opening + d + rest + "\"`";
    var start := |Opening|;
    var end := start + |d|;
    assert forall k | start <= k < end :: s[k] == d[k - start];
    assert !IsNameChar(s[end]) by {
      if rest == [] {
        assert s[end] == '"';
      } else {
        assert s[end] == rest[0];
      }
    }
  }

  /** Text without a newline, then a quote and a backtick, closes the pattern. */
  lemma ClosedAfterRest(head: string, rest: string)
    requires '\n' !in rest
    ensures ClosesFrom(head + rest + "\"`", |head|)
  {
    var s := head + rest + "\"`";
    var q := |head| + |rest|;
    assert s[q] == '"' && s[q + 1] == '`';
    assert forall k | |head| <= k < q :: s[k] == rest[k - |head|];
    ClosesBefore(s, |head|, q);
  }

  /** The tail closes from `i` when a quote and a backtick follow at `q` with no newline in between. */
  lemma {:induction false} ClosesBefore(s: string, i: nat, q: nat)
    requires i <= q && q + 2 <= |s|
    requires s[q] == '"' && s[q + 1] == '`'
    requires forall k | i <= k < q :: s[k] != '\n'
    ensures ClosesFrom(s, i)
    decreases q - i
  {
    if i < q && !(s[i] == '"' && s[i + 1] == '`') {
      ClosesBefore(s, i + 1, q);
    }
  }

  /** No match starts at `from` or later when no backtick before the last code point lies there. */
  lemma {:induction false} NoMatchWithoutBacktick(s: string, from: nat)
    requires from <= |s|
    requires forall k | from <= k < |s| - 1 :: s[k] != '`'
    ensures FindFrom(s, from).None?
    decreases |s| - from
  {
    if from + |Opening| <= |s| {
      assert s[from..from + |Opening|][0] == s[from] != Opening[0];
    }
    assert MatchAt(s, from).None?;
    if from < |s| {
      NoMatchWithoutBacktick(s, from + 1);
    }
  }

  /**
    A struct tag is a raw string literal, which cannot hold a backtick between
    its delimiters. In such a tag the only possible match is at the opening
    backtick, so a tag whose first key is not db never matches.
  */
  lemma DbKeyMustComeFirst(body: string)
    requires '`' !in body
    ensures Match("`" + body + "`") == MatchAt("`" + body + "`", 0)
    ensures Match("`" + body + "`").Some? ==> |body| >= 4 && body[..4] == "db:\""
  {
    var s := "`" + body + "`";
    assert forall k | 1 <= k < |s| - 1 :: s[k] == body[k - 1];
    NoMatchWithoutBacktick(s, 1);
    if MatchAt(s, 0).Some? {
      assert s[..|Opening|] == Opening;
      assert body[..4] == s[1..|Opening|];
    }
  }

  /** A tag that does not start with the db key has no match. */
  lemma OtherFirstKeySkipped(body: string)
    requires '`' !in body
    requires |body| < 4 || body[..4] != "db:\""
    ensures Match("`" + body + "`").None?
  {
    DbKeyMustComeFirst(body);
  }

  /** A db key with an empty value, db:"" , is skipped. */
  lemma EmptyDbValueSkipped(rest: string)
    requires '`' !in rest
    ensures Match("`db:\"\"" + rest + "`").None?
  {
    var body := "db:\"\"" + rest;
    assert "`db:\"\"" + rest + "`" == "`" + body + "`";
    var s := "`" + body + "`";
    DbKeyMustComeFirst(body);
    assert s[|Opening|] == '"';
    assert RunEnd(s, |Opening|) == |Opening|;
  }
}
