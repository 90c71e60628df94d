/** `extract_string_between_brackets`: Python's `re.search(r'\((.*?)\)', s)`
    and its group 1. The search tries each start position from the left; at an
    opening bracket the lazy group grows one character at a time until the next
    `)`, and `.` does not match a newline, so a newline before that `)` makes the
    attempt at this bracket fail. */
module Brackets {
  import opened Wrappers

  /** The pattern matches with its `(` at `i` and its `)` at `j`. */
  predicate GroupAt(s: string, i: nat, j: nat) {
    i < j < |s| && s[i] == '(' && s[j] == ')' &&
    forall k :: i < k < j ==> s[k] != ')' && s[k] != '\n'
  }

  /** An attempt at start position `i` succeeds. */
  predicate MatchesAt(s: string, i: nat) {
    exists j: nat | j < |s| :: GroupAt(s, i, j)
  }

  /** The lazy group's end: the first `)` from `k` on, unless a newline comes first. */
  function CloseFrom(s: string, k: nat): (r: Option<nat>)
    ensures r.Some? ==> k <= r.value < |s| && s[r.value] == ')'
    decreases |s| - k
  {
    if k >= |s| then None
    else if s[k] == ')' then Some(k)
    else if s[k] == '\n' then None
    else CloseFrom(s, k + 1)
  }

  /** The scan over start positions from `i` on: the first attempt that succeeds. */
  function SearchFrom(s: string, i: nat): (r: Option<(nat, nat)>)
    ensures r.Some? ==> i <= r.value.0 < r.value.1 < |s|
    decreases |s| - i
  {
    if i >= |s| then None
    else if s[i] == '(' && CloseFrom(s, i + 1).Some? then Some((i, CloseFrom(s, i + 1).value))
    else SearchFrom(s, i + 1)
  }

  /** `re.search(r'\((.*?)\)', s)`: the positions of the match's brackets, or None. */
  function MatchSpan(s: string): Option<(nat, nat)> {
    SearchFrom(s, 0)
  }

  /** `extract_string_between_brackets(s)`: the text between the matched brackets. */
  function ExtractBetweenBrackets(s: string): (r: Option<string>)
    ensures r.None? <==> forall a: nat :: !MatchesAt(s, a)
    ensures r.Some? ==> ')' !in r.value && '\n' !in r.value
  {
    MatchSpanLeftmost(s);
    match MatchSpan(s)
    case None => None
    case Some((i, j)) =>
      assert GroupAt(s, i, j);
      var t := s[i + 1..j];
      assert forall k | 0 <= k < |t| :: t[k] == s[i + 1 + k];
      Some(t)
  }

  lemma {:induction false} CloseFromMeaning(s: string, i: nat, k: nat)
    requires i < k <= |s| && s[i] == '('
    requires forall m :: i < m < k ==> s[m] != ')' && s[m] != '\n'
    ensures CloseFrom(s, k).Some? ==> GroupAt(s, i, CloseFrom(s, k).value)
    ensures CloseFrom(s, k).None? <==> !MatchesAt(s, i)
    decreases |s| - k
  {
    if k < |s| && s[k] != ')' && s[k] != '\n' {
      CloseFromMeaning(s, i, k + 1);
    } else if k < |s| && s[k] == ')' {
      assert GroupAt(s, i, k);
    }
  }

  /** Whether the attempt at `i` succeeds, and where its group ends. */
  lemma AttemptAt(s: string, i: nat)
    requires i < |s|
    ensures s[i] == '(' && CloseFrom(s, i + 1).Some? ==> GroupAt(s, i, CloseFrom(s, i + 1).value)
    ensures MatchesAt(s, i) <==> s[i] == '(' && CloseFrom(s, i + 1).Some?
  {
    if s[i] == '(' {
      CloseFromMeaning(s, i, i + 1);
    }
  }

  /** A group closes at the first `)` after its `(`: the end is determined by the start. */
  lemma GroupEndUnique(s: string, i: nat, j1: nat, j2: nat)
    requires GroupAt(s, i, j1) && GroupAt(s, i, j2)
    ensures j1 == j2
  {
  }

  lemma {:induction false} SearchFromMeaning(s: string, i: nat)
    ensures SearchFrom(s, i).None? <==> forall a: nat :: i <= a ==> !MatchesAt(s, a)
    ensures SearchFrom(s, i).Some? ==>
              var (a, b) := SearchFrom(s, i).value;
              i <= a && GroupAt(s, a, b) && forall a': nat :: i <= a' < a ==> !MatchesAt(s, a')
    decreases |s| - i
  {
    if i < |s| {
      AttemptAt(s, i);
      SearchFromMeaning(s, i + 1);
      if SearchFrom(s, i).None? {
        forall a: nat | i <= a ensures !MatchesAt(s, a) {
        }
      }
    }
  }

  /** The match is the leftmost successful attempt: its `(` is the first start
      position where the pattern matches, and its `)` the first `)` after it,
      with no newline in between; there is no match exactly when no attempt succeeds. */
  lemma MatchSpanLeftmost(s: string)
    ensures MatchSpan(s).None? <==> forall a: nat :: !MatchesAt(s, a)
    ensures forall a: nat, b: nat ::
              MatchSpan(s) == Some((a, b)) <==> GroupAt(s, a, b) && forall a': nat :: a' < a ==> !MatchesAt(s, a')
  {
    SearchFromMeaning(s, 0);
    forall a: nat, b: nat | GroupAt(s, a, b) && (forall a': nat :: a' < a ==> !MatchesAt(s, a'))
      ensures MatchSpan(s) == Some((a, b))
    {
      assert MatchesAt(s, a);
      var (a0, b0) := MatchSpan(s).value;
      assert !(a0 < a) by {
        if a0 < a {
          assert MatchesAt(s, a0);
        }
      }
      GroupEndUnique(s, a, b, b0);
    }
  }

  /** The extracted tag is the text between the leftmost matching `(` and the
      first `)` after it; it never contains `)` (nor a newline); and there is
      none exactly when no `(` is followed by a `)` without a newline between. */
  lemma ExtractMeaning(s: string)
    ensures ExtractBetweenBrackets(s).None? <==> forall a: nat :: !MatchesAt(s, a)
    ensures ExtractBetweenBrackets(s).Some? ==>
              var t := ExtractBetweenBrackets(s).value;
              && ')' !in t && '\n' !in t
              && exists a: nat, b: nat ::
                   GroupAt(s, a, b) && t == s[a + 1..b] && forall a': nat :: a' < a ==> !MatchesAt(s, a')
  {
    SearchFromMeaning(s, 0);
    if MatchSpan(s).Some? {
      var (a, b) := MatchSpan(s).value;
      assert GroupAt(s, a, b);
      assert ExtractBetweenBrackets(s) == Some(s[a + 1..b]);
    }
  }

  /** For a newline-free label, the pattern matches at `i` exactly when `i`
      holds a `(` with a `)` somewhere after it. */
  lemma NewlineFreeAttempt(s: string, i: nat)
    requires '\n' !in s
    ensures MatchesAt(s, i) <==> i < |s| && s[i] == '(' && exists j :: i < j < |s| && s[j] == ')'
  {
    if i < |s| && s[i] == '(' && exists j :: i < j < |s| && s[j] == ')' {
      var j :| i < j < |s| && s[j] == ')';
      FirstCloseAfter(s, i, j);
    }
  }

  lemma {:induction false} FirstCloseAfter(s: string, i: nat, j: nat)
    requires '\n' !in s && i < j < |s| && s[i] == '(' && s[j] == ')'
    ensures MatchesAt(s, i)
    decreases j - i
  {
    if exists m :: i < m < j && s[m] == ')' {
      var m :| i < m < j && s[m] == ')';
      FirstCloseAfter(s, i, m);
    } else {
      assert GroupAt(s, i, j);
    }
  }

  /** A label `prefix (tag) suffix` whose prefix has no `(` yields its tag. */
  lemma {:induction false} TagOfLabel(prefix: string, tag: string, suffix: string)
    requires '(' !in prefix && ')' !in tag && '\n' !in tag
    ensures ExtractBetweenBrackets(prefix + "(" + tag + ")" + suffix) == Some(tag)
  {
    var s := prefix + "(" + tag + ")" + suffix;
    var a := |prefix|;
    var b := a + 1 + |tag|;
    assert GroupAt(s, a, b) by {
      forall k | a < k < b ensures s[k] != ')' && s[k] != '\n' {
        assert s[k] == tag[k - a - 1];
      }
    }
    forall a': nat | a' < a ensures !MatchesAt(s, a') {
      assert s[a'] == prefix[a'];
    }
    MatchSpanLeftmost(s);
    assert MatchSpan(s) == Some((a, b));
    assert s[a + 1..b] == tag;
  }

  /** A label without `(` has no tag. */
  lemma NoOpenBracket(s: string)
    requires '(' !in s
    ensures ExtractBetweenBrackets(s) == None
  {
    ExtractMeaning(s);
    forall a: nat ensures !MatchesAt(s, a) {
      if a < |s| {
        assert s[a] in s;
      }
    }
  }

  /** `extract_string_between_brackets("Yield factor (xi)")` is `"xi"`. */
  lemma YieldFactorTag()
    ensures ExtractBetweenBrackets("Yield factor (xi)") == Some("xi")
  {
    TagOfLabel("Yield factor ", "xi", "");
    assert "Yield factor " + "(" + "xi" + ")" + "" == "Yield factor (xi)";
  }
}
