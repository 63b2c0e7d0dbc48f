/** The mention strip both handlers apply to a message that mentions the
    bot: `content.replace(/<@!?(\d+)>/, "").trim()`. The regular expression
    is not global, so only its leftmost match is removed, whichever user
    that token names. */
module Mention {

  import opened Wrappers
  import opened JsText

  /** A whole mention token: `<@`, an optional `!`, one or more ASCII
      digits, `>`. */
  predicate IsToken(t: string) {
    |t| >= 4 && t[0] == '<' && t[1] == '@' && t[|t| - 1] == '>' &&
    var body := t[2..|t| - 1];
    AllDigits(body) || (body[0] == '!' && |body| >= 2 && AllDigits(body[1..]))
  }

  lemma SliceOfSlice(s: string, a: nat, b: nat, c: nat, d: nat)
    requires a <= b <= |s| && c <= d <= b - a
    ensures s[a..b][c..d] == s[a + c..a + d]
  {
    assert forall k :: 0 <= k < d - c ==> s[a..b][c..d][k] == s[a + c + k];
  }

  /** Where a token starts and ends in the content: `s[start..end]`. */
  datatype Span = Span(start: nat, end: nat)

  /** The end of the run of digits that begins at `k`. */
  function DigitRunEnd(s: string, k: nat): (e: nat)
    requires k <= |s|
    ensures k <= e <= |s|
    decreases |s| - k
  {
    if k < |s| && IsDigit(s[k]) then DigitRunEnd(s, k + 1) else k
  }

  /** The run found by `DigitRunEnd` is all digits and maximal. */
  lemma {:induction false} DigitRunEndSpec(s: string, k: nat)
    requires k <= |s|
    ensures var e := DigitRunEnd(s, k);
      (forall p :: k <= p < e ==> IsDigit(s[p])) && (e < |s| ==> !IsDigit(s[e]))
    decreases |s| - k
  {
    if k < |s| && IsDigit(s[k]) {
      DigitRunEndSpec(s, k + 1);
    }
  }

  /** The end of the token that the regular expression matches at `i`, if
      any. The digit run is taken whole: a shorter run would be followed by
      a digit, never by `>`, so backtracking finds nothing else; and with
      `!` present the match without it would need a digit where `!` is. */
  function MatchAt(s: string, i: nat): (m: Option<nat>)
    requires i <= |s|
    ensures m.Some? ==> i + 4 <= m.value <= |s|
  {
    if i + 2 < |s| && s[i] == '<' && s[i + 1] == '@' then
      var d := if s[i + 2] == '!' then i + 3 else i + 2;
      var e := DigitRunEnd(s, d);
      if d < e < |s| && s[e] == '>' then Some(e + 1) else None
    else None
  }

  /** What `MatchAt` finds is a token. */
  lemma MatchAtSound(s: string, i: nat)
    requires i <= |s| && MatchAt(s, i).Some?
    ensures IsToken(s[i..MatchAt(s, i).value])
  {
    var d := if s[i + 2] == '!' then i + 3 else i + 2;
    var e := DigitRunEnd(s, d);
    DigitRunEndSpec(s, d);
    var t := s[i..e + 1];
    SliceOfSlice(s, i, e + 1, 2, e - i);
    SliceOfSlice(s, i + 2, e, 1, e - i - 2);
  }

  /** Every token in the content is found by `MatchAt` at its start, with
      its exact end: the matcher misses none and the end is unique. */
  lemma MatchAtComplete(s: string, i: nat, j: nat)
    requires i <= j <= |s| && IsToken(s[i..j])
    ensures MatchAt(s, i) == Some(j)
  {
    var t := s[i..j];
    var body := t[2..|t| - 1];
    SliceOfSlice(s, i, j, 2, j - i - 1);
    var d := if s[i + 2] == '!' then i + 3 else i + 2;
    var digits := s[d..j - 1];
    if s[i + 2] == '!' {
      assert !IsDigit(body[0]);
      SliceOfSlice(s, i + 2, j - 1, 1, j - i - 3);
      assert digits == body[1..];
    } else {
      assert digits == body;
    }
    assert AllDigits(digits);
    forall p | d <= p < j - 1 ensures IsDigit(s[p]) {
      assert s[p] == digits[p - d];
    }
    DigitRunEndSpec(s, d);
    assert !IsDigit(s[j - 1]);
    assert DigitRunEnd(s, d) == j - 1;
  }

  /** The leftmost match at or after position `i`: what the regular
      expression engine finds, trying each start position in turn. */
  function FindFrom(s: string, i: nat): (r: Option<Span>)
    requires i <= |s|
    ensures r.Some? ==> i <= r.value.start && r.value.start + 4 <= r.value.end <= |s|
    decreases |s| - i
  {
    var m := MatchAt(s, i);
    if m.Some? then Some(Span(i, m.value))
    else if i == |s| then None
    else FindFrom(s, i + 1)
  }

  /** `FindFrom` returns a match with no match starting before it, or
      reports that no position from `i` on starts a match. */
  lemma {:induction false} FindFromSpec(s: string, i: nat)
    requires i <= |s|
    ensures var r := FindFrom(s, i);
      (r.Some? ==> MatchAt(s, r.value.start) == Some(r.value.end) &&
                   forall p :: i <= p < r.value.start ==> MatchAt(s, p).None?) &&
      (r.None? ==> forall p :: i <= p <= |s| ==> MatchAt(s, p).None?)
    decreases |s| - i
  {
    if MatchAt(s, i).None? && i < |s| {
      FindFromSpec(s, i + 1);
    }
  }

  /** `s.replace(/<@!?(\d+)>/, "")`: the leftmost token cut out, the rest
      kept verbatim. The content changes exactly when the expression
      matches, and then loses at least a whole four-character token. */
  function ReplaceFirst(s: string): (r: string)
    ensures r == s <==> FindFrom(s, 0).None?
    ensures FindFrom(s, 0).Some? ==> |r| + 4 <= |s|
    ensures var f := FindFrom(s, 0);
      f.Some? ==> IsToken(s[f.value.start..f.value.end]) &&
                  r == s[..f.value.start] + s[f.value.end..]
  {
    match FindFrom(s, 0)
    case Some(sp) =>
      FindFromSpec(s, 0);
      MatchAtSound(s, sp.start);
      s[..sp.start] + s[sp.end..]
    case None => s
  }

  /** The content forwarded for a message that mentions the bot: shorter
      by at least a token when there is one, and free of white space at
      both ends. */
  function StripMention(s: string): (r: string)
    ensures |r| <= |s|
    ensures FindFrom(s, 0).Some? ==> |r| + 4 <= |s|
    ensures r != [] ==> !IsWhiteSpace(r[0]) && !IsWhiteSpace(r[|r| - 1])
  {
    Trim(ReplaceFirst(s))
  }

  /** When `s[i..j]` is the leftmost token of `s`, stripping removes exactly
      that token, keeps everything before and after it (later mention tokens
      included) and then trims. */
  lemma StripRemovesLeftmostToken(s: string, i: nat, j: nat)
    requires i <= j <= |s| && IsToken(s[i..j])
    requires forall p, q :: 0 <= p < i && p <= q <= |s| ==> !IsToken(s[p..q])
    ensures ReplaceFirst(s) == s[..i] + s[j..]
    ensures StripMention(s) == Trim(s[..i] + s[j..])
  {
    assert FindFrom(s, 0) == Some(Span(i, j)) by {
      MatchAtComplete(s, i, j);
      FindFromSpec(s, 0);
      var r := FindFrom(s, 0);
      if r.Some? && r.value.start < i {
        MatchAtSound(s, r.value.start);
      }
    }
  }

  /** Content with no token anywhere is only trimmed. */
  lemma StripWithoutToken(s: string)
    requires forall p, q :: 0 <= p <= q <= |s| ==> !IsToken(s[p..q])
    ensures ReplaceFirst(s) == s
    ensures StripMention(s) == Trim(s)
  {
    FindFromSpec(s, 0);
    var r := FindFrom(s, 0);
    if r.Some? {
      MatchAtSound(s, r.value.start);
    }
  }

  /** A message that opens with a mention token, in the `<@id>` or the
      `<@!id>` form, is forwarded as the rest of the message, trimmed,
      whichever user the token names. */
  lemma {:induction false} StripLeadingMention(t: string, rest: string)
    requires IsToken(t)
    ensures StripMention(t + rest) == Trim(rest)
  {
    var s := t + rest;
    assert s[0..|t|] == t;
    StripRemovesLeftmostToken(s, 0, |t|);
    assert s[..0] + s[|t|..] == rest;
  }
}
