/** The application-name rule shared by the deploy endpoint and the deploy wizard:
    the regular expression `^[a-zA-Z0-9][a-zA-Z0-9-_]{0,62}$`. */
module AppName {
  import opened Common

  predicate IsAsciiAlphanumeric(c: char)
  {
    'a' <= c <= 'z' || 'A' <= c <= 'Z' || '0' <= c <= '9'
  }

  /** The class `[a-zA-Z0-9-_]`: the `-` that follows the range `0-9` cannot
      start another range, so it stands for a literal hyphen. */
  predicate IsNameChar(c: char)
  {
    IsAsciiAlphanumeric(c) || c == '-' || c == '_'
  }

  /** `[a-zA-Z0-9-_]{0,max}$` against what is left of the input: up to `max`
      repetitions of the class, then the end of the input. */
  predicate MatchesTail(t: string, max: nat)
  {
    if t == [] then true
    else max > 0 && IsNameChar(t[0]) && MatchesTail(t[1..], max - 1)
  }

  /** `/^[a-zA-Z0-9][a-zA-Z0-9-_]{0,62}$/.test(s)`. */
  predicate MatchesPattern(s: string)
  {
    |s| > 0 && IsAsciiAlphanumeric(s[0]) && MatchesTail(s[1..], 62)
  }

  /** The rule in words: one to 63 characters, an ASCII letter or digit first,
      and only ASCII letters, digits, '-' and '_' after it. */
  predicate ValidAppName(s: string)
  {
    && 1 <= |s| <= 63
    && IsAsciiAlphanumeric(s[0])
    && forall i :: 1 <= i < |s| ==> IsNameChar(s[i])
  }

  lemma {:induction false} MatchesTailIff(t: string, max: nat)
    ensures MatchesTail(t, max) <==> |t| <= max && forall i :: 0 <= i < |t| ==> IsNameChar(t[i])
  {
    if t != [] {
      MatchesTailIff(t[1..], if max > 0 then max - 1 else 0);
      assert forall i :: 1 <= i < |t| ==> t[i] == t[1..][i - 1];
    }
  }

  /** The regular expression accepts exactly the names the rule in words describes. */
  lemma PatternMatchesExactlyValidNames(s: string)
    ensures MatchesPattern(s) <==> ValidAppName(s)
  {
    if |s| > 0 {
      MatchesTailIff(s[1..], 62);
      assert forall i :: 1 <= i < |s| ==> s[i] == s[1..][i - 1];
    }
  }

  /** A name that is blank after trimming never matches the pattern either. */
  lemma BlankNamesFailPattern(s: string)
    requires Trim(s) == ""
    ensures !MatchesPattern(s)
  {
    TrimEmptyIffAllWhitespace(s);
    if |s| > 0 {
      assert IsJsWhitespace(s[0]);
    }
  }
}
