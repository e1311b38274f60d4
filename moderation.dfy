/** Content moderation: the link and spam test applied to group messages, and the per-group switch
    that turns it on. */
module Moderation {
  import opened Text

  /** The top-level domains the link pattern recognises after "<letters or digits>.". */
  const Tlds: seq<string> := ["com", "net", "org", "io", "co", "in", "me", "xyz", "info"]

  const SpamKeywords: seq<string> := [
    "click here", "buy now", "limited offer", "free money", "earn money", "work from home",
    "get rich", "make money online"
  ]

  /** One of the three link alternatives matches at the start of `low`, a lower-cased text:
      "http://" or "https://" followed by a non-space character, "www." followed by a non-space
      character, or a letter or digit followed by "." and a listed domain. The pattern is
      case-insensitive and only ASCII letters take part in it, so matching the lower-cased text is
      the same as matching the original. */
  predicate UrlAt(low: string) {
    (StartsWith(low, "http://") && |low| > 7 && !IsSpace(low[7]))
    || (StartsWith(low, "https://") && |low| > 8 && !IsSpace(low[8]))
    || (StartsWith(low, "www.") && |low| > 4 && !IsSpace(low[4]))
    || (|low| > 0 && IsAsciiAlnum(low[0]) && exists k :: 0 <= k < |Tlds| && StartsWith(low[1..], "." + Tlds[k]))
  }

  /** The link pattern matches somewhere in `low`. */
  predicate HasUrl(low: string)
    decreases |low|
  {
    |low| > 0 && (UrlAt(low) || HasUrl(low[1..]))
  }

  predicate HasSpamKeyword(low: string) {
    exists k :: 0 <= k < |SpamKeywords| && Contains(low, SpamKeywords[k])
  }

  /** What hasUnauthorizedContent decides: a non-empty text that holds a link or, lower-cased, a
      spam phrase. */
  predicate IsUnauthorized(text: string)
    ensures text == "" ==> !IsUnauthorized(text)
  {
    text != "" && (HasUrl(LowerAscii(text)) || HasSpamKeyword(LowerAscii(text)))
  }

  /** hasUnauthorizedContent: the link test first, then the keywords one by one. */
  method HasUnauthorizedContent(text: string) returns (r: bool)
    ensures r == IsUnauthorized(text)
  {
    if text == "" {
      return false;
    }
    var lower := LowerAscii(text);
    if HasUrl(lower) {
      return true;
    }
    var i := 0;
    while i < |SpamKeywords|
      invariant 0 <= i <= |SpamKeywords|
      invariant forall k :: 0 <= k < i ==> !Contains(lower, SpamKeywords[k])
    {
      if Contains(lower, SpamKeywords[i]) {
        return true;
      }
      i := i + 1;
    }
    return false;
  }

  /** isModerationEnabled: off when no group is listed, otherwise on exactly for the listed groups. */
  function IsModerationEnabled(enabledGroups: seq<string>, group: string): (r: bool)
    ensures enabledGroups == [] ==> !r
    ensures r <==> group in enabledGroups
  {
    if |enabledGroups| == 0 then false else group in enabledGroups
  }

  /** MODERATION_ENABLED_GROUPS as shipped, in both bots: empty. */
  const ModerationEnabledGroups: seq<string> := []

  lemma LowerCharIdempotent(c: char)
    ensures LowerChar(LowerChar(c)) == LowerChar(c)
  {
  }

  lemma {:induction false} LowerAsciiConcat(a: string, b: string)
    ensures LowerAscii(a + b) == LowerAscii(a) + LowerAscii(b)
  {
    var l := LowerAscii(a + b);
    assert forall i :: 0 <= i < |a| ==> l[i] == LowerChar(a[i]);
    assert forall i :: |a| <= i < |a| + |b| ==> l[i] == LowerChar(b[i - |a|]);
  }

  lemma {:induction false} LowerAsciiIdempotent(s: string)
    ensures LowerAscii(LowerAscii(s)) == LowerAscii(s)
  {
    forall i | 0 <= i < |s|
      ensures LowerAscii(LowerAscii(s))[i] == LowerAscii(s)[i]
    {
      LowerCharIdempotent(s[i]);
    }
  }

  /** The decision ignores the case of ASCII letters. */
  lemma IgnoresLetterCase(text: string)
    ensures IsUnauthorized(LowerAscii(text)) == IsUnauthorized(text)
  {
    LowerAsciiIdempotent(text);
  }

  /** A link found at position `i` is found by the scan. */
  lemma {:induction false} HasUrlFrom(low: string, i: nat)
    requires i < |low| && UrlAt(low[i..])
    ensures HasUrl(low)
    decreases i
  {
    if i > 0 {
      assert low[1..][i - 1..] == low[i..];
      HasUrlFrom(low[1..], i - 1);
    }
  }

  /** Lower-casing changes neither white space nor punctuation. */
  lemma LowerCharKeeps(c: char)
    ensures IsSpace(LowerChar(c)) <==> IsSpace(c)
    ensures LowerChar(c) == '.' <==> c == '.'
    ensures LowerChar(c) == ':' <==> c == ':'
  {
  }

  /** A link written "http://", "https://" or "www." in any letter case and followed by a
      non-space character is flagged, wherever it stands in the text. */
  lemma LinkFlagged(before: string, scheme: string, rest: string)
    requires LowerAscii(scheme) in ["http://", "https://", "www."]
    requires |rest| > 0 && !IsSpace(rest[0])
    ensures IsUnauthorized(before + scheme + rest)
  {
    var text := before + scheme + rest;
    LowerAsciiConcat(before + scheme, rest);
    LowerAsciiConcat(before, scheme);
    var low := LowerAscii(text);
    assert low == LowerAscii(before) + LowerAscii(scheme) + LowerAscii(rest);
    var i := |before|;
    var tail := low[i..];
    assert tail == LowerAscii(scheme) + LowerAscii(rest);
    LowerCharKeeps(rest[0]);
    assert tail[|scheme|] == LowerChar(rest[0]);
    assert StartsWith(tail, LowerAscii(scheme));
    assert UrlAt(tail);
    HasUrlFrom(low, i);
  }

  /** A spam phrase written in any letter case is flagged, wherever it stands in the text. */
  lemma SpamPhraseFlagged(before: string, phrase: string, after: string, k: nat)
    requires k < |SpamKeywords| && LowerAscii(phrase) == SpamKeywords[k]
    ensures IsUnauthorized(before + phrase + after)
  {
    LowerAsciiConcat(before + phrase, after);
    LowerAsciiConcat(before, phrase);
    var low := LowerAscii(before + phrase + after);
    assert low == LowerAscii(before) + SpamKeywords[k] + LowerAscii(after);
    ContainsAt(SpamKeywords[k], SpamKeywords[k], 0);
    ContainsInRight(LowerAscii(before), SpamKeywords[k], SpamKeywords[k]);
    ContainsInLeft(LowerAscii(before) + SpamKeywords[k], LowerAscii(after), SpamKeywords[k]);
  }

  /** Every link alternative holds a '.' or a ':'. */
  lemma {:induction false} UrlHasMarker(low: string)
    requires HasUrl(low)
    ensures '.' in low || ':' in low
    decreases |low|
  {
    if UrlAt(low) {
      if StartsWith(low, "http://") {
        assert low[4] == ':';
      } else if StartsWith(low, "https://") {
        assert low[5] == ':';
      } else if StartsWith(low, "www.") {
        assert low[3] == '.';
      } else {
        assert low[1] == '.';
      }
    } else {
      UrlHasMarker(low[1..]);
      assert forall c :: c in low[1..] ==> c in low;
    }
  }

  /** A text without '.', without ':' and without a spam phrase is never flagged. */
  lemma PlainTextPasses(text: string)
    requires '.' !in text && ':' !in text
    requires !HasSpamKeyword(LowerAscii(text))
    ensures !IsUnauthorized(text)
  {
    var low := LowerAscii(text);
    forall i | 0 <= i < |low|
      ensures low[i] != '.' && low[i] != ':'
    {
      LowerCharKeeps(text[i]);
    }
    if HasUrl(low) {
      UrlHasMarker(low);
    }
  }
}
