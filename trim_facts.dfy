/** What `trim` keeps: the stretch of the string between its first and last non-space
    characters. */
module TrimFacts {
  import opened Text

  lemma LeadingSpaceBefore(s: string, i: nat)
    requires i < |s| && !IsSpace(s[i])
    ensures LeadingSpace(s) <= i
  {
  }

  lemma TrailingSpaceAfter(s: string, k: nat)
    requires k < |s| && !IsSpace(s[k])
    ensures k < |s| - TrailingSpace(s)
  {
  }

  /** `trim` cuts exactly the white space around the text: for any stretch `s[a..b]` with only
      white space before and after it, and non-space characters at its ends, `Trim(s)` is that
      stretch. */
  lemma TrimIsSlice(s: string, a: nat, b: nat)
    requires a <= b <= |s|
    requires forall i :: 0 <= i < a ==> IsSpace(s[i])
    requires forall i :: b <= i < |s| ==> IsSpace(s[i])
    requires a < b ==> !IsSpace(s[a]) && !IsSpace(s[b - 1])
    ensures Trim(s) == s[a..b]
  {
    if a < b {
      LeadingSpaceBefore(s, a);
      TrailingSpaceAfter(s, b - 1);
    }
  }

  lemma SliceOfSlice(s: string, a: nat, b: nat, c: nat, d: nat)
    requires a <= b <= |s| && c <= d <= b - a
    ensures s[a..b][c..d] == s[a + c..a + d]
  {
    assert forall k :: 0 <= k < d - c ==> s[a..b][c..d][k] == s[a + c + k];
  }

  /** A stretch that starts and ends with a non-space character survives `trim`. */
  lemma TrimKeepsInner(s: string, i: nat, j: nat)
    requires i < j <= |s|
    requires !IsSpace(s[i]) && !IsSpace(s[j - 1])
    ensures Contains(Trim(s), s[i..j])
  {
    var a := LeadingSpace(s);
    var b := |s| - TrailingSpace(s);
    LeadingSpaceBefore(s, i);
    TrailingSpaceAfter(s, j - 1);
    assert Trim(s) == s[a..b];
    SliceOfSlice(s, a, b, i - a, j - a);
    ContainsAt(Trim(s), s[i..j], i - a);
  }

  /** A prefix that starts and ends with a non-space character survives `trim` as a prefix. */
  lemma TrimKeepsPrefix(s: string, j: nat)
    requires 0 < j <= |s|
    requires !IsSpace(s[0]) && !IsSpace(s[j - 1])
    ensures StartsWith(Trim(s), s[..j])
  {
    LeadingSpaceBefore(s, 0);
    TrailingSpaceAfter(s, j - 1);
    assert Trim(s)[..j] == s[..j];
  }

  /** A word that starts and ends with a non-space character, found anywhere in a string, is
      still found once the string is trimmed. */
  lemma TrimKeepsWordAt(s: string, p: nat, word: string)
    requires |word| > 0 && !IsSpace(word[0]) && !IsSpace(word[|word| - 1])
    requires p + |word| <= |s| && s[p..p + |word|] == word
    ensures Contains(Trim(s), word)
  {
    assert s[p] == word[0];
    assert s[p + |word| - 1] == word[|word| - 1];
    TrimKeepsInner(s, p, p + |word|);
  }

  /** A word found, followed by a space, in the tail of a string is still found once the whole
      string is trimmed, when it starts and ends with a non-space character. */
  lemma TrimKeepsWord(prefix: string, line: string, word: string)
    requires |word| > 0 && !IsSpace(word[0]) && !IsSpace(word[|word| - 1])
    requires Contains(line, word + " ")
    ensures Contains(Trim(prefix + line), word)
  {
    var i := IndexOf(line, word + " ");
    assert line[i..i + |word|] == word by {
      assert line[i..i + |word|] == (word + " ")[..|word|];
    }
    var p := |prefix| + i;
    assert (prefix + line)[p..p + |word|] == line[i..i + |word|];
    TrimKeepsWordAt(prefix + line, p, word);
  }
}
