/** The string operations the portal applies to phase strings. */
module Texts {

  predicate StartsWith(s: string, prefix: string) {
    |prefix| <= |s| && s[..|prefix|] == prefix
  }

  predicate EndsWith(s: string, suffix: string) {
    |suffix| <= |s| && s[|s| - |suffix|..] == suffix
  }

  /** `str.removeprefix`. */
  function RemovePrefix(s: string, prefix: string): string {
    if StartsWith(s, prefix) then s[|prefix|..] else s
  }

  /** `str.replace(old, new, 1)`. */
  function ReplaceFirst(s: string, old_: string, new_: string): string
    requires old_ != ""
  {
    if StartsWith(s, old_) then new_ + s[|old_|..]
    else if s == "" then ""
    else [s[0]] + ReplaceFirst(s[1..], old_, new_)
  }

  /** SQL `s LIKE 'p%'`, where an underscore in `p` stands for any one character. */
  predicate LikePrefix(s: string, p: string) {
    |p| <= |s| && forall i :: 0 <= i < |p| ==> p[i] == '_' || p[i] == s[i]
  }

  lemma PrefixOfSum(prefix: string, rest: string)
    ensures StartsWith(prefix + rest, prefix)
    ensures RemovePrefix(prefix + rest, prefix) == rest
    ensures prefix != "" ==> forall other :: ReplaceFirst(prefix + rest, prefix, other) == other + rest
  {
    assert (prefix + rest)[..|prefix|] == prefix;
    assert (prefix + rest)[|prefix|..] == rest;
  }

  /** A suffix no longer than the tail is decided by the tail. */
  lemma SuffixOfSum(s: string, tail: string, suffix: string)
    requires EndsWith(s, tail) && |suffix| <= |tail|
    ensures EndsWith(s, suffix) <==> EndsWith(tail, suffix)
  {
    assert s[|s| - |suffix|..] == tail[|tail| - |suffix|..];
  }

  lemma PrefixCharacter(s: string, prefix: string, i: nat)
    requires i < |prefix|
    ensures StartsWith(s, prefix) ==> prefix[i] in s
  {
    if StartsWith(s, prefix) {
      assert s[..|prefix|][i] == s[i];
    }
  }

  /** A string that misses one of the pattern's characters does not contain the pattern. */
  lemma {:induction false} NothingToReplace(s: string, old_: string, new_: string, i: nat)
    requires i < |old_| && old_[i] !in s
    ensures ReplaceFirst(s, old_, new_) == s
  {
    PrefixCharacter(s, old_, i);
    if !StartsWith(s, old_) && s != "" {
      assert forall x :: x in s[1..] ==> x in s;
      NothingToReplace(s[1..], old_, new_, i);
      assert [s[0]] + s[1..] == s;
    }
  }
}
