/** The red-flag keyword scan of utils/safety_rules.py. */
module SafetyRules {
  import opened Text

  /** RED_FLAGS, in list order. */
  const RedFlags: seq<string> := [
    "chest pain",
    "difficulty breathing",
    "stiff neck",
    "drooling",
    "cannot swallow",
    "confusion",
    "fainting",
    "bleeding",
    "seizure",
    "rash and fever",
    "fever more than 3 days",
    "infant",
    "pregnant"
  ]

  /** a lists some of the elements of b, in b's order. */
  predicate IsSubsequence(a: seq<string>, b: seq<string>)
    decreases |b|
  {
    if a == [] then true
    else if b == [] then false
    else if a[0] == b[0] then IsSubsequence(a[1..], b[1..])
    else IsSubsequence(a, b[1..])
  }

  predicate NoDuplicates(s: seq<string>) {
    forall i, j | 0 <= i < j < |s| :: s[i] != s[j]
  }

  /** [flag for flag in flags if flag in lowered] */
  function Matching(flags: seq<string>, lowered: string): (found: seq<string>)
    ensures IsSubsequence(found, flags)
    ensures forall f :: f in found <==> f in flags && Contains(lowered, f)
    decreases |flags|
  {
    if flags == [] then []
    else if Contains(lowered, flags[0]) then [flags[0]] + Matching(flags[1..], lowered)
    else Matching(flags[1..], lowered)
  }

  /** check_red_flags: the red flags that occur in the lower-cased input, in
      RED_FLAGS order, each once. */
  function CheckRedFlags(userInput: string): (found: seq<string>)
    ensures IsSubsequence(found, RedFlags)
    ensures forall f :: f in found <==> f in RedFlags && Contains(Lower(userInput), f)
    ensures NoDuplicates(found)
    ensures |found| <= |RedFlags| == 13
  {
    var found := Matching(RedFlags, Lower(userInput));
    RedFlagsDistinct();
    SubsequenceNoDuplicates(found, RedFlags);
    SubsequenceLength(found, RedFlags);
    found
  }

  /** The thirteen keywords are pairwise distinct: no two agree in both length and
      first letter. */
  lemma RedFlagsDistinct()
    ensures NoDuplicates(RedFlags)
  {
    forall i, j | 0 <= i < j < |RedFlags| ensures RedFlags[i] != RedFlags[j] {
      assert |RedFlags[i]| != |RedFlags[j]| || RedFlags[i][0] != RedFlags[j][0];
    }
  }

  lemma {:induction false} SubsequenceLength(a: seq<string>, b: seq<string>)
    requires IsSubsequence(a, b)
    ensures |a| <= |b|
    decreases |b|
  {
    if a != [] {
      if a[0] == b[0] {
        SubsequenceLength(a[1..], b[1..]);
      } else {
        SubsequenceLength(a, b[1..]);
      }
    }
  }

  lemma {:induction false} SubsequenceMembers(a: seq<string>, b: seq<string>)
    requires IsSubsequence(a, b)
    ensures forall x | x in a :: x in b
    decreases |b|
  {
    if a != [] {
      if a[0] == b[0] {
        SubsequenceMembers(a[1..], b[1..]);
        assert forall x | x in a :: x == a[0] || x in a[1..];
      } else {
        SubsequenceMembers(a, b[1..]);
      }
    }
  }

  /** A subsequence of a list without duplicates has none either. */
  lemma {:induction false} SubsequenceNoDuplicates(a: seq<string>, b: seq<string>)
    requires IsSubsequence(a, b) && NoDuplicates(b)
    ensures NoDuplicates(a)
    decreases |b|
  {
    if a != [] {
      assert NoDuplicates(b[1..]) by {
        forall i, j | 0 <= i < j < |b[1..]| ensures b[1..][i] != b[1..][j] {
          assert b[1..][i] == b[i + 1] && b[1..][j] == b[j + 1];
        }
      }
      if a[0] == b[0] {
        SubsequenceNoDuplicates(a[1..], b[1..]);
        SubsequenceMembers(a[1..], b[1..]);
        forall j | 0 < j < |a| ensures a[0] != a[j] {
          assert a[j] == a[1..][j - 1];
          assert a[j] in b[1..];
        }
      } else {
        SubsequenceNoDuplicates(a, b[1..]);
      }
    }
  }

  /** Lower-casing the input first changes nothing: the scan ignores letter case. */
  lemma CaseInsensitive(userInput: string)
    ensures CheckRedFlags(Lower(userInput)) == CheckRedFlags(userInput)
  {
    assert Lower(Lower(userInput)) == Lower(userInput);
  }

  /** No non-empty keyword occurs in the empty string. */
  lemma {:induction false} NothingMatchesEmpty(flags: seq<string>)
    requires forall i | 0 <= i < |flags| :: flags[i] != ""
    ensures Matching(flags, "") == []
    decreases |flags|
  {
    if flags != [] {
      assert !Contains("", flags[0]) by {
        forall i | 0 <= i <= 0 ensures !(flags[0] <= ""[i..]) {
        }
      }
      NothingMatchesEmpty(flags[1..]);
    }
  }

  /** Empty input raises no flag. */
  lemma EmptyInputNoFlags()
    ensures CheckRedFlags("") == []
  {
    assert Lower("") == "";
    NothingMatchesEmpty(RedFlags);
  }

  /** Appending text to the input never removes a detected flag. */
  lemma MonotoneUnderAppend(s: string, t: string, f: string)
    requires f in CheckRedFlags(s)
    ensures f in CheckRedFlags(s + t)
  {
    LowerAppend(s, t);
    ContainsAppend(Lower(s), Lower(t), f);
  }
}
