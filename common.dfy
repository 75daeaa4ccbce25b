/** Small building blocks shared by the other modules: an optional value and
    the two string operations the tool relies on, Python's substring test
    (`needle in haystack`) and `str.lower()`. */
module Common {

  datatype Option<+T> = None | Some(value: T)

  /** `needle in haystack` on Python strings: the needle is a prefix of the
      haystack or of one of its suffixes. The empty needle is in every string. */
  predicate Contains(haystack: string, needle: string)
    decreases |haystack|
  {
    needle <= haystack || (haystack != [] && Contains(haystack[1..], needle))
  }

  /** The same relation stated by position, as an independent reference. */
  ghost predicate OccursAt(haystack: string, needle: string, k: int)
  {
    0 <= k && k + |needle| <= |haystack| && haystack[k..k + |needle|] == needle
  }

  /** Every occurrence by position is found by `Contains`. */
  lemma {:induction false} OccursImpliesContains(haystack: string, needle: string, k: int)
    requires OccursAt(haystack, needle, k)
    ensures Contains(haystack, needle)
    decreases k
  {
    if k == 0 {
      assert haystack[..|needle|] == needle;
    } else {
      var rest := haystack[1..];
      assert rest[k - 1..k - 1 + |needle|] == haystack[k..k + |needle|];
      OccursImpliesContains(rest, needle, k - 1);
    }
  }

  /** `Contains` finds only real occurrences. */
  lemma {:induction false} ContainsImpliesOccurs(haystack: string, needle: string)
    requires Contains(haystack, needle)
    ensures exists k :: OccursAt(haystack, needle, k)
    decreases |haystack|
  {
    if needle <= haystack {
      assert haystack[0..|needle|] == needle;
      assert OccursAt(haystack, needle, 0);
    } else {
      var rest := haystack[1..];
      ContainsImpliesOccurs(rest, needle);
      var k :| OccursAt(rest, needle, k);
      assert haystack[k + 1..k + 1 + |needle|] == rest[k..k + |needle|];
      assert OccursAt(haystack, needle, k + 1);
    }
  }

  /** A string that holds the needle as a slice contains it. */
  lemma {:induction false} ContainsInfix(before: string, needle: string, after: string)
    ensures Contains(before + needle + after, needle)
    decreases |before|
  {
    if before == [] {
      assert before + needle + after == needle + after;
    } else {
      assert (before + needle + after)[1..] == before[1..] + needle + after;
      ContainsInfix(before[1..], needle, after);
    }
  }

  /** A non-empty needle whose first character never occurs in the haystack
      is not contained in it. */
  lemma {:induction false} NotContainsWithoutHead(haystack: string, needle: string)
    requires needle != []
    requires forall i :: 0 <= i < |haystack| ==> haystack[i] != needle[0]
    ensures !Contains(haystack, needle)
    decreases |haystack|
  {
    if haystack != [] {
      assert haystack[0] != needle[0];
      assert !(needle <= haystack);
      NotContainsWithoutHead(haystack[1..], needle);
    }
  }

  /** Prefixing a string with characters that cannot start the needle does
      not change whether the needle is contained. */
  lemma {:induction false} ContainsAfterPrefix(prefix: string, s: string, needle: string)
    requires needle != []
    requires forall i :: 0 <= i < |prefix| ==> prefix[i] != needle[0]
    ensures Contains(prefix + s, needle) <==> Contains(s, needle)
    decreases |prefix|
  {
    if prefix == [] {
      assert prefix + s == s;
    } else {
      assert (prefix + s)[0] == prefix[0];
      assert (prefix + s)[1..] == prefix[1..] + s;
      ContainsAfterPrefix(prefix[1..], s, needle);
    }
  }

  /** `str.lower()` on one character; only ASCII letters are mapped. */
  function LowerChar(c: char): (r: char)
    ensures 'A' <= c <= 'Z' ==> 'a' <= r <= 'z' && r as int == c as int + 32
    ensures !('A' <= c <= 'Z') ==> r == c
  {
    if 'A' <= c <= 'Z' then (c as int - 'A' as int + 'a' as int) as char else c
  }

  /** `str.lower()`: every character is lower-cased in place. */
  function Lower(s: string): (r: string)
    ensures |r| == |s|
    ensures forall i :: 0 <= i < |s| ==> r[i] == LowerChar(s[i])
  {
    if s == [] then [] else [LowerChar(s[0])] + Lower(s[1..])
  }

  /** Lower-casing twice is lower-casing once. */
  lemma LowerIdempotent(s: string)
    ensures Lower(Lower(s)) == Lower(s)
  {
    assert forall i :: 0 <= i < |s| ==> LowerChar(LowerChar(s[i])) == LowerChar(s[i]);
  }

  /** Lower-casing distributes over concatenation. */
  lemma LowerConcat(a: string, b: string)
    ensures Lower(a + b) == Lower(a) + Lower(b)
  {
    assert forall i :: 0 <= i < |a + b| ==>
      Lower(a + b)[i] == (Lower(a) + Lower(b))[i];
  }
}
