/** Python string operations used by the console plugin: `str.startswith`,
    `str.replace` and, as its independent reference, `str.split` / `str.join`.
    Patterns are never empty here: the plugin only replaces `{key}` placeholders. */
module Text {

  /** `s.startswith(prefix)` */
  predicate StartsWith(s: string, prefix: string)
  {
    |prefix| <= |s| && s[..|prefix|] == prefix
  }

  /** `pat` occurs in `s` starting at index `i`. */
  predicate OccursAt(s: string, pat: string, i: nat)
  {
    i + |pat| <= |s| && s[i..i + |pat|] == pat
  }

  /** `pat in s` */
  predicate Contains(s: string, pat: string)
  {
    exists i: nat :: i <= |s| && OccursAt(s, pat, i)
  }

  /** `s.replace(pat, rep)`: scans left to right and replaces every
      non-overlapping occurrence of `pat`; the replacement text is not rescanned. */
  function Replace(s: string, pat: string, rep: string): string
    requires pat != []
    decreases |s|
  {
    if |s| < |pat| then s
    else if StartsWith(s, pat) then rep + Replace(s[|pat|..], pat, rep)
    else [s[0]] + Replace(s[1..], pat, rep)
  }

  /** `s.split(pat)`: the pieces between the leftmost non-overlapping occurrences. */
  function Split(s: string, pat: string): (parts: seq<string>)
    requires pat != []
    ensures |parts| >= 1
    decreases |s|
  {
    if |s| < |pat| then [s]
    else if StartsWith(s, pat) then [""] + Split(s[|pat|..], pat)
    else
      var rest := Split(s[1..], pat);
      [[s[0]] + rest[0]] + rest[1..]
  }

  /** `sep.join(parts)` */
  function Join(parts: seq<string>, sep: string): string
  {
    if |parts| == 0 then ""
    else if |parts| == 1 then parts[0]
    else parts[0] + sep + Join(parts[1..], sep)
  }

  /** A joined sequence begins with its first part. */
  lemma {:induction false} JoinStartsWithHead(parts: seq<string>, sep: string)
    requires |parts| >= 1
    ensures StartsWith(Join(parts, sep), parts[0])
  {
    if |parts| > 1 {
      var j := Join(parts, sep);
      assert j == parts[0] + (sep + Join(parts[1..], sep));
      assert j[..|parts[0]|] == parts[0];
    }
  }

  /** Extending the first part by one character extends the join by that character. */
  lemma {:induction false} JoinConsHead(c: char, parts: seq<string>, sep: string)
    requires |parts| >= 1
    ensures Join([[c] + parts[0]] + parts[1..], sep) == [c] + Join(parts, sep)
  {
    var longer := [[c] + parts[0]] + parts[1..];
    assert longer[1..] == parts[1..];
    if |parts| > 1 {
      calc {
        Join(longer, sep);
        ([c] + parts[0]) + sep + Join(parts[1..], sep);
        [c] + (parts[0] + sep + Join(parts[1..], sep));
      }
    }
  }

  /** Joining the pieces of a split with the pattern gives the string back. */
  lemma {:induction false} JoinSplit(s: string, pat: string)
    requires pat != []
    ensures Join(Split(s, pat), pat) == s
    decreases |s|
  {
    if |s| < |pat| {
    } else if StartsWith(s, pat) {
      var rest := Split(s[|pat|..], pat);
      JoinSplit(s[|pat|..], pat);
      assert ([""] + rest)[1..] == rest;
      assert s == pat + s[|pat|..];
    } else {
      var rest := Split(s[1..], pat);
      JoinSplit(s[1..], pat);
      JoinConsHead(s[0], rest, pat);
      assert s == [s[0]] + s[1..];
    }
  }

  /** No piece of a split contains the pattern: every occurrence was cut out. */
  lemma {:induction false} SplitPartsAvoidPattern(s: string, pat: string)
    requires pat != []
    ensures forall k :: 0 <= k < |Split(s, pat)| ==> !Contains(Split(s, pat)[k], pat)
    decreases |s|
  {
    var parts := Split(s, pat);
    if |s| < |pat| {
      forall i: nat ensures !OccursAt(s, pat, i) { }
    } else if StartsWith(s, pat) {
      SplitPartsAvoidPattern(s[|pat|..], pat);
      var rest := Split(s[|pat|..], pat);
      forall k | 0 <= k < |parts| ensures !Contains(parts[k], pat) {
        if k == 0 {
          forall i: nat ensures !OccursAt(parts[0], pat, i) { }
        } else {
          assert parts[k] == rest[k - 1];
        }
      }
    } else {
      SplitPartsAvoidPattern(s[1..], pat);
      var rest := Split(s[1..], pat);
      var head := [s[0]] + rest[0];
      forall k | 0 <= k < |parts| ensures !Contains(parts[k], pat) {
        if k == 0 {
          assert parts[0] == head;
          forall i: nat ensures !OccursAt(head, pat, i) {
            if OccursAt(head, pat, i) {
              if i == 0 {
                // head is a prefix of s, so s itself would start with pat
                JoinSplit(s[1..], pat);
                JoinStartsWithHead(rest, pat);
                assert false;
              } else {
                assert rest[0][i - 1..i - 1 + |pat|] == head[i..i + |pat|];
                assert OccursAt(rest[0], pat, i - 1);
                assert false;
              }
            }
          }
        } else {
          assert parts[k] == rest[k];
        }
      }
    }
  }

  /** `s.replace(pat, rep) == rep.join(s.split(pat))`: replacing is cutting at
      every occurrence and gluing the pieces back with the replacement. */
  lemma {:induction false} ReplaceIsJoinOfSplit(s: string, pat: string, rep: string)
    requires pat != []
    ensures Replace(s, pat, rep) == Join(Split(s, pat), rep)
    decreases |s|
  {
    if |s| < |pat| {
    } else if StartsWith(s, pat) {
      var rest := Split(s[|pat|..], pat);
      ReplaceIsJoinOfSplit(s[|pat|..], pat, rep);
      assert ([""] + rest)[1..] == rest;
    } else {
      ReplaceIsJoinOfSplit(s[1..], pat, rep);
      JoinConsHead(s[0], Split(s[1..], pat), rep);
    }
  }

  /** A string without the pattern is left unchanged. */
  lemma {:induction false} ReplaceAbsent(s: string, pat: string, rep: string)
    requires pat != []
    requires !Contains(s, pat)
    ensures Replace(s, pat, rep) == s
    decreases |s|
  {
    if |s| >= |pat| {
      assert !OccursAt(s, pat, 0);
      assert !StartsWith(s, pat);
      forall i: nat ensures !OccursAt(s[1..], pat, i) {
        if OccursAt(s[1..], pat, i) {
          assert s[1..][i..i + |pat|] == s[i + 1..i + 1 + |pat|];
          assert OccursAt(s, pat, i + 1);
        }
      }
      ReplaceAbsent(s[1..], pat, rep);
      assert s == [s[0]] + s[1..];
    }
  }

  /** No occurrence straddles the seam between `a` and `b`. */
  predicate NoOccurrenceAcross(a: string, b: string, pat: string)
  {
    forall j: nat :: j < |a| < j + |pat| ==> !OccursAt(a + b, pat, j)
  }

  /** Dropping `d` leading characters of `a` keeps the seam clear. */
  lemma NoOccurrenceAcrossDrop(a: string, b: string, pat: string, d: nat)
    requires d <= |a|
    requires NoOccurrenceAcross(a, b, pat)
    ensures NoOccurrenceAcross(a[d..], b, pat)
  {
    var a' := a[d..];
    assert a + b == a[..d] + (a' + b);
    forall j: nat | j < |a'| < j + |pat| ensures !OccursAt(a' + b, pat, j) {
      if j + |pat| <= |a' + b| {
        assert (a' + b)[j..j + |pat|] == (a + b)[j + d..j + d + |pat|];
      }
      assert !OccursAt(a + b, pat, j + d);
    }
  }

  /** Replacing distributes over a concatenation when no occurrence of the
      pattern straddles the seam. */
  lemma {:induction false} ReplaceConcat(a: string, b: string, pat: string, rep: string)
    requires pat != []
    requires NoOccurrenceAcross(a, b, pat)
    ensures Replace(a + b, pat, rep) == Replace(a, pat, rep) + Replace(b, pat, rep)
    decreases |a|
  {
    var s := a + b;
    if a == [] {
      assert s == b;
    } else if |s| < |pat| {
    } else if StartsWith(s, pat) {
      assert !(0 < |a| < |pat|) by { assert OccursAt(s, pat, 0); }
      assert a[..|pat|] == s[..|pat|];
      assert s[|pat|..] == a[|pat|..] + b;
      NoOccurrenceAcrossDrop(a, b, pat, |pat|);
      ReplaceConcat(a[|pat|..], b, pat, rep);
    } else {
      assert s[1..] == a[1..] + b;
      if |a| >= |pat| {
        assert a[..|pat|] == s[..|pat|];
      }
      NoOccurrenceAcrossDrop(a, b, pat, 1);
      ReplaceConcat(a[1..], b, pat, rep);
      assert a == [a[0]] + a[1..];
    }
  }
}
