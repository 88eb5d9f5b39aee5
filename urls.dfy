/** URL classification (`is_url`) and placeholder templating (`template_url`),
    console.py:192-201. */
module Urls {
  import opened Text

  predicate IsAsciiLetter(c: char)
  {
    'a' <= c <= 'z' || 'A' <= c <= 'Z'
  }

  /** Characters allowed after the first one in a scheme (section 3.1 of RFC 3986). */
  predicate IsSchemeChar(c: char)
  {
    IsAsciiLetter(c) || '0' <= c <= '9' || c == '+' || c == '-' || c == '.'
  }

  /** Scheme characters up to a `:`. */
  predicate SchemeThenColon(t: string)
    decreases |t|
  {
    |t| > 0 && (t[0] == ':' || (IsSchemeChar(t[0]) && SchemeThenColon(t[1..])))
  }

  /** `is_url(s)`: parsing `s` yields a non-empty scheme, that is `s` begins
      with a letter followed by scheme characters up to its first `:`. */
  predicate IsUrl(s: string)
  {
    |s| > 0 && IsAsciiLetter(s[0]) && SchemeThenColon(s[1..])
  }

  /** The scheme of `s` ends at the `:` at index `i`. */
  ghost predicate SchemeEndsAt(s: string, i: int)
  {
    0 < i < |s| && s[i] == ':' && IsAsciiLetter(s[0])
    && forall j :: 0 < j < i ==> IsSchemeChar(s[j])
  }

  /** Reference definition of a URL: some prefix of `s` is a scheme and a colon. */
  ghost predicate HasScheme(s: string)
  {
    exists i :: SchemeEndsAt(s, i)
  }

  lemma {:induction false} SchemeThenColonAt(t: string)
    ensures SchemeThenColon(t) <==>
      exists i :: 0 <= i < |t| && t[i] == ':' && forall j :: 0 <= j < i ==> IsSchemeChar(t[j])
    decreases |t|
  {
    if |t| > 0 && t[0] != ':' {
      SchemeThenColonAt(t[1..]);
      if SchemeThenColon(t) {
        var i :| 0 <= i < |t[1..]| && t[1..][i] == ':' && forall j :: 0 <= j < i ==> IsSchemeChar(t[1..][j]);
        assert t[i + 1] == ':';
        assert forall j :: 0 <= j < i + 1 ==> IsSchemeChar(t[j]) by {
          forall j | 0 <= j < i + 1 ensures IsSchemeChar(t[j]) {
            if j > 0 { assert t[j] == t[1..][j - 1]; }
          }
        }
      }
      if exists i :: 0 <= i < |t| && t[i] == ':' && forall j :: 0 <= j < i ==> IsSchemeChar(t[j]) {
        var i :| 0 <= i < |t| && t[i] == ':' && forall j :: 0 <= j < i ==> IsSchemeChar(t[j]);
        assert i > 0 && IsSchemeChar(t[0]);
        assert t[1..][i - 1] == ':';
        assert forall j :: 0 <= j < i - 1 ==> IsSchemeChar(t[1..][j]) by {
          forall j | 0 <= j < i - 1 ensures IsSchemeChar(t[1..][j]) {
            assert t[1..][j] == t[j + 1];
          }
        }
      }
    }
  }

  /** The scan agrees with the reference definition, in both directions. */
  lemma IsUrlIffHasScheme(s: string)
    ensures IsUrl(s) <==> HasScheme(s)
  {
    if |s| > 0 {
      SchemeThenColonAt(s[1..]);
      if IsUrl(s) {
        var i :| 0 <= i < |s[1..]| && s[1..][i] == ':' && forall j :: 0 <= j < i ==> IsSchemeChar(s[1..][j]);
        assert forall j :: 0 < j < i + 1 ==> IsSchemeChar(s[j]) by {
          forall j | 0 < j < i + 1 ensures IsSchemeChar(s[j]) {
            assert s[j] == s[1..][j - 1];
          }
        }
        assert SchemeEndsAt(s, i + 1);
      }
      if HasScheme(s) {
        var i :| SchemeEndsAt(s, i);
        assert s[1..][i - 1] == ':';
        assert forall j :: 0 <= j < i - 1 ==> IsSchemeChar(s[1..][j]) by {
          forall j | 0 <= j < i - 1 ensures IsSchemeChar(s[1..][j]) {
            assert s[1..][j] == s[j + 1];
          }
        }
      }
    }
  }

  /** Every `https://` address is a URL, whatever follows the scheme. */
  lemma WebAddressIsUrl(rest: string)
    ensures IsUrl("https://" + rest)
  {
    var s := "https://" + rest;
    assert s[5..][0] == ':';
    assert SchemeThenColon(s[4..]) by { assert s[4..][1..] == s[5..]; }
    assert SchemeThenColon(s[3..]) by { assert s[3..][1..] == s[4..]; }
    assert SchemeThenColon(s[2..]) by { assert s[2..][1..] == s[3..]; }
    assert SchemeThenColon(s[1..]) by { assert s[1..][1..] == s[2..]; }
  }

  /** Text without a colon, such as a bare service name, is not a URL. */
  lemma ColonFreeIsNotUrl(s: string)
    requires ':' !in s
    ensures !IsUrl(s)
  {
    IsUrlIffHasScheme(s);
  }

  /** The `{key}` token that `template_url` replaces for a keyword `key`. */
  function Placeholder(key: string): (p: string)
    ensures |p| == |key| + 2 && p[0] == '{' && p[|p| - 1] == '}'
  {
    "{" + key + "}"
  }

  /** Different keywords have different placeholders. */
  lemma PlaceholderInjective(k1: string, k2: string)
    ensures Placeholder(k1) == Placeholder(k2) ==> k1 == k2
  {
    assert Placeholder(k1)[1..|k1| + 1] == k1;
    assert Placeholder(k2)[1..|k2| + 1] == k2;
  }

  /** Text that cannot open or close a placeholder. */
  predicate BraceFree(s: string)
  {
    '{' !in s && '}' !in s
  }

  /** The templated URL: each `(key, value)` pair, in keyword order, replaces
      every `{key}` in the current text by `value`. */
  function Templated(url: string, kwargs: seq<(string, string)>): string
    decreases |kwargs|
  {
    if kwargs == [] then url
    else Templated(Replace(url, Placeholder(kwargs[0].0), kwargs[0].1), kwargs[1..])
  }

  /** `template_url(url, **kwargs)`: the loop of console.py:198-199. */
  method TemplateUrl(url: string, kwargs: seq<(string, string)>) returns (r: string)
    ensures r == Templated(url, kwargs)
  {
    r := url;
    var i := 0;
    while i < |kwargs|
      invariant 0 <= i <= |kwargs|
      invariant Templated(r, kwargs[i..]) == Templated(url, kwargs)
    {
      var (key, value) := kwargs[i];
      assert kwargs[i..][1..] == kwargs[i + 1..];
      r := Replace(r, Placeholder(key), value);
      i := i + 1;
    }
    assert kwargs[i..] == [];
  }

  /** Brace-free text holds no placeholder. */
  lemma BraceFreeHasNoPlaceholder(t: string, key: string)
    requires BraceFree(t)
    ensures !Contains(t, Placeholder(key))
  {
    forall j: nat | j <= |t| ensures !OccursAt(t, Placeholder(key), j) {
      if j < |t| { assert t[j] != '{'; }
    }
  }

  /** In otherwise brace-free text, a placeholder is replaced by its value. */
  lemma ReplaceLonePlaceholder(before: string, key: string, after: string, value: string)
    requires BraceFree(before) && BraceFree(key) && BraceFree(after)
    ensures Replace(before + Placeholder(key) + after, Placeholder(key), value) == before + value + after
  {
    var p := Placeholder(key);
    forall j: nat | j < |before| < j + |p| ensures !OccursAt(before + (p + after), p, j) {
      assert (before + (p + after))[j] == before[j];
    }
    BraceFreeHasNoPlaceholder(before, key);
    BraceFreeHasNoPlaceholder(after, key);
    calc {
      Replace(before + p + after, p, value);
      { assert before + p + after == before + (p + after); ReplaceConcat(before, p + after, p, value); }
      Replace(before, p, value) + Replace(p + after, p, value);
      { ReplaceAbsent(before, p, value); assert (p + after)[..|p|] == p && (p + after)[|p|..] == after; }
      before + (value + Replace(after, p, value));
      { ReplaceAbsent(after, p, value); }
      before + (value + after);
    }
  }

  /** Keywords are applied one after another, so a value inserted for an
      earlier keyword is itself templated by the later ones. */
  lemma LaterKeywordExpandsEarlierValue(first: string, second: string, value: string)
    requires BraceFree(first) && BraceFree(second)
    ensures Templated(Placeholder(first), [(first, Placeholder(second)), (second, value)]) == value
  {
    var p1, p2 := Placeholder(first), Placeholder(second);
    assert BraceFree("");
    ReplaceLonePlaceholder("", first, "", p2);
    ReplaceLonePlaceholder("", second, "", value);
    var kwargs := [(first, p2), (second, value)];
    calc {
      Templated(p1, kwargs);
      Templated(Replace(p1, p1, p2), kwargs[1..]);
      { assert "" + p1 + "" == p1 && "" + p2 + "" == p2; }
      Templated(p2, [(second, value)]);
      Templated(Replace(p2, p2, value), []);
      { assert "" + p2 + "" == p2 && "" + value + "" == value; }
      value;
    }
  }

  /** A template that holds none of the supplied placeholders comes back unchanged. */
  lemma {:induction false} TemplatedWithoutPlaceholders(url: string, kwargs: seq<(string, string)>)
    requires forall k :: 0 <= k < |kwargs| ==> !Contains(url, Placeholder(kwargs[k].0))
    ensures Templated(url, kwargs) == url
    decreases |kwargs|
  {
    if kwargs != [] {
      ReplaceAbsent(url, Placeholder(kwargs[0].0), kwargs[0].1);
      assert forall k :: 0 <= k < |kwargs[1..]| ==> kwargs[1..][k] == kwargs[k + 1];
      TemplatedWithoutPlaceholders(url, kwargs[1..]);
    }
  }

  /** Two distinct brace-free placeholders never overlap in a string. */
  lemma PlaceholdersDoNotOverlap(s: string, k1: string, k2: string, i: nat, j: nat)
    requires BraceFree(k1) && BraceFree(k2) && k1 != k2
    requires OccursAt(s, Placeholder(k2), i)
    requires OccursAt(s, Placeholder(k1), j)
    ensures j + |Placeholder(k1)| <= i || i + |Placeholder(k2)| <= j
  {
    var p1, p2 := Placeholder(k1), Placeholder(k2);
    var l1, l2 := |p1|, |p2|;
    assert forall x :: 0 < x < l1 - 1 ==> p1[x] == k1[x - 1];
    assert forall x :: 0 < x < l2 - 1 ==> p2[x] == k2[x - 1];
    assert s[i] == '{' && s[i + l2 - 1] == '}' by { assert s[i..i + l2] == p2; }
    assert s[j] == '{' && s[j + l1 - 1] == '}' by { assert s[j..j + l1] == p1; }
    PlaceholderInjective(k1, k2);
  }

  /** Where placeholder `other` sits at index `i`, no occurrence of the placeholder
      `key` touches it. */
  lemma AwayFromPlaceholder(s: string, key: string, other: string, i: nat)
    requires BraceFree(key) && BraceFree(other) && key != other
    requires OccursAt(s, Placeholder(other), i)
    ensures forall j: nat :: OccursAt(s, Placeholder(key), j) ==>
      j + |Placeholder(key)| <= i || i + |Placeholder(other)| <= j
  {
    forall j: nat | OccursAt(s, Placeholder(key), j)
      ensures j + |Placeholder(key)| <= i || i + |Placeholder(other)| <= j
    {
      PlaceholdersDoNotOverlap(s, key, other, i, j);
    }
  }

  /** The three facts `ReplaceKeepsOtherPlaceholder` needs: no occurrence of `{key}`
      straddles either end of `{other}` and none lies inside it. */
  lemma SeamsAroundPlaceholder(a: string, b: string, key: string, other: string)
    requires BraceFree(key) && BraceFree(other) && key != other
    ensures forall j: nat :: j < |a| < j + |Placeholder(key)| ==>
      !OccursAt(a + (Placeholder(other) + b), Placeholder(key), j)
    ensures forall j: nat :: j < |Placeholder(other)| < j + |Placeholder(key)| ==>
      !OccursAt(Placeholder(other) + b, Placeholder(key), j)
    ensures !Contains(Placeholder(other), Placeholder(key))
  {
    var pat, q := Placeholder(key), Placeholder(other);
    var s := a + (q + b);
    assert s[|a|..|a| + |q|] == q;
    AwayFromPlaceholder(s, key, other, |a|);
    assert (q + b)[..|q|] == q;
    AwayFromPlaceholder(q + b, key, other, 0);
    assert q[..|q|] == q;
    AwayFromPlaceholder(q, key, other, 0);
  }

  /** Replacing one placeholder leaves a different placeholder literally in place. */
  lemma ReplaceKeepsOtherPlaceholder(a: string, b: string, key: string, other: string, rep: string)
    requires BraceFree(key) && BraceFree(other) && key != other
    ensures Replace(a + Placeholder(other) + b, Placeholder(key), rep)
         == Replace(a, Placeholder(key), rep) + Placeholder(other) + Replace(b, Placeholder(key), rep)
  {
    var pat, q := Placeholder(key), Placeholder(other);
    SeamsAroundPlaceholder(a, b, key, other);
    calc {
      Replace(a + q + b, pat, rep);
      { assert a + q + b == a + (q + b); }
      Replace(a + (q + b), pat, rep);
      { ReplaceConcat(a, q + b, pat, rep); }
      Replace(a, pat, rep) + Replace(q + b, pat, rep);
      { ReplaceConcat(q, b, pat, rep); ReplaceAbsent(q, pat, rep); }
      Replace(a, pat, rep) + (q + Replace(b, pat, rep));
    }
  }

  /** A placeholder for which no keyword is supplied stays literal in the result,
      and the text on each side of it is templated on its own. */
  lemma {:induction false} TemplatedKeepsUnmatchedPlaceholder(a: string, b: string, other: string, kwargs: seq<(string, string)>)
    requires BraceFree(other)
    requires forall k :: 0 <= k < |kwargs| ==> BraceFree(kwargs[k].0) && kwargs[k].0 != other
    ensures Templated(a + Placeholder(other) + b, kwargs)
         == Templated(a, kwargs) + Placeholder(other) + Templated(b, kwargs)
    decreases |kwargs|
  {
    if kwargs != [] {
      var (key, value) := kwargs[0];
      ReplaceKeepsOtherPlaceholder(a, b, key, other, value);
      assert forall k :: 0 <= k < |kwargs[1..]| ==> kwargs[1..][k] == kwargs[k + 1];
      TemplatedKeepsUnmatchedPlaceholder(Replace(a, Placeholder(key), value), Replace(b, Placeholder(key), value), other, kwargs[1..]);
    }
  }

  /** Replacing `{...}` tokens cannot disturb a URL's scheme. */
  lemma ReplaceKeepsUrl(s: string, pat: string, rep: string)
    requires pat != [] && pat[0] == '{'
    requires IsUrl(s)
    ensures IsUrl(Replace(s, pat, rep))
  {
    IsUrlIffHasScheme(s);
    var i :| SchemeEndsAt(s, i);
    var head, tail := s[..i + 1], s[i + 1..];
    assert s == head + tail;
    assert forall j :: 0 <= j < |head| ==> head[j] != '{';
    forall j: nat | j < |head| < j + |pat| ensures !OccursAt(head + tail, pat, j) {
      assert (head + tail)[j] == head[j];
    }
    ReplaceConcat(head, tail, pat, rep);
    forall j: nat | j <= |head| ensures !OccursAt(head, pat, j) {
      if j < |head| { assert head[j] != '{'; }
    }
    ReplaceAbsent(head, pat, rep);
    var r := Replace(s, pat, rep);
    assert r == head + Replace(tail, pat, rep);
    assert SchemeEndsAt(r, i);
    IsUrlIffHasScheme(r);
  }

  /** Templating a URL yields a URL. */
  lemma {:induction false} TemplatedKeepsUrl(url: string, kwargs: seq<(string, string)>)
    requires IsUrl(url)
    ensures IsUrl(Templated(url, kwargs))
    decreases |kwargs|
  {
    if kwargs != [] {
      ReplaceKeepsUrl(url, Placeholder(kwargs[0].0), kwargs[0].1);
      TemplatedKeepsUrl(Replace(url, Placeholder(kwargs[0].0), kwargs[0].1), kwargs[1..]);
    }
  }
}
