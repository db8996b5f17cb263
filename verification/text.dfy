/** The handful of Go `strings` functions the core relies on, over `seq<char>`. */
module Text {
  import opened Results

  type String = seq<char>

  predicate HasPrefix(s: String, p: String) {
    |p| <= |s| && s[..|p|] == p
  }

  predicate HasSuffix(s: String, p: String) {
    |p| <= |s| && s[|s| - |p|..] == p
  }

  /** `sub` occurs in `s` starting at index `i`. */
  predicate OccursAt(s: String, sub: String, i: int) {
    0 <= i && i + |sub| <= |s| && s[i..i + |sub|] == sub
  }

  /** Index of the first occurrence of `sub` in `s` at or after `from`. */
  function FindFrom(s: String, sub: String, from: nat): (r: Option<nat>)
    ensures r.Some? ==> from <= r.value && OccursAt(s, sub, r.value)
    ensures r.Some? ==> forall j :: from <= j < r.value ==> !OccursAt(s, sub, j)
    ensures r.None? ==> forall j :: from <= j ==> !OccursAt(s, sub, j)
    decreases |s| - from
  {
    if from + |sub| > |s| then None
    else if s[from..from + |sub|] == sub then Some(from)
    else FindFrom(s, sub, from + 1)
  }

  /** strings.Index: the first occurrence of `sub` in `s`. */
  function IndexOf(s: String, sub: String): Option<nat> {
    FindFrom(s, sub, 0)
  }

  /** strings.Contains. */
  predicate Contains(s: String, sub: String) {
    IndexOf(s, sub).Some?
  }

  lemma ContainsIff(s: String, sub: String)
    ensures Contains(s, sub) <==> exists j :: OccursAt(s, sub, j)
  {
    if !Contains(s, sub) {
      forall j ensures !OccursAt(s, sub, j) {
        if j < 0 {
        }
      }
    }
  }

  lemma OccursAtStart(s: String, sub: String)
    requires HasPrefix(s, sub)
    ensures IndexOf(s, sub) == Some(0)
  {
    assert OccursAt(s, sub, 0);
  }

  /** strings.Cut: the text before and after the first occurrence of `sep`. */
  function Cut(s: String, sep: String): (r: Option<(String, String)>)
    ensures r.Some? ==> r.value.0 + sep + r.value.1 == s
    ensures r.Some? ==> forall j :: 0 <= j < |r.value.0| ==> !OccursAt(s, sep, j)
    ensures r.None? <==> !Contains(s, sep)
  {
    match IndexOf(s, sep)
    case None => None
    case Some(i) =>
      assert s == s[..i] + sep + s[i + |sep|..];
      Some((s[..i], s[i + |sep|..]))
  }

  /** Cutting at a character that does not occur before a given one cuts there. */
  lemma CutAtFirst(a: String, c: char, b: String)
    requires c !in a
    ensures Cut(a + [c] + b, [c]) == Some((a, b))
  {
    var s := a + [c] + b;
    assert OccursAt(s, [c], |a|) by { assert s[|a|..|a| + 1] == [c]; }
    forall j | 0 <= j < |a| ensures !OccursAt(s, [c], j) {
      assert s[j..j + 1] == [a[j]];
    }
    assert IndexOf(s, [c]) == Some(|a|);
    assert s[..|a|] == a;
    assert s[|a| + 1..] == b;
  }

  /** Index of the last occurrence of `c` in `s`. */
  function LastIndex(s: String, c: char): (r: Option<nat>)
    ensures r.Some? ==> r.value < |s| && s[r.value] == c && c !in s[r.value + 1..]
    ensures r.None? <==> c !in s
  {
    if |s| == 0 then None
    else if s[|s| - 1] == c then Some(|s| - 1)
    else
      var r := LastIndex(s[..|s| - 1], c);
      assert s == s[..|s| - 1] + [s[|s| - 1]];
      if r.Some? then
        assert s[r.value + 1..] == s[..|s| - 1][r.value + 1..] + [s[|s| - 1]];
        r
      else r
  }

  /** The last occurrence of `c` in `a + [c] + b` is the one after `a` when `b` does not contain `c`. */
  lemma LastIndexOfJoin(a: String, c: char, b: String)
    requires c !in b
    ensures LastIndex(a + [c] + b, c) == Some(|a|)
  {
    var s := a + [c] + b;
    assert s[|a|] == c;
    assert s[|a| + 1..] == b;
  }

  /** The prefix of `s` before its first '/', or all of `s`. */
  function UpToSlash(s: String): (r: String)
    ensures '/' !in r
    ensures HasPrefix(s, r)
    ensures r == s || s[|r|] == '/'
  {
    if |s| == 0 then []
    else if s[0] == '/' then []
    else [s[0]] + UpToSlash(s[1..])
  }

  /** The segment before the first '/' of `a + "/" + b` is `a` when `a` has no '/'. */
  lemma UpToSlashOfJoin(a: String, b: String)
    requires '/' !in a
    ensures UpToSlash(a + "/" + b) == a
  {
    var s := a + "/" + b;
    var r := UpToSlash(s);
    assert s[..|a|] == a;
    assert s[|a|] == '/';
  }

  /** A suffix that does not start with `c` is unaffected by putting `c` in front. */
  lemma HasSuffixCons(c: char, s: String, p: String)
    requires |p| > 0 && p[0] != c
    ensures HasSuffix([c] + s, p) <==> HasSuffix(s, p)
  {
    var t := [c] + s;
    if HasSuffix(t, p) && |p| < |t| {
      assert t[|t| - |p|..] == s[|s| - |p|..];
    }
    if HasSuffix(s, p) {
      assert t[|t| - |p|..] == s[|s| - |p|..];
    }
  }

  /** Whitespace as Go's unicode.IsSpace defines it. */
  predicate IsSpace(c: char) {
    || c == ' ' || c == '\t' || c == '\n' || c == '\r' || c == '\U{000B}' || c == '\U{000C}'
    || c == '\U{0085}' || c == '\U{00A0}' || c == '\U{1680}'
    || ('\U{2000}' <= c <= '\U{200A}')
    || c == '\U{2028}' || c == '\U{2029}' || c == '\U{202F}' || c == '\U{205F}' || c == '\U{3000}'
  }

  function TrimLeft(s: String): (r: String)
    ensures |r| <= |s| && r == s[|s| - |r|..]
    ensures forall k :: 0 <= k < |s| - |r| ==> IsSpace(s[k])
    ensures |r| > 0 ==> !IsSpace(r[0])
  {
    if |s| > 0 && IsSpace(s[0]) then TrimLeft(s[1..]) else s
  }

  function TrimRight(s: String): (r: String)
    ensures |r| <= |s| && r == s[..|r|]
    ensures forall k :: |r| <= k < |s| ==> IsSpace(s[k])
    ensures |r| > 0 ==> !IsSpace(r[|r| - 1])
  {
    if |s| > 0 && IsSpace(s[|s| - 1]) then TrimRight(s[..|s| - 1]) else s
  }

  /** strings.TrimSpace: drops leading and trailing white space. */
  function TrimSpace(s: String): (r: String)
    ensures |r| <= |s|
    ensures |r| > 0 ==> !IsSpace(r[0]) && !IsSpace(r[|r| - 1])
  {
    TrimRight(TrimLeft(s))
  }

  lemma TrimLeftNoSpace(s: String)
    requires |s| == 0 || !IsSpace(s[0])
    ensures TrimLeft(s) == s
  {
  }

  lemma TrimRightNoSpace(s: String)
    requires |s| == 0 || !IsSpace(s[|s| - 1])
    ensures TrimRight(s) == s
  {
  }

  lemma {:induction false} TrimLeftSpaces(pre: String, s: String)
    requires forall k :: 0 <= k < |pre| ==> IsSpace(pre[k])
    requires |s| == 0 || !IsSpace(s[0])
    ensures TrimLeft(pre + s) == s
    decreases |pre|
  {
    if |pre| == 0 {
      assert pre + s == s;
      TrimLeftNoSpace(s);
    } else {
      assert (pre + s)[0] == pre[0];
      assert (pre + s)[1..] == pre[1..] + s;
      TrimLeftSpaces(pre[1..], s);
    }
  }

  lemma {:induction false} TrimRightSpaces(s: String, post: String)
    requires forall k :: 0 <= k < |post| ==> IsSpace(post[k])
    requires |s| == 0 || !IsSpace(s[|s| - 1])
    ensures TrimRight(s + post) == s
    decreases |post|
  {
    if |post| == 0 {
      assert s + post == s;
      TrimRightNoSpace(s);
    } else {
      var t := s + post;
      assert t[|t| - 1] == post[|post| - 1];
      assert t[..|t| - 1] == s + post[..|post| - 1];
      TrimRightSpaces(s, post[..|post| - 1]);
    }
  }

  /** TrimSpace removes exactly the white space around a text that starts and ends with non-space. */
  lemma TrimSpaceSurrounded(pre: String, s: String, post: String)
    requires forall k :: 0 <= k < |pre| ==> IsSpace(pre[k])
    requires forall k :: 0 <= k < |post| ==> IsSpace(post[k])
    requires s != [] && !IsSpace(s[0]) && !IsSpace(s[|s| - 1])
    ensures TrimSpace(pre + s + post) == s
  {
    assert pre + s + post == pre + (s + post);
    assert (s + post)[0] == s[0];
    TrimLeftSpaces(pre, s + post);
    TrimRightSpaces(s, post);
  }

  /** Trimming twice is trimming once. */
  lemma TrimSpaceIdempotent(s: String)
    ensures TrimSpace(TrimSpace(s)) == TrimSpace(s)
  {
    var t := TrimSpace(s);
    TrimLeftNoSpace(t);
    TrimRightNoSpace(t);
  }

  /** ASCII case mapping of strings.ToUpper. */
  function UpperChar(c: char): (u: char)
    ensures 'a' <= c <= 'z' ==> 'A' <= u <= 'Z' && u as int == c as int - 32
    ensures !('a' <= c <= 'z') ==> u == c
  {
    if 'a' <= c <= 'z' then (c as int - 32) as char else c
  }

  function ToUpper(s: String): (r: String)
    ensures |r| == |s|
    ensures forall i :: 0 <= i < |s| ==> r[i] == UpperChar(s[i])
  {
    seq(|s|, i requires 0 <= i < |s| => UpperChar(s[i]))
  }

  /** strings.Join. */
  function JoinWith(xs: seq<String>, sep: String): String {
    if |xs| == 0 then ""
    else if |xs| == 1 then xs[0]
    else xs[0] + sep + JoinWith(xs[1..], sep)
  }

  /** strings.Split on a one-character separator. */
  function SplitOn(s: String, sep: char): (r: seq<String>)
    ensures |r| >= 1
    decreases |s|
  {
    if sep in s then
      var i := FirstIndex(s, sep);
      [s[..i]] + SplitOn(s[i + 1..], sep)
    else [s]
  }

  function FirstIndex(s: String, c: char): (i: nat)
    requires c in s
    ensures i < |s| && s[i] == c && c !in s[..i]
  {
    if s[0] == c then 0 else 1 + FirstIndex(s[1..], c)
  }

  lemma FirstIndexAfter(a: String, c: char, b: String)
    requires c !in a
    ensures c in a + [c] + b && FirstIndex(a + [c] + b, c) == |a|
  {
    var s := a + [c] + b;
    assert s[|a|] == c;
    assert s[..|a|] == a;
  }

  lemma SplitOnCons(a: String, sep: char, b: String)
    requires sep !in a
    ensures SplitOn(a + [sep] + b, sep) == [a] + SplitOn(b, sep)
  {
    var s := a + [sep] + b;
    FirstIndexAfter(a, sep, b);
    assert s[..|a|] == a;
    assert s[|a| + 1..] == b;
  }

  lemma SplitOnNoSeparator(s: String, sep: char)
    requires sep !in s
    ensures SplitOn(s, sep) == [s]
  {
  }

  lemma JoinWithCons(xs: seq<String>, sep: String)
    requires |xs| >= 2
    ensures JoinWith(xs, sep) == xs[0] + sep + JoinWith(xs[1..], sep)
  {
  }

  /** Splitting a strings.Join result on a separator that no element contains gives the elements back. */
  lemma {:induction false} SplitJoin(xs: seq<String>, sep: char)
    requires |xs| >= 1
    requires forall i :: 0 <= i < |xs| ==> sep !in xs[i]
    ensures SplitOn(JoinWith(xs, [sep]), sep) == xs
    decreases |xs|
  {
    if |xs| == 1 {
      SplitOnNoSeparator(xs[0], sep);
      assert [xs[0]] == xs;
    } else {
      var tail := xs[1..];
      assert forall i :: 0 <= i < |tail| ==> tail[i] == xs[i + 1];
      JoinWithCons(xs, [sep]);
      SplitOnCons(xs[0], sep, JoinWith(tail, [sep]));
      SplitJoin(tail, sep);
      assert [xs[0]] + tail == xs;
    }
  }
}
