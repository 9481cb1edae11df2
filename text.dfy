/** The string operations the host and the pipeline use: `str.strip`, `str.lower`,
    `str.startswith`, the `in` substring test, `str.split` on one separator character and
    `Path.suffix`. */
module Text {
  import opened Wrappers

  /** The characters `str.isspace` accepts, hence the ones `str.strip()` removes. */
  predicate IsSpace(c: char) {
    || ('\t' <= c <= '\r')
    || ('\U{1C}' <= c <= ' ')
    || c == '\U{85}' || c == '\U{A0}' || c == '\U{1680}'
    || ('\U{2000}' <= c <= '\U{200A}')
    || c == '\U{2028}' || c == '\U{2029}' || c == '\U{202F}' || c == '\U{205F}' || c == '\U{3000}'
  }

  predicate AllSpace(s: string) {
    forall i :: 0 <= i < |s| ==> IsSpace(s[i])
  }

  /** Neither end of `s` is whitespace. */
  predicate IsStripped(s: string) {
    |s| > 0 ==> !IsSpace(s[0]) && !IsSpace(s[|s| - 1])
  }

  /** The number of whitespace characters `s` starts with. */
  function LeadingSpace(s: string): (n: nat)
    ensures n <= |s|
    ensures forall i :: 0 <= i < n ==> IsSpace(s[i])
    ensures n < |s| ==> !IsSpace(s[n])
  {
    if |s| == 0 || !IsSpace(s[0]) then 0 else 1 + LeadingSpace(s[1..])
  }

  /** The number of whitespace characters `s` ends with. */
  function TrailingSpace(s: string): (n: nat)
    ensures n <= |s|
    ensures forall i :: |s| - n <= i < |s| ==> IsSpace(s[i])
    ensures n < |s| ==> !IsSpace(s[|s| - 1 - n])
  {
    if |s| == 0 || !IsSpace(s[|s| - 1]) then 0 else 1 + TrailingSpace(s[..|s| - 1])
  }

  /** `str.strip()`: `s` without its leading and trailing whitespace. The result is
      stripped, and it is empty exactly when `s` is blank. */
  function Strip(s: string): (r: string)
    ensures |r| <= |s|
    ensures IsStripped(r)
    ensures r == "" <==> AllSpace(s)
  {
    var lead := LeadingSpace(s);
    if lead == |s| then ""
    else
      var trail := TrailingSpace(s);
      s[lead..|s| - trail]
  }

  /** `s` is its strip with only whitespace before and after it. */
  lemma StripSurround(s: string) returns (pre: string, post: string)
    ensures s == pre + Strip(s) + post
    ensures AllSpace(pre) && AllSpace(post)
  {
    var lead := LeadingSpace(s);
    if lead == |s| {
      pre, post := s, "";
      assert AllSpace(pre);
    } else {
      var trail := TrailingSpace(s);
      pre, post := s[..lead], s[|s| - trail..];
      assert AllSpace(pre) by {
        forall i | 0 <= i < |pre| ensures IsSpace(pre[i]) { assert pre[i] == s[i]; }
      }
      assert AllSpace(post) by {
        forall i | 0 <= i < |post| ensures IsSpace(post[i]) { assert post[i] == s[|s| - trail + i]; }
      }
      assert s == pre + s[lead..|s| - trail] + post;
    }
  }

  /** A string that is already stripped is its own strip. */
  lemma StripStripped(s: string)
    requires IsStripped(s)
    ensures Strip(s) == s
  {
    assert LeadingSpace(s) == 0;
    if |s| > 0 {
      assert TrailingSpace(s) == 0;
      assert s[0..|s|] == s;
    }
  }

  /** `str.strip()` is idempotent. */
  lemma StripIdempotent(s: string)
    ensures Strip(Strip(s)) == Strip(s)
  {
    StripStripped(Strip(s));
  }

  /** `str.lower()` on one character (ASCII letters). */
  function LowerChar(c: char): (d: char)
    ensures IsSpace(d) <==> IsSpace(c)
    ensures !('A' <= d <= 'Z')
  {
    if 'A' <= c <= 'Z' then (c as int + 32) as char else c
  }

  /** `str.lower()`. */
  function Lower(s: string): (r: string)
    ensures |r| == |s|
    ensures forall i :: 0 <= i < |s| ==> r[i] == LowerChar(s[i])
  {
    seq(|s|, i requires 0 <= i < |s| => LowerChar(s[i]))
  }

  predicate IsLower(s: string) {
    forall i :: 0 <= i < |s| ==> !('A' <= s[i] <= 'Z')
  }

  /** Lowering gives a string with no capital letter, changes nothing in one that has none,
      and keeps a stripped string stripped. */
  lemma LowerLaws(s: string)
    ensures IsLower(Lower(s))
    ensures IsLower(s) ==> Lower(s) == s
    ensures IsStripped(s) ==> IsStripped(Lower(s))
  {
  }

  /** `s.startswith(p)`. */
  predicate StartsWith(s: string, p: string) {
    |p| <= |s| && s[..|p|] == p
  }

  /** `sub` occurs in `s` at index `i`. */
  predicate OccursAt(s: string, sub: string, i: int) {
    0 <= i && i + |sub| <= |s| && s[i..i + |sub|] == sub
  }

  /** `sub in s`. */
  predicate Contains(s: string, sub: string) {
    exists i | 0 <= i <= |s| :: OccursAt(s, sub, i)
  }

  /** `s.split(sep)`: the pieces between separators, at least one, possibly empty. */
  function Split(s: string, sep: char): (r: seq<string>)
    ensures |r| >= 1
    ensures forall k :: 0 <= k < |r| ==> sep !in r[k]
  {
    if |s| == 0 then [""]
    else if s[0] == sep then [""] + Split(s[1..], sep)
    else
      var t := Split(s[1..], sep);
      [[s[0]] + t[0]] + t[1..]
  }

  /** A string without the separator is one piece. */
  lemma {:induction false} SplitWhole(s: string, sep: char)
    requires sep !in s
    ensures Split(s, sep) == [s]
  {
    if |s| > 0 {
      assert sep !in s[1..] by {
        forall k | 0 <= k < |s| - 1 ensures s[1..][k] != sep { assert s[1..][k] == s[k + 1]; }
      }
      SplitWhole(s[1..], sep);
      assert [s[0]] + s[1..] == s;
    }
  }

  /** A separator-free head followed by a separator splits off as the first piece. */
  lemma {:induction false} SplitHead(d: string, sep: char, rest: string)
    requires sep !in d
    ensures Split(d + [sep] + rest, sep) == [d] + Split(rest, sep)
  {
    if |d| > 0 {
      assert sep !in d[1..] by {
        forall k | 0 <= k < |d| - 1 ensures d[1..][k] != sep { assert d[1..][k] == d[k + 1]; }
      }
      assert (d + [sep] + rest)[1..] == d[1..] + [sep] + rest;
      SplitHead(d[1..], sep, rest);
      assert [d[0]] + d[1..] == d;
    } else {
      assert (d + [sep] + rest)[1..] == rest;
    }
  }

  /** The non-empty strings of a list, in order. */
  function NonEmpty(xs: seq<string>): (r: seq<string>)
    ensures |r| <= |xs|
    ensures forall k :: 0 <= k < |r| ==> r[k] != ""
    ensures forall s :: s in r <==> s in xs && s != ""
  {
    if |xs| == 0 then []
    else (if xs[0] != "" then [xs[0]] else []) + NonEmpty(xs[1..])
  }

  /** `PurePath.name` as the part after the last '/'. */
  function BaseName(path: string): (r: string)
    ensures '/' !in r
    decreases |path|
  {
    if |path| == 0 then ""
    else if path[|path| - 1] == '/' then ""
    else BaseName(path[..|path| - 1]) + [path[|path| - 1]]
  }

  /** The index of the last '.' of `name`, if it has one. */
  function LastDot(name: string): (r: Option<nat>)
    ensures r.Some? ==> r.value < |name| && name[r.value] == '.'
    ensures r.Some? ==> forall j :: r.value < j < |name| ==> name[j] != '.'
    ensures r.None? ==> '.' !in name
  {
    if |name| == 0 then None
    else if name[|name| - 1] == '.' then Some(|name| - 1)
    else LastDot(name[..|name| - 1])
  }

  /** `PurePath.suffix`: from the last '.' of the name to its end, provided that dot is
      neither the name's first nor its last character; otherwise empty. */
  function Suffix(path: string): (r: string)
    ensures r != "" ==> r[0] == '.' && |r| >= 2 && '.' !in r[1..] && '/' !in r
  {
    var name := BaseName(path);
    match LastDot(name)
    case Some(i) =>
      if 0 < i < |name| - 1 then
        assert '/' !in name[i..] by {
          forall k | 0 <= k < |name| - i ensures name[i..][k] != '/' { assert name[i..][k] == name[i + k]; }
        }
        name[i..]
      else ""
    case None => ""
  }
}
