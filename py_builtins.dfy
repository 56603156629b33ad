/** The few Python built-ins the request pipeline leans on: truthiness of
    strings, `all`, `str.strip()` with no argument and `str.join`.
    A Python string is a sequence of code points. A Dafny `string` is a
    sequence of Unicode scalar values, so lone surrogates, which a Python
    string can hold, are not represented. */
module PyBuiltins {

  datatype Option<+T> = None | Some(value: T)

  /** Python's `bool(s)` for a string: only the empty string is falsy. */
  predicate Truthy(s: string) {
    |s| > 0
  }

  /** Python's `s.endswith(suffix)`; `s.startswith(prefix)` is Dafny's `prefix <= s`. */
  predicate EndsWith(s: string, suffix: string) {
    |suffix| <= |s| && s[|s| - |suffix|..] == suffix
  }

  /** Python's built-in `all` over a list of strings, each judged by truthiness. */
  function AllTruthy(xs: seq<string>): (r: bool)
    ensures r <==> forall i :: 0 <= i < |xs| ==> xs[i] != ""
  {
    if xs == [] then true
    else Truthy(xs[0]) && AllTruthy(xs[1..])
  }

  /** The characters `str.strip()` removes: the code points Python's
      `str.isspace()` accepts. */
  predicate IsSpace(c: char): (r: bool)
    ensures c as int < 128 ==> (r <==> c in " \t\n\r\U{0B}\U{0C}\U{1C}\U{1D}\U{1E}\U{1F}")
  {
    c == ' ' || c == '\t' || c == '\n' || c == '\r'
    || c == '\U{0B}' || c == '\U{0C}'
    || ('\U{1C}' <= c <= '\U{1F}')
    || c == '\U{85}' || c == '\U{A0}' || c == '\U{1680}'
    || ('\U{2000}' <= c <= '\U{200A}')
    || c == '\U{2028}' || c == '\U{2029}' || c == '\U{202F}'
    || c == '\U{205F}' || c == '\U{3000}'
  }

  ghost predicate AllSpace(s: string) {
    forall i :: 0 <= i < |s| ==> IsSpace(s[i])
  }

  ghost predicate SpaceBetween(s: string, lo: nat, hi: nat)
    requires lo <= hi <= |s|
  {
    forall k :: lo <= k < hi ==> IsSpace(s[k])
  }

  /** Neither starts nor ends with whitespace. */
  ghost predicate Unpadded(s: string) {
    s == [] || (!IsSpace(s[0]) && !IsSpace(s[|s| - 1]))
  }

  /** The scan from the left: the first position at or after `lo` that
      holds no whitespace, or `|s|`. */
  function SkipSpaces(s: string, lo: nat): (i: nat)
    requires lo <= |s|
    ensures lo <= i <= |s|
    ensures SpaceBetween(s, lo, i)
    ensures i == |s| || !IsSpace(s[i])
    decreases |s| - lo
  {
    if lo < |s| && IsSpace(s[lo]) then SkipSpaces(s, lo + 1) else lo
  }

  /** The scan from the right, stopping at `lo`: the end of the last
      character in `s[lo..hi]` that is no whitespace, or `lo`. */
  function SkipSpacesBack(s: string, lo: nat, hi: nat): (j: nat)
    requires lo <= hi <= |s|
    ensures lo <= j <= hi
    ensures SpaceBetween(s, j, hi)
    ensures j == lo || !IsSpace(s[j - 1])
    decreases hi
  {
    if lo < hi && IsSpace(s[hi - 1]) then SkipSpacesBack(s, lo, hi - 1) else hi
  }

  /** `s.strip()`: the text between the two scans. */
  function Strip(s: string): (r: string)
    ensures |r| <= |s|
    ensures Unpadded(r)
  {
    var i := SkipSpaces(s, 0);
    s[i..SkipSpacesBack(s, i, |s|)]
  }

  lemma ThreeSlices(s: string, i: nat, j: nat)
    requires i <= j <= |s|
    ensures s == s[..i] + s[i..j] + s[j..]
  {
  }

  /** Strip only cuts whitespace off the two ends: `s` is the result framed by
      two runs of whitespace. */
  lemma StripSplits(s: string) returns (before: string, after: string)
    ensures s == before + Strip(s) + after
    ensures AllSpace(before) && AllSpace(after)
  {
    var i := SkipSpaces(s, 0);
    var j := SkipSpacesBack(s, i, |s|);
    before, after := s[..i], s[j..];
    ThreeSlices(s, i, j);
  }

  lemma {:induction false} SkipSpacesStopsAt(s: string, lo: nat, i: nat)
    requires lo <= i <= |s|
    requires SpaceBetween(s, lo, i)
    requires i == |s| || !IsSpace(s[i])
    ensures SkipSpaces(s, lo) == i
    decreases i - lo
  {
    if lo < i {
      SkipSpacesStopsAt(s, lo + 1, i);
    }
  }

  lemma {:induction false} SkipSpacesBackStopsAt(s: string, lo: nat, j: nat, hi: nat)
    requires lo <= j <= hi <= |s|
    requires SpaceBetween(s, j, hi)
    requires j == lo || !IsSpace(s[j - 1])
    ensures SkipSpacesBack(s, lo, hi) == j
    decreases hi
  {
    if j < hi {
      SkipSpacesBackStopsAt(s, lo, j, hi - 1);
    }
  }

  /** The converse of StripSplits: whatever unpadded text sits between two
      runs of whitespace is exactly what Strip returns. */
  lemma StripUnique(before: string, t: string, after: string)
    requires AllSpace(before) && AllSpace(after) && Unpadded(t)
    ensures Strip(before + t + after) == t
  {
    var s := before + t + after;
    var i, j := |before|, |before| + |t|;
    assert s[..i] == before && s[i..j] == t && s[j..] == after;
    if t == [] {
      SkipSpacesStopsAt(s, 0, |s|);
      SkipSpacesBackStopsAt(s, |s|, |s|, |s|);
    } else {
      assert s[i] == t[0] && s[j - 1] == t[|t| - 1];
      SkipSpacesStopsAt(s, 0, i);
      SkipSpacesBackStopsAt(s, i, j, |s|);
    }
  }

  lemma StripIdempotent(s: string)
    ensures Strip(Strip(s)) == Strip(s)
  {
    var t := Strip(s);
    assert [] + t + [] == t;
    StripUnique([], t, []);
  }

  /** Python's `sep.join(parts)`: nothing for no parts, and otherwise text
      that starts with the first part. */
  function Join(sep: string, parts: seq<string>): (r: string)
    ensures parts == [] ==> r == ""
    ensures parts != [] ==> parts[0] <= r
  {
    if parts == [] then ""
    else if |parts| == 1 then parts[0]
    else parts[0] + sep + Join(sep, parts[1..])
  }

  /** Join read from the other end: appending a part appends the separator
      and that part. */
  lemma {:induction false} JoinSnoc(sep: string, parts: seq<string>, p: string)
    ensures Join(sep, parts + [p]) == if parts == [] then p else Join(sep, parts) + sep + p
  {
    if |parts| == 0 {
      assert parts + [p] == [p];
    } else if |parts| == 1 {
      assert parts + [p] == [parts[0], p];
      assert [parts[0], p][1..] == [p];
    } else {
      assert (parts + [p])[1..] == parts[1..] + [p];
      JoinSnoc(sep, parts[1..], p);
    }
  }

  /** Every part and every separator lands in the result, so its length is
      the parts' total plus one separator between each two of them. */
  function TotalLength(parts: seq<string>): nat {
    if parts == [] then 0 else |parts[0]| + TotalLength(parts[1..])
  }

  lemma {:induction false} JoinLength(sep: string, parts: seq<string>)
    requires parts != []
    ensures |Join(sep, parts)| == TotalLength(parts) + |sep| * (|parts| - 1)
  {
    if |parts| > 1 {
      JoinLength(sep, parts[1..]);
      assert Join(sep, parts) == parts[0] + sep + Join(sep, parts[1..]);
      assert TotalLength(parts) == |parts[0]| + TotalLength(parts[1..]);
    } else {
      assert parts[1..] == [];
    }
  }

  /** A non-empty separator makes the join empty exactly when there is no
      part, or one empty part. */
  lemma JoinEmptyIff(sep: string, parts: seq<string>)
    requires sep != ""
    ensures Join(sep, parts) == "" <==> parts == [] || parts == [""]
  {
    if |parts| > 1 {
      assert |Join(sep, parts)| >= |sep|;
    } else if |parts| == 1 {
      assert parts == [parts[0]];
    }
  }

  /** Joining empty strings with one space leaves one space per gap. */
  lemma {:induction false} JoinOfEmpties(parts: seq<string>)
    requires parts != []
    requires forall i :: 0 <= i < |parts| ==> parts[i] == ""
    ensures |Join(" ", parts)| == |parts| - 1
    ensures forall k :: 0 <= k < |Join(" ", parts)| ==> Join(" ", parts)[k] == ' '
  {
    if |parts| > 1 {
      JoinOfEmpties(parts[1..]);
      assert Join(" ", parts) == " " + Join(" ", parts[1..]);
    }
  }
}
