/** String operations the source takes from Python's `str` and `re`: substring tests,
    ASCII case folding, whitespace stripping, joining, decimal rendering of integers
    and the `(19|20)\d{2}` year pattern. */
module Text {

  import opened Wrappers

  /** `t` is a prefix of `s`. */
  predicate StartsWith(s: string, t: string) {
    |t| <= |s| && s[..|t|] == t
  }

  /** `t` is a suffix of `s`. */
  predicate EndsWith(s: string, t: string) {
    |t| <= |s| && s[|s| - |t|..] == t
  }

  /** `t` occurs in `s` at position `i`. */
  predicate OccursAt(s: string, t: string, i: int) {
    0 <= i && i + |t| <= |s| && s[i..i + |t|] == t
  }

  /** Python's `t in s`, scanned from the left. */
  function Contains(s: string, t: string): (b: bool)
    ensures b <==> exists i :: OccursAt(s, t, i)
    decreases |s|
  {
    if StartsWith(s, t) then
      assert OccursAt(s, t, 0);
      true
    else if |s| == 0 then
      false
    else
      var b := Contains(s[1..], t);
      assert forall i :: OccursAt(s[1..], t, i) ==> OccursAt(s, t, i + 1);
      assert forall i :: OccursAt(s, t, i) && i > 0 ==> OccursAt(s[1..], t, i - 1);
      b
  }

  /** Python's `any(term in s for term in terms)`. */
  function ContainsAny(s: string, terms: seq<string>): (b: bool)
    ensures b <==> exists k :: 0 <= k < |terms| && Contains(s, terms[k])
  {
    if |terms| == 0 then false
    else if Contains(s, terms[0]) then true
    else
      var b := ContainsAny(s, terms[1..]);
      assert forall k :: 1 <= k < |terms| ==> terms[k] == terms[1..][k - 1];
      b
  }

  /** The first keyword group (in table order) with a term that occurs in `s`; the
      shape of the source's `for label, terms in table.items(): if any(...): return`. */
  function FirstMatch<L>(groups: seq<(L, seq<string>)>, s: string): (r: Option<nat>)
    ensures r.None? <==> forall k :: 0 <= k < |groups| ==> !ContainsAny(s, groups[k].1)
    ensures r.Some? ==> r.value < |groups| && ContainsAny(s, groups[r.value].1)
    ensures r.Some? ==> forall k :: 0 <= k < r.value ==> !ContainsAny(s, groups[k].1)
  {
    if |groups| == 0 then None
    else if ContainsAny(s, groups[0].1) then Some(0)
    else
      match FirstMatch(groups[1..], s)
      case None => None
      case Some(k) => Some(k + 1)
  }

  /** The label of the first matching group, or `other` when no group matches: the
      `return label` inside that loop and the default returned after it. */
  function LabelOf<L>(groups: seq<(L, seq<string>)>, s: string, other: L): L {
    match FirstMatch(groups, s)
    case Some(k) => groups[k].0
    case None => other
  }

  /** With distinct labels, none of them the default, the label names the first group
      with a term in `s`, and the default means that no group has one. */
  lemma LabelOfFacts<L>(groups: seq<(L, seq<string>)>, s: string, other: L)
    requires forall i, j :: 0 <= i < j < |groups| ==> groups[i].0 != groups[j].0
    requires forall i :: 0 <= i < |groups| ==> groups[i].0 != other
    ensures LabelOf(groups, s, other) == other <==> forall k :: 0 <= k < |groups| ==> !ContainsAny(s, groups[k].1)
    ensures forall k :: 0 <= k < |groups| && LabelOf(groups, s, other) == groups[k].0 ==>
              ContainsAny(s, groups[k].1) && forall j :: 0 <= j < k ==> !ContainsAny(s, groups[j].1)
    ensures |groups| > 0 && ContainsAny(s, groups[0].1) ==> LabelOf(groups, s, other) == groups[0].0
  {
    match FirstMatch(groups, s)
    case Some(m) =>
      forall k | 0 <= k < |groups| && groups[m].0 == groups[k].0
        ensures k == m
      {
      }
    case None =>
  }

  /** ASCII case folding: the part of `str.lower()` the keyword tables depend on. */
  function LowerChar(c: char): char {
    if 'A' <= c <= 'Z' then (c as int + 32) as char else c
  }

  function ToLower(s: string): (r: string)
    ensures |r| == |s|
    ensures forall i :: 0 <= i < |s| ==> r[i] == (if 'A' <= s[i] <= 'Z' then (s[i] as int + 32) as char else s[i])
    ensures forall i :: 0 <= i < |r| ==> !('A' <= r[i] <= 'Z')
  {
    seq(|s|, i requires 0 <= i < |s| => LowerChar(s[i]))
  }

  /** Lowering twice is lowering once. */
  lemma ToLowerIdempotent(s: string)
    ensures ToLower(ToLower(s)) == ToLower(s)
  {
  }

  /** The characters Python's `str.isspace()` accepts; also what `\s` matches. */
  predicate IsSpace(c: char) {
    var n := c as int;
    n == 32 || 9 <= n <= 13 || 28 <= n <= 31 || n == 0x85 || n == 0xA0 || n == 0x1680
    || 0x2000 <= n <= 0x200A || n == 0x2028 || n == 0x2029 || n == 0x202F || n == 0x205F
    || n == 0x3000
  }

  /** `str.lstrip()`: drops the leading whitespace and nothing else. */
  function TrimStart(s: string): (r: string)
    ensures |r| <= |s| && r == s[|s| - |r|..]
    ensures forall k :: 0 <= k < |s| - |r| ==> IsSpace(s[k])
    ensures |r| > 0 ==> !IsSpace(r[0])
  {
    if |s| > 0 && IsSpace(s[0]) then TrimStart(s[1..]) else s
  }

  /** `str.rstrip()`: drops the trailing whitespace and nothing else. */
  function TrimEnd(s: string): (r: string)
    ensures |r| <= |s| && r == s[..|r|]
    ensures forall k :: |r| <= k < |s| ==> IsSpace(s[k])
    ensures |r| > 0 ==> !IsSpace(r[|r| - 1])
  {
    if |s| > 0 && IsSpace(s[|s| - 1]) then TrimEnd(s[..|s| - 1]) else s
  }

  /** `str.strip()`. */
  function Strip(s: string): string {
    TrimEnd(TrimStart(s))
  }

  /** `Strip(s)` is the slice of `s` left after removing whitespace at both ends, and it
      neither starts nor ends with whitespace. */
  lemma StripSlice(s: string)
    ensures exists i, j ::
              && 0 <= i <= j <= |s| && Strip(s) == s[i..j]
              && (forall k :: 0 <= k < i ==> IsSpace(s[k]))
              && (forall k :: j <= k < |s| ==> IsSpace(s[k]))
    ensures |Strip(s)| > 0 ==> !IsSpace(Strip(s)[0]) && !IsSpace(Strip(s)[|Strip(s)| - 1])
  {
    var i, j := StripBounds(s);
    StripEnds(s);
  }

  /** The bounds of the slice `Strip` keeps. */
  lemma StripBounds(s: string) returns (i: nat, j: nat)
    ensures i <= j <= |s| && Strip(s) == s[i..j]
    ensures forall k :: 0 <= k < i ==> IsSpace(s[k])
    ensures forall k :: j <= k < |s| ==> IsSpace(s[k])
  {
    var t := TrimStart(s);
    var r := TrimEnd(t);
    i, j := |s| - |t|, |s| - |t| + |r|;
    SliceOfSuffix(s, i, |r|);
  }

  /** A prefix of a suffix is a slice. */
  lemma SliceOfSuffix(s: string, i: nat, n: nat)
    requires i + n <= |s|
    ensures s[i..i + n] == s[i..][..n]
    ensures forall k :: i + n <= k < |s| ==> s[k] == s[i..][k - i]
  {
  }

  /** A stripped text neither starts nor ends with whitespace. */
  lemma StripEnds(s: string)
    ensures |Strip(s)| > 0 ==> !IsSpace(Strip(s)[0]) && !IsSpace(Strip(s)[|Strip(s)| - 1])
  {
    var t := TrimStart(s);
    var r := TrimEnd(t);
    if |r| > 0 {
      assert r[0] == t[0];
    }
  }

  /** Python's `sep.join(parts)`. */
  function Join(parts: seq<string>, sep: string): string {
    if |parts| == 0 then ""
    else if |parts| == 1 then parts[0]
    else parts[0] + sep + Join(parts[1..], sep)
  }

  /** Appending a part to a join adds the separator and the part at the end; this is what
      lets a loop that appends to a list be tied to the joined text. */
  lemma {:induction false} JoinSnoc(parts: seq<string>, p: string, sep: string)
    ensures Join(parts + [p], sep) == if parts == [] then p else Join(parts, sep) + sep + p
  {
    if |parts| >= 2 {
      assert (parts + [p])[1..] == parts[1..] + [p];
      JoinSnoc(parts[1..], p, sep);
    } else if |parts| == 1 {
      assert (parts + [p])[1..] == [p];
    }
  }

  /** A non-empty join starts with its first part. */
  lemma {:induction false} JoinStartsWithFirst(parts: seq<string>, sep: string)
    requires |parts| > 0
    ensures StartsWith(Join(parts, sep), parts[0])
  {
  }

  /** A join of two or more parts ends with the separator and the last part. */
  lemma {:induction false} JoinEndsWithLast(parts: seq<string>, sep: string)
    requires |parts| >= 2
    ensures EndsWith(Join(parts, sep), sep + parts[|parts| - 1])
  {
    var tail := sep + parts[|parts| - 1];
    var rest := Join(parts[1..], sep);
    if |parts| == 2 {
      assert rest == parts[1];
    } else {
      JoinEndsWithLast(parts[1..], sep);
      assert parts[1..][|parts[1..]| - 1] == parts[|parts| - 1];
    }
    assert EndsWith(parts[0] + sep + rest, tail) by {
      var whole := parts[0] + sep + rest;
      assert whole[|whole| - |rest|..] == rest;
      assert whole[|whole| - |tail|..] == tail;
    }
  }

  /** A join ends with its last part. */
  lemma JoinEndsWithPart(parts: seq<string>, sep: string)
    requires |parts| > 0
    ensures EndsWith(Join(parts, sep), parts[|parts| - 1])
  {
    if |parts| >= 2 {
      JoinEndsWithLast(parts, sep);
      var j, t := Join(parts, sep), parts[|parts| - 1];
      assert j[|j| - |t|..] == j[|j| - |sep + t|..][|sep|..];
    }
  }

  predicate IsDigit(c: char) {
    '0' <= c <= '9'
  }

  function DigitChar(d: nat): (c: char)
    requires d < 10
  {
    (48 + d) as char
  }

  /** Python's `str(n)` for a non-negative integer. */
  function NatToString(n: nat): (s: string)
    ensures |s| > 0 && forall k :: 0 <= k < |s| ==> IsDigit(s[k])
  {
    if n < 10 then [DigitChar(n)] else NatToString(n / 10) + [DigitChar(n % 10)]
  }

  /** Python's `str(i)` (and `f"{i}"`) for an integer. */
  function IntToString(i: int): string {
    if i < 0 then "-" + NatToString(-i) else NatToString(i)
  }

  /** Reads a run of decimal digits back as a number. */
  function DigitsValue(s: string): nat
    requires forall k :: 0 <= k < |s| ==> IsDigit(s[k])
  {
    if |s| == 0 then 0
    else
      assert IsDigit(s[|s| - 1]);
      10 * DigitsValue(s[..|s| - 1]) + (s[|s| - 1] as int - 48) as nat
  }

  /** Decimal rendering loses nothing: reading the digits back gives the number. */
  lemma {:induction false} NatToStringRoundTrip(n: nat)
    ensures DigitsValue(NatToString(n)) == n
  {
    if n >= 10 {
      var s := NatToString(n);
      assert s[..|s| - 1] == NatToString(n / 10);
      NatToStringRoundTrip(n / 10);
    }
  }

  /** Different numbers render differently. */
  lemma NatToStringInjective(m: nat, n: nat)
    requires NatToString(m) == NatToString(n)
    ensures m == n
  {
    NatToStringRoundTrip(m);
    NatToStringRoundTrip(n);
  }

  /** The pattern `(19|20)\d{2}` matches at position `i`. */
  predicate YearAt(s: string, i: int) {
    0 <= i && i + 4 <= |s|
    && ((s[i] == '1' && s[i + 1] == '9') || (s[i] == '2' && s[i + 1] == '0'))
    && IsDigit(s[i + 2]) && IsDigit(s[i + 3])
  }

  /** `re.findall(r'(19|20)\d{2}', s[i..])`: the non-overlapping matches from the left,
      each reported by its captured group, the first two characters. */
  function YearGroupsFrom(s: string, i: nat): (r: seq<string>)
    requires i <= |s|
    ensures forall k :: 0 <= k < |r| ==> r[k] == "19" || r[k] == "20"
    ensures |r| > 0 <==> exists j :: i <= j && YearAt(s, j)
    ensures 4 * |r| <= |s| - i
    decreases |s| - i
  {
    if i + 4 > |s| then
      []
    else if YearAt(s, i) then
      [s[i..i + 2]] + YearGroupsFrom(s, i + 4)
    else
      var r := YearGroupsFrom(s, i + 1);
      assert forall j :: i <= j && YearAt(s, j) ==> i + 1 <= j;
      r
  }

  function YearGroups(s: string): seq<string> {
    YearGroupsFrom(s, 0)
  }

  /** `j` is the leftmost start of a year match at or after `from`. */
  ghost predicate LeftmostYear(s: string, from: int, j: int) {
    from <= j && YearAt(s, j) && forall m :: from <= m < j ==> !YearAt(s, m)
  }

  /** `p` lists the starts of the matches `re.findall` takes scanning from `i`: the leftmost
      match, then the leftmost one at or after the end of the previous, and no match after
      the end of the last. */
  ghost predicate YearChain(s: string, i: int, p: seq<nat>) {
    && (|p| == 0 ==> forall j :: i <= j ==> !YearAt(s, j))
    && (|p| > 0 ==> LeftmostYear(s, i, p[0]) && forall j :: p[|p| - 1] + 4 <= j ==> !YearAt(s, j))
    && forall k :: 0 <= k < |p| - 1 ==> LeftmostYear(s, p[k] + 4, p[k + 1])
  }

  /** `r` holds the captured group, the first two characters, of the match at each start in `p`. */
  ghost predicate GroupsAt(r: seq<string>, s: string, p: seq<nat>) {
    |r| == |p| && forall k :: 0 <= k < |p| ==> p[k] + 4 <= |s| && r[k] == s[p[k]..p[k] + 2]
  }

  /** The starts of the matches `YearGroupsFrom(s, i)` reports. */
  function YearStartsFrom(s: string, i: nat): seq<nat>
    requires i <= |s|
    decreases |s| - i
  {
    if i + 4 > |s| then []
    else if YearAt(s, i) then [i] + YearStartsFrom(s, i + 4)
    else YearStartsFrom(s, i + 1)
  }

  lemma YearChainTake(s: string, i: nat, p: seq<nat>)
    requires YearAt(s, i) && YearChain(s, i + 4, p)
    ensures YearChain(s, i, [i] + p)
  {
    var q := [i] + p;
    assert LeftmostYear(s, i, q[0]);
    forall k | 0 <= k < |q| - 1
      ensures LeftmostYear(s, q[k] + 4, q[k + 1])
    {
      if k > 0 {
        assert q[k] == p[k - 1] && q[k + 1] == p[k];
      }
    }
  }

  lemma YearChainSkip(s: string, i: nat, p: seq<nat>)
    requires !YearAt(s, i) && YearChain(s, i + 1, p)
    ensures YearChain(s, i, p)
  {
    if |p| > 0 {
      assert LeftmostYear(s, i, p[0]);
    }
  }

  lemma GroupsAtTake(s: string, i: nat, r: seq<string>, p: seq<nat>)
    requires i + 4 <= |s| && GroupsAt(r, s, p)
    ensures GroupsAt([s[i..i + 2]] + r, s, [i] + p)
  {
    var r', p' := [s[i..i + 2]] + r, [i] + p;
    forall k | 0 <= k < |p'|
      ensures p'[k] + 4 <= |s| && r'[k] == s[p'[k]..p'[k] + 2]
    {
      if k > 0 {
        assert r'[k] == r[k - 1] && p'[k] == p[k - 1];
      }
    }
  }

  /** `YearGroupsFrom` is `re.findall` of the year pattern: one captured group for each
      match of the leftmost non-overlapping chain, in order. */
  lemma {:induction false} YearGroupsFindall(s: string, i: nat)
    requires i <= |s|
    ensures GroupsAt(YearGroupsFrom(s, i), s, YearStartsFrom(s, i))
    ensures YearChain(s, i, YearStartsFrom(s, i))
    decreases |s| - i
  {
    if i + 4 > |s| {
      assert forall j :: i <= j ==> !YearAt(s, j);
    } else if YearAt(s, i) {
      YearGroupsFindall(s, i + 4);
      GroupsAtTake(s, i, YearGroupsFrom(s, i + 4), YearStartsFrom(s, i + 4));
      YearChainTake(s, i, YearStartsFrom(s, i + 4));
    } else {
      YearGroupsFindall(s, i + 1);
      YearChainSkip(s, i, YearStartsFrom(s, i + 1));
    }
  }

  /** `s` with every occurrence of `c` deleted (`s.replace(c, '')`). */
  function Without(s: string, c: char): (r: string)
    ensures |r| <= |s|
    ensures forall k :: 0 <= k < |r| ==> r[k] != c && r[k] in s
  {
    if |s| == 0 then "" else (if s[0] == c then "" else [s[0]]) + Without(s[1..], c)
  }

  /** Python's `str.isdigit()` on ASCII: non-empty and all digits. */
  predicate AllDigits(s: string) {
    |s| > 0 && forall k :: 0 <= k < |s| ==> IsDigit(s[k])
  }

  /** The position of the first occurrence of `t` in `s`, as `str.find` reports it. */
  function FindFirst(s: string, t: string): (r: Option<nat>)
    ensures r.None? <==> !Contains(s, t)
    ensures r.Some? ==> OccursAt(s, t, r.value) && forall i :: 0 <= i < r.value ==> !OccursAt(s, t, i)
    decreases |s|
  {
    if StartsWith(s, t) then
      assert OccursAt(s, t, 0);
      Some(0)
    else if |s| == 0 then
      None
    else
      assert forall i :: OccursAt(s[1..], t, i) ==> OccursAt(s, t, i + 1);
      assert forall i :: OccursAt(s, t, i) && i > 0 ==> OccursAt(s[1..], t, i - 1);
      match FindFirst(s[1..], t)
      case None => None
      case Some(k) => Some(k + 1)
  }
}
