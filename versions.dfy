/** The release-version selection of the upgrade-journey tool (apps/upgrade-journey/versions.go):
    GitHub release tags are parsed as `vX.Y.Z`, sorted by (major, minor, patch), trimmed to the
    window between a minimum and the target's version, printed back as `X.Y.Z`, and the target
    is appended. The GitHub request and the container that reports the target's version are
    inputs here. Go's `int` is modelled by unbounded integers. */
module Versions {
  import opened Wrappers
  import opened Seqs
  import opened Strings

  /** Go's `semver` struct. */
  datatype Semver = Semver(major: int, minor: int, patch: int)

  /** The zero value `semver{}` returned alongside `false`. */
  const ZeroSemver := Semver(0, 0, 0)

  predicate NonNegative(v: Semver)
  {
    v.major >= 0 && v.minor >= 0 && v.patch >= 0
  }

  // ---------------------------------------------------------------- parsing

  /** `mustParseInt`: `strconv.Atoi` on a digit run. Its panic cannot be reached from the
      regular expressions that feed it, except by overflow, which is not modelled. */
  function MustParseInt(s: string): (n: int)
    requires IsDigits(s)
    ensures n >= 0
  {
    DecimalValue(s)
  }

  /** Reading back what `%d` printed for a natural number gives the number. */
  lemma MustParseIntOfPrinted(n: nat)
    ensures MustParseInt(NatToDecimal(n)) == n
  {
    DecimalRoundTrip(n);
  }

  /** The text matched by `^([0-9]+)\.([0-9]+)\.([0-9]+)$`, with its three capture groups. */
  ghost predicate DottedShape(s: string, a: string, b: string, c: string)
  {
    IsDigits(a) && IsDigits(b) && IsDigits(c) && s == a + "." + b + "." + c
  }

  /** The text matched by `^v([0-9]+)\.([0-9]+)\.([0-9]+)$`, with its three capture groups. */
  ghost predicate TagShape(t: string, a: string, b: string, c: string)
  {
    IsDigits(a) && IsDigits(b) && IsDigits(c) && t == "v" + a + "." + b + "." + c
  }

  lemma DigitsHaveNoDot(s: string)
    requires IsDigits(s)
    ensures '.' !in s
  {
  }

  /** Matching and capturing `X.Y.Z`: three pieces between dots, each a digit run. */
  function ParseDotted(s: string): (r: Option<Semver>)
    ensures r.Some? ==> |Split(s, '.')| == 3 && NonNegative(r.value)
  {
    var parts := Split(s, '.');
    if |parts| == 3 && IsDigits(parts[0]) && IsDigits(parts[1]) && IsDigits(parts[2])
    then Some(Semver(MustParseInt(parts[0]), MustParseInt(parts[1]), MustParseInt(parts[2])))
    else None
  }

  /** ParseDotted accepts exactly the strings of the regular expression and returns the
      values of its capture groups. */
  lemma {:induction false} ParseDottedMatchesPattern(s: string)
    ensures ParseDotted(s).Some? <==> exists a, b, c :: DottedShape(s, a, b, c)
    ensures forall a, b, c :: DottedShape(s, a, b, c) ==>
              ParseDotted(s) == Some(Semver(MustParseInt(a), MustParseInt(b), MustParseInt(c)))
  {
    var parts := Split(s, '.');
    if ParseDotted(s).Some? {
      JoinSplit(s, '.');
      assert parts[1..][1..] == [parts[2]];
      assert Join(parts[1..], '.') == parts[1] + "." + parts[2];
      assert Join(parts, '.') == parts[0] + "." + parts[1] + "." + parts[2];
      assert DottedShape(s, parts[0], parts[1], parts[2]);
    }
    forall a, b, c | DottedShape(s, a, b, c)
      ensures ParseDotted(s) == Some(Semver(MustParseInt(a), MustParseInt(b), MustParseInt(c)))
    {
      DottedShapeSplits(s, a, b, c);
    }
  }

  lemma DottedShapeSplits(s: string, a: string, b: string, c: string)
    requires DottedShape(s, a, b, c)
    ensures Split(s, '.') == [a, b, c]
  {
    DigitsHaveNoDot(a);
    DigitsHaveNoDot(b);
    DigitsHaveNoDot(c);
    assert s == a + ['.'] + (b + ['.'] + c);
    SplitAfterFirst(a, '.', b + ['.'] + c);
    SplitAfterFirst(b, '.', c);
    SplitWithoutSeparator(c, '.');
  }

  /** `maybeParseSingleSemverWithoutLeadingV` (versions.go:167-180): `ok` holds exactly when the
      input is three dot-separated digit runs (so there is no leading `v`), and the version
      is then made of their decimal values; otherwise it is the zero value. */
  function MaybeParseSingleSemverWithoutLeadingV(input: string): (r: (Semver, bool))
    ensures r.1 <==> exists a, b, c :: DottedShape(input, a, b, c)
    ensures forall a, b, c :: DottedShape(input, a, b, c) ==>
              r == (Semver(MustParseInt(a), MustParseInt(b), MustParseInt(c)), true)
    ensures !r.1 ==> r.0 == ZeroSemver
    ensures r.1 ==> NonNegative(r.0)
  {
    ParseDottedMatchesPattern(input);
    match ParseDotted(input)
    case Some(v) => (v, true)
    case None => (ZeroSemver, false)
  }

  /** `parseSingleSemverWithoutLeadingV` (versions.go:158-165): the panic is the error case. */
  function ParseSingleSemverWithoutLeadingV(input: string): (r: Result<Semver, string>)
    ensures r.Err? <==> !MaybeParseSingleSemverWithoutLeadingV(input).1
    ensures r.Ok? ==> r.value == MaybeParseSingleSemverWithoutLeadingV(input).0
  {
    var (v, ok) := MaybeParseSingleSemverWithoutLeadingV(input);
    if !ok then Err("not an acceptable semver") else Ok(v)
  }

  /** The tag regular expression of `parseSemverList`: a `v` followed by `X.Y.Z`. */
  function ParseReleaseTag(tag: string): (r: Option<Semver>)
    ensures r.Some? ==> |tag| > 0 && tag[0] == 'v' && NonNegative(r.value)
  {
    if |tag| > 0 && tag[0] == 'v' then ParseDotted(tag[1..]) else None
  }

  predicate IsReleaseTag(tag: string)
  {
    ParseReleaseTag(tag).Some?
  }

  /** A tag is kept exactly when it matches `^v([0-9]+)\.([0-9]+)\.([0-9]+)$`, and then it is
      parsed into the values of the three groups. */
  lemma ReleaseTagMatchesPattern(tag: string)
    ensures IsReleaseTag(tag) <==> exists a, b, c :: TagShape(tag, a, b, c)
    ensures forall a, b, c :: TagShape(tag, a, b, c) ==>
              ParseReleaseTag(tag) == Some(Semver(MustParseInt(a), MustParseInt(b), MustParseInt(c)))
  {
    if |tag| > 0 && tag[0] == 'v' {
      ParseDottedMatchesPattern(tag[1..]);
      forall a, b, c
        ensures TagShape(tag, a, b, c) <==> DottedShape(tag[1..], a, b, c)
      {
        TagShapeIsDottedAfterV(tag, a, b, c);
      }
    } else {
      forall a, b, c
        ensures !TagShape(tag, a, b, c)
      {
      }
    }
  }

  /** A tag that starts with `v` matches the tag pattern exactly when its rest matches `X.Y.Z`. */
  lemma TagShapeIsDottedAfterV(tag: string, a: string, b: string, c: string)
    requires |tag| > 0 && tag[0] == 'v'
    ensures TagShape(tag, a, b, c) <==> DottedShape(tag[1..], a, b, c)
  {
    assert tag == "v" + tag[1..];
    if TagShape(tag, a, b, c) {
      assert tag[1..] == a + "." + b + "." + c;
    }
  }

  /** Only digits and dots follow the `v` of a kept tag. */
  lemma ReleaseTagCharacters(tag: string)
    requires IsReleaseTag(tag)
    ensures forall i :: 1 <= i < |tag| ==> IsDigit(tag[i]) || tag[i] == '.'
  {
    ReleaseTagMatchesPattern(tag);
    var a, b, c :| TagShape(tag, a, b, c);
    forall i | 1 <= i < |tag|
      ensures IsDigit(tag[i]) || tag[i] == '.'
    {
      assert tag == ['v'] + a + ['.'] + b + ['.'] + c;
      if i <= |a| {
        assert tag[i] == a[i - 1];
      } else if i == |a| + 1 {
        assert tag[i] == '.';
      } else if i <= |a| + 1 + |b| {
        assert tag[i] == b[i - |a| - 2];
      } else if i == |a| + |b| + 2 {
        assert tag[i] == '.';
      } else {
        assert tag[i] == c[i - |a| - |b| - 3];
      }
    }
  }

  /** Pre-releases and tags without the `v` are dropped. */
  lemma PreReleaseAndBareTagsDropped()
    ensures !IsReleaseTag("v1.2.3-rc1")
    ensures !IsReleaseTag("1.2.3")
  {
    var t := "v1.2.3-rc1";
    assert t[6] == '-';
    if IsReleaseTag(t) {
      ReleaseTagCharacters(t);
    }
  }

  /** The versions `parseSemverList` keeps from `tags`, in input order. */
  function ReleaseVersions(tags: seq<string>): (r: seq<Semver>)
    ensures |r| <= |tags|
    ensures forall j :: 0 <= j < |r| ==> NonNegative(r[j])
    decreases |tags|
  {
    if tags == [] then []
    else
      var init := ReleaseVersions(tags[..|tags| - 1]);
      match ParseReleaseTag(tags[|tags| - 1])
      case Some(v) => init + [v]
      case None => init
  }

  /** `parseSemverList` keeps exactly the tags of the form `vX.Y.Z`, in input order, and
      parses each of them. */
  lemma {:induction false} ReleaseVersionsAreMatchingTags(tags: seq<string>)
    ensures |ReleaseVersions(tags)| == |Filter(tags, IsReleaseTag)|
    ensures forall j :: 0 <= j < |ReleaseVersions(tags)| ==>
              ParseReleaseTag(Filter(tags, IsReleaseTag)[j]) == Some(ReleaseVersions(tags)[j])
    decreases |tags|
  {
    if tags != [] {
      ReleaseVersionsAreMatchingTags(tags[..|tags| - 1]);
    }
  }

  /** `parseSemverList` (versions.go:74-96): fills a slice of the input's length through an
      index `i`, skipping the tags that do not match, and returns the filled prefix. */
  method ParseSemverList(input: seq<string>) returns (versions: seq<Semver>)
    ensures versions == ReleaseVersions(input)
  {
    var out := new Semver[|input|];
    var i := 0;
    for k := 0 to |input|
      invariant i <= k
      invariant out[..i] == ReleaseVersions(input[..k])
    {
      assert input[..k + 1][..k] == input[..k];
      var m := ParseReleaseTag(input[k]);
      if m.None? {
        continue;
      }
      out[i] := m.value;
      i := i + 1;
    }
    assert input[..|input|] == input;
    versions := out[..i];
  }

  // ---------------------------------------------------------------- ordering

  /** Go's `largerOrEqual` (versions.go:106-116), branch for branch. It compares each
      component on its own: it is a product order, not the lexicographic one. */
  function LargerOrEqual(self: Semver, other: Semver): (r: bool)
    ensures r <==> self.major >= other.major && self.minor >= other.minor && self.patch >= other.patch
  {
    if self.major < other.major then false
    else if self.minor < other.minor then false
    else self.patch >= other.patch
  }

  lemma LargerOrEqualIsAPartialOrder(a: Semver, b: Semver, c: Semver)
    ensures LargerOrEqual(a, a)
    ensures LargerOrEqual(a, b) && LargerOrEqual(b, c) ==> LargerOrEqual(a, c)
    ensures LargerOrEqual(a, b) && LargerOrEqual(b, a) ==> a == b
  {
  }

  /** Not every pair is comparable: neither 1.0.0 nor 0.5.0 is `largerOrEqual` the other. */
  lemma LargerOrEqualIsNotTotal()
    ensures !LargerOrEqual(Semver(1, 0, 0), Semver(0, 5, 0))
    ensures !LargerOrEqual(Semver(0, 5, 0), Semver(1, 0, 0))
  {
  }

  /** The comparator given to `sort.Slice` (versions.go:127-135): lexicographic on
      (major, minor, patch). */
  predicate SortsBefore(a: Semver, b: Semver): (r: bool)
    ensures r ==> a != b && a.major <= b.major
  {
    if a.major != b.major then a.major < b.major
    else if a.minor != b.minor then a.minor < b.minor
    else a.patch < b.patch
  }

  /** Being `largerOrEqual` implies not sorting before; the converse fails (see
      LargerOrEqualIsNotTotal). */
  lemma LargerOrEqualImpliesNotBefore(a: Semver, b: Semver)
    requires LargerOrEqual(a, b)
    ensures !SortsBefore(a, b)
  {
  }

  /** What `sort.Slice` promises: no element sorts before an earlier one. */
  ghost predicate Sorted(s: seq<Semver>)
  {
    forall i, j :: 0 <= i < j < |s| ==> !SortsBefore(s[j], s[i])
  }

  function Insert(x: Semver, s: seq<Semver>): (r: seq<Semver>)
    requires Sorted(s)
    ensures Sorted(r)
    ensures multiset(r) == multiset(s) + multiset{x}
    ensures forall j :: 0 <= j < |r| ==> r[j] == x || r[j] in s
    decreases |s|
  {
    if s == [] || !SortsBefore(s[0], x) then [x] + s
    else
      assert s == [s[0]] + s[1..];
      var rest := Insert(x, s[1..]);
      ConsSorted(s[0], rest, x, s[1..]);
      [s[0]] + rest
  }

  /** A head that sorts no later than `x` and than the elements of a sorted `s` can be put in front
      of a sorted list made of `x` and elements of `s`. */
  lemma ConsSorted(head: Semver, rest: seq<Semver>, x: Semver, s: seq<Semver>)
    requires Sorted(rest) && SortsBefore(head, x)
    requires forall j :: 0 <= j < |s| ==> !SortsBefore(s[j], head)
    requires forall j :: 0 <= j < |rest| ==> rest[j] == x || rest[j] in s
    ensures Sorted([head] + rest)
  {
    var r := [head] + rest;
    forall i, j | 0 <= i < j < |r|
      ensures !SortsBefore(r[j], r[i])
    {
      if i == 0 {
        assert r[j] == rest[j - 1];
      } else {
        assert r[i] == rest[i - 1] && r[j] == rest[j - 1];
      }
    }
  }

  /** The result of `sort.Slice` on the list: an insertion sort under the same comparator. */
  function SortVersions(s: seq<Semver>): (r: seq<Semver>)
    ensures Sorted(r)
    ensures multiset(r) == multiset(s)
    decreases |s|
  {
    if s == [] then []
    else
      assert s == [s[0]] + s[1..];
      Insert(s[0], SortVersions(s[1..]))
  }

  /** The comparator is a strict total order: two values neither of which sorts before the other are equal. */
  lemma SortsBeforeIsTotal(x: Semver, y: Semver)
    requires !SortsBefore(x, y) && !SortsBefore(y, x)
    ensures x == y
  {
  }

  lemma SortedHeadIsLeast(s: seq<Semver>, x: Semver)
    requires Sorted(s) && x in multiset(s)
    ensures |s| > 0 && !SortsBefore(x, s[0])
  {
    var k :| 0 <= k < |s| && s[k] == x;
  }

  lemma MultisetOfTail(s: seq<Semver>)
    requires |s| > 0
    ensures multiset(s[1..]) == multiset(s) - multiset{s[0]}
  {
    assert s == [s[0]] + s[1..];
  }

  /** Elements that compare equal under the comparator are identical, so there is only one
      sorted permutation: `sort.Slice`, although not stable, has a deterministic result,
      whatever algorithm computes it. */
  lemma {:induction false} SortedPermutationIsUnique(a: seq<Semver>, b: seq<Semver>)
    requires Sorted(a) && Sorted(b)
    requires multiset(a) == multiset(b)
    ensures a == b
    decreases |a|
  {
    if a == [] {
      assert |b| == |multiset(b)| == 0;
    } else {
      assert a[0] in multiset(a);
      SortedHeadIsLeast(b, a[0]);
      assert b[0] in multiset(b);
      SortedHeadIsLeast(a, b[0]);
      SortsBeforeIsTotal(a[0], b[0]);
      MultisetOfTail(a);
      MultisetOfTail(b);
      assert Sorted(a[1..]) && Sorted(b[1..]);
      SortedPermutationIsUnique(a[1..], b[1..]);
      assert a == [a[0]] + a[1..] && b == [b[0]] + b[1..];
    }
  }

  // ---------------------------------------------------------------- trimming

  /** The loop of `sortSemverAndTrimToMinimum` (versions.go:143-153) over the sorted list: skip
      what is not `largerOrEqual(minV)`, stop at the first remaining one that is
      `largerOrEqual(maxV)`, keep the others. */
  function TrimWindow(s: seq<Semver>, minV: Semver, maxV: Semver): (r: seq<Semver>)
    ensures forall j :: 0 <= j < |r| ==> LargerOrEqual(r[j], minV) && !LargerOrEqual(r[j], maxV)
    ensures forall j :: 0 <= j < |r| ==> r[j] in s
    decreases |s|
  {
    if s == [] then []
    else if !LargerOrEqual(s[0], minV) then TrimWindow(s[1..], minV, maxV)
    else if LargerOrEqual(s[0], maxV) then []
    else [s[0]] + TrimWindow(s[1..], minV, maxV)
  }

  /** Where the loop breaks: the first element that is `largerOrEqual` both bounds. */
  function StopIndex(s: seq<Semver>, minV: Semver, maxV: Semver): (k: nat)
    ensures k <= |s|
    ensures forall j :: 0 <= j < k ==> !(LargerOrEqual(s[j], minV) && LargerOrEqual(s[j], maxV))
    ensures k < |s| ==> LargerOrEqual(s[k], minV) && LargerOrEqual(s[k], maxV)
    decreases |s|
  {
    if s == [] then 0
    else if LargerOrEqual(s[0], minV) && LargerOrEqual(s[0], maxV) then 0
    else 1 + StopIndex(s[1..], minV, maxV)
  }

  function AtLeast(minV: Semver): Semver -> bool
  {
    v => LargerOrEqual(v, minV)
  }

  /** The trimmed list is exactly the elements `largerOrEqual(minV)` among those before the
      break, in order. An element that is `largerOrEqual(maxV)` but not `largerOrEqual(minV)`
      does not end the loop. */
  lemma {:induction false} TrimWindowIsFilteredPrefix(s: seq<Semver>, minV: Semver, maxV: Semver)
    ensures TrimWindow(s, minV, maxV) == Filter(s[..StopIndex(s, minV, maxV)], AtLeast(minV))
    decreases |s|
  {
    if s != [] {
      var k := StopIndex(s, minV, maxV);
      if LargerOrEqual(s[0], minV) && LargerOrEqual(s[0], maxV) {
        assert s[..k] == [];
      } else {
        var k' := StopIndex(s[1..], minV, maxV);
        assert k == 1 + k';
        TrimWindowIsFilteredPrefix(s[1..], minV, maxV);
        assert s[..k] == [s[0]] + s[1..][..k'];
        FilterConcat([s[0]], s[1..][..k'], AtLeast(minV));
        FilterSingle(s[0], AtLeast(minV));
      }
    }
  }

  /** Trimming a sorted list leaves it sorted. */
  lemma {:induction false} TrimWindowSorted(s: seq<Semver>, minV: Semver, maxV: Semver)
    requires Sorted(s)
    ensures Sorted(TrimWindow(s, minV, maxV))
    decreases |s|
  {
    if s != [] {
      assert Sorted(s[1..]);
      TrimWindowSorted(s[1..], minV, maxV);
      var t := TrimWindow(s[1..], minV, maxV);
      forall j | 0 <= j < |t|
        ensures !SortsBefore(t[j], s[0])
      {
        var m :| 0 <= m < |s[1..]| && s[1..][m] == t[j];
        assert s[m + 1] == t[j];
      }
    }
  }

  /** The product order skips versions that are above the minimum lexicographically: with
      minimum 1.2.3, release 1.3.0 is not kept. */
  lemma MinimumSkipsLaterMinorWithSmallerPatch()
    ensures SortsBefore(Semver(1, 2, 3), Semver(1, 3, 0))
    ensures TrimWindow([Semver(1, 3, 0)], Semver(1, 2, 3), Semver(2, 0, 0)) == []
  {
  }

  /** An element at or above the maximum stops the loop only when it also passes the minimum:
      with minimum 1.5.0 and maximum 2.0.5, 2.0.9 is skipped and the later 2.6.0 is kept. */
  lemma CeilingOnlyStopsAfterMinimumCheck()
    ensures LargerOrEqual(Semver(2, 0, 9), Semver(2, 0, 5))
    ensures TrimWindow([Semver(2, 0, 9), Semver(2, 6, 0)], Semver(1, 5, 0), Semver(2, 0, 5))
            == [Semver(2, 6, 0)]
  {
    var s := [Semver(2, 0, 9), Semver(2, 6, 0)];
    assert s[1..] == [Semver(2, 6, 0)];
    assert s[1..][1..] == [];
  }

  /** `sortSemverAndTrimToMinimum` (versions.go:126-156): sorts, parses both bounds (a panic on
      either is the error), then fills a slice through an index with `continue` and `break`. */
  method SortSemverAndTrimToMinimum(versions: seq<Semver>, min: string, max: string)
    returns (r: Result<seq<Semver>, string>)
    ensures r.Err? <==> !MaybeParseSingleSemverWithoutLeadingV(min).1
                        || !MaybeParseSingleSemverWithoutLeadingV(max).1
    ensures r.Ok? ==> r.value == TrimWindow(SortVersions(versions),
                                            MaybeParseSingleSemverWithoutLeadingV(min).0,
                                            MaybeParseSingleSemverWithoutLeadingV(max).0)
    ensures r.Ok? ==> Sorted(r.value)
  {
    var sorted := SortVersions(versions);
    TrimWindowSorted(sorted, MaybeParseSingleSemverWithoutLeadingV(min).0,
                     MaybeParseSingleSemverWithoutLeadingV(max).0);
    var minR := ParseSingleSemverWithoutLeadingV(min);
    if minR.Err? {
      return Err(minR.error);
    }
    var maxR := ParseSingleSemverWithoutLeadingV(max);
    if maxR.Err? {
      return Err(maxR.error);
    }
    var kept := TrimSorted(sorted, minR.value, maxR.value);
    r := Ok(kept);
  }

  lemma TrimWindowSkip(s: seq<Semver>, k: nat, minV: Semver, maxV: Semver)
    requires k < |s| && !LargerOrEqual(s[k], minV)
    ensures TrimWindow(s[k..], minV, maxV) == TrimWindow(s[k + 1..], minV, maxV)
  {
    assert s[k..][0] == s[k] && s[k..][1..] == s[k + 1..];
  }

  lemma TrimWindowStop(s: seq<Semver>, k: nat, minV: Semver, maxV: Semver)
    requires k < |s| && LargerOrEqual(s[k], minV) && LargerOrEqual(s[k], maxV)
    ensures TrimWindow(s[k..], minV, maxV) == []
  {
    assert s[k..][0] == s[k];
  }

  lemma TrimWindowKeep(s: seq<Semver>, k: nat, minV: Semver, maxV: Semver)
    requires k < |s| && LargerOrEqual(s[k], minV) && !LargerOrEqual(s[k], maxV)
    ensures TrimWindow(s[k..], minV, maxV) == [s[k]] + TrimWindow(s[k + 1..], minV, maxV)
  {
    assert s[k..][0] == s[k] && s[k..][1..] == s[k + 1..];
  }

  /** The loop of `sortSemverAndTrimToMinimum` (versions.go:140-155) over the sorted list. */
  method TrimSorted(sorted: seq<Semver>, minV: Semver, maxV: Semver) returns (kept: seq<Semver>)
    ensures kept == TrimWindow(sorted, minV, maxV)
  {
    var out := new Semver[|sorted|];
    var i, k := 0, 0;
    ghost var goal := TrimWindow(sorted, minV, maxV);
    assert sorted[0..] == sorted;
    while k < |sorted|
      invariant i <= k <= |sorted|
      invariant out[..i] + TrimWindow(sorted[k..], minV, maxV) == goal
    {
      var version := sorted[k];
      if !LargerOrEqual(version, minV) {
        TrimWindowSkip(sorted, k, minV, maxV);
        k := k + 1;
        continue;
      }
      if LargerOrEqual(version, maxV) {
        TrimWindowStop(sorted, k, minV, maxV);
        assert out[..i] + [] == out[..i];
        break;
      }
      TrimWindowKeep(sorted, k, minV, maxV);
      ghost var before := out[..i];
      out[i] := version;
      assert out[..i + 1] == before + [version];
      i := i + 1;
      k := k + 1;
    }
    assert out[..i] == goal;
    kept := out[..i];
  }

  // ---------------------------------------------------------------- printing

  /** `fmt.Sprintf("%d.%d.%d", ...)`. */
  function FormatSemver(v: Semver): (r: string)
    ensures NonNegative(v) ==> forall i :: 0 <= i < |r| ==> IsDigit(r[i]) || r[i] == '.'
  {
    IntToDecimal(v.major) + "." + IntToDecimal(v.minor) + "." + IntToDecimal(v.patch)
  }

  /** Printing a version with non-negative components and parsing it again without a leading
      `v` gives back the version. */
  lemma FormatThenParse(v: Semver)
    requires NonNegative(v)
    ensures MaybeParseSingleSemverWithoutLeadingV(FormatSemver(v)) == (v, true)
  {
    var a, b, c := NatToDecimal(v.major), NatToDecimal(v.minor), NatToDecimal(v.patch);
    MustParseIntOfPrinted(v.major);
    MustParseIntOfPrinted(v.minor);
    MustParseIntOfPrinted(v.patch);
    assert DottedShape(FormatSemver(v), a, b, c);
  }

  /** A negative component prints a `-`, which the parser refuses. */
  lemma FormatNegativeDoesNotParse(v: Semver)
    requires v.major < 0
    ensures !MaybeParseSingleSemverWithoutLeadingV(FormatSemver(v)).1
  {
    var s := FormatSemver(v);
    assert s[0] == '-';

  }

  /** `toStringList` (versions.go:182-188): one string per version, in order. */
  method ToStringList(versions: seq<Semver>) returns (out: seq<string>)
    ensures |out| == |versions|
    ensures forall j :: 0 <= j < |versions| ==> out[j] == FormatSemver(versions[j])
    ensures forall j :: 0 <= j < |versions| && NonNegative(versions[j]) ==>
              MaybeParseSingleSemverWithoutLeadingV(out[j]) == (versions[j], true)
  {
    ghost var printed := seq(|versions|, j requires 0 <= j < |versions| => FormatSemver(versions[j]));
    var a := new string[|versions|];
    for i := 0 to |versions|
      invariant a[..i] == printed[..i]
    {
      a[i] := FormatSemver(versions[i]);
      assert a[..i + 1] == a[..i] + [printed[i]];
    }
    out := a[..];
    assert out == a[..|versions|];
    FormattedParseBack(versions, out);
  }

  /** Each printed version parses back to itself when its parts are non-negative. */
  lemma FormattedParseBack(versions: seq<Semver>, out: seq<string>)
    requires |out| == |versions|
    requires forall j :: 0 <= j < |versions| ==> out[j] == FormatSemver(versions[j])
    ensures forall j :: 0 <= j < |versions| && NonNegative(versions[j]) ==>
              MaybeParseSingleSemverWithoutLeadingV(out[j]) == (versions[j], true)
  {
    forall j | 0 <= j < |versions| && NonNegative(versions[j])
      ensures MaybeParseSingleSemverWithoutLeadingV(out[j]) == (versions[j], true)
    {
      FormatThenParse(versions[j]);
    }
  }

  /** The versions an upgrade journey passes through before the target. */
  function VersionWindow(tags: seq<string>, minV: Semver, maxV: Semver): seq<Semver>
  {
    TrimWindow(SortVersions(ReleaseVersions(tags)), minV, maxV)
  }

  /** The list assembly of `buildVersionList` (versions.go:32-36). `ghReleases` is what the
      GitHub request returned and `max` the version the target's container reported. The
      result lists the window in ascending order, each version printed as `X.Y.Z` that
      parses back to itself within the bounds, and then `target`. */
  method BuildVersionList(ghReleases: seq<string>, min: string, target: string, max: string)
    returns (r: Result<seq<string>, string>)
    ensures r.Err? <==> !MaybeParseSingleSemverWithoutLeadingV(min).1
                        || !MaybeParseSingleSemverWithoutLeadingV(max).1
    ensures r.Ok? ==>
      var minV, maxV := MaybeParseSingleSemverWithoutLeadingV(min).0,
                        MaybeParseSingleSemverWithoutLeadingV(max).0;
      var w := VersionWindow(ghReleases, minV, maxV);
      && |r.value| == |w| + 1
      && r.value[|w|] == target
      && Sorted(w)
      && forall j :: 0 <= j < |w| ==>
           r.value[j] == FormatSemver(w[j])
           && MaybeParseSingleSemverWithoutLeadingV(r.value[j]) == (w[j], true)
           && LargerOrEqual(w[j], minV) && !LargerOrEqual(w[j], maxV)
  {
    var versions := ParseSemverList(ghReleases);
    var trimmed := SortSemverAndTrimToMinimum(versions, min, max);
    if trimmed.Err? {
      return Err(trimmed.error);
    }
    ghost var all := SortVersions(versions);
    forall j | 0 <= j < |trimmed.value|
      ensures NonNegative(trimmed.value[j])
    {
      assert trimmed.value[j] in all;
      assert trimmed.value[j] in multiset(all);
      assert trimmed.value[j] in multiset(versions);
    }
    var list := ToStringList(trimmed.value);
    r := Ok(list + [target]);
  }
}
