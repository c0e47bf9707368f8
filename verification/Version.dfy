// Version distance and the highlighted part of a bump (internal/brew/version.go),
// and the outdated mark that rests on them (internal/ui/settings.go and
// internal/ui/model.go). A string stands for its bytes.

module Strings {
  // The first position of `c`, or -1.
  function IndexByte(s: string, c: char): (i: int)
    ensures -1 <= i < |s|
    ensures i >= 0 ==> s[i] == c
  {
    if s == [] then -1
    else if s[0] == c then 0
    else if IndexByte(s[1..], c) < 0 then -1 else IndexByte(s[1..], c) + 1
  }

  lemma {:induction false} IndexByteIsFirst(s: string, c: char)
    ensures var i := IndexByte(s, c); if i < 0 then c !in s else c !in s[..i]
  {
    if s != [] && s[0] != c {
      IndexByteIsFirst(s[1..], c);
      var i := IndexByte(s[1..], c);
      if i >= 0 {
        assert s[..i + 1] == [s[0]] + s[1..][..i];
      }
    }
  }

  // The parts of `s` between occurrences of `c`; there is always one.
  function Split(s: string, c: char): (parts: seq<string>)
    ensures |parts| >= 1
    decreases |s|
  {
    var i := IndexByte(s, c);
    if i < 0 then [s] else [s[..i]] + Split(s[i + 1..], c)
  }

  // Where the k-th part starts: after k parts, each with its separator.
  function StartOf(parts: seq<string>, k: nat): nat
    requires k <= |parts|
  {
    if k == 0 then 0 else StartOf(parts, k - 1) + |parts[k - 1]| + 1
  }

  lemma {:induction false} StartBehind(first: string, parts: seq<string>, k: nat)
    requires k <= |parts|
    ensures StartOf([first] + parts, k + 1) == |first| + 1 + StartOf(parts, k)
  {
    if k > 0 {
      StartBehind(first, parts, k - 1);
    }
  }

  // What lies from the start of the k-th part on.
  lemma {:induction false} SuffixOfParts(s: string, c: char, k: nat)
    requires k < |Split(s, c)|
    ensures
      var start := StartOf(Split(s, c), k);
      && start <= |s| && Split(s[start..], c) == Split(s, c)[k..]
      && (k > 0 ==> start > 0 && s[start - 1] == c)
    decreases k
  {
    if k == 0 {
      assert s[0..] == s;
    } else {
      var i := IndexByte(s, c);
      var rest := s[i + 1..];
      StartBehind(s[..i], Split(rest, c), k - 1);
      SuffixOfParts(rest, c, k - 1);
      SuffixOfRest(s, i + 1, StartOf(Split(rest, c), k - 1));
    }
  }

  lemma SuffixOfRest(s: string, from: nat, start: nat)
    requires from + start <= |s|
    ensures s[from..][start..] == s[from + start..]
    ensures start > 0 ==> s[from..][start - 1] == s[from + start - 1]
  {
  }

  // The first part ends at the first separator, or with the string.
  lemma FirstPart(s: string, c: char)
    ensures
      var first, i := Split(s, c)[0], IndexByte(s, c);
      && first <= s && c !in first
      && (if i < 0 then Split(s, c) == [s] else |first| == i && |Split(s, c)| > 1)
  {
    IndexByteIsFirst(s, c);
  }

  // A part is read back at its start.
  lemma PartAtStart(s: string, c: char, k: nat)
    requires k < |Split(s, c)|
    ensures
      var start, part := StartOf(Split(s, c), k), Split(s, c)[k];
      && start + |part| <= |s| && s[start..start + |part|] == part && c !in part
      && (k > 0 ==> start > 0 && s[start - 1] == c)
  {
    SuffixOfParts(s, c, k);
    FirstPart(s[StartOf(Split(s, c), k)..], c);
  }

  // From the start of a part, the next separator ends it.
  lemma NextStart(s: string, c: char, k: nat)
    requires k < |Split(s, c)|
    ensures StartOf(Split(s, c), k) <= |s|
    ensures
      var start := StartOf(Split(s, c), k);
      var next := IndexByte(s[start..], c);
      if k + 1 < |Split(s, c)| then next >= 0 && StartOf(Split(s, c), k + 1) == start + next + 1 else next < 0
  {
    SuffixOfParts(s, c, k);
    FirstPart(s[StartOf(Split(s, c), k)..], c);
  }
}

module VersionSpec {
  import opened Packages
  import opened Strings

  const MAX_INT64 := 0x7FFF_FFFF_FFFF_FFFF

  predicate IsDigit(c: char) {
    '0' <= c <= '9'
  }

  predicate AllDigits(s: string) {
    forall i :: 0 <= i < |s| ==> IsDigit(s[i])
  }

  function Digits(s: string): nat
    requires AllDigits(s)
  {
    if s == [] then 0
    else
      assert IsDigit(s[|s| - 1]);
      Digits(s[..|s| - 1]) * 10 + (s[|s| - 1] as int - '0' as int)
  }

  // strconv.ParseInt in base 10 and 64 bits: a sign is accepted, and a number out of
  // range is refused.
  function ParseInt(s: string): Option<int> {
    var negative := s != [] && s[0] == '-';
    var body := if s != [] && (s[0] == '+' || s[0] == '-') then s[1..] else s;
    if body == [] || !AllDigits(body) then None
    else
      var magnitude: int := Digits(body);
      var value := if negative then -magnitude else magnitude;
      if -MAX_INT64 - 1 <= value <= MAX_INT64 then Some(value) else None
  }

  datatype Version = Version(segments: seq<int>, revision: int)

  function Base(version: string): string {
    if IndexByte(version, '_') >= 0 then version[..IndexByte(version, '_')] else version
  }

  function Revision(version: string): Option<int> {
    if IndexByte(version, '_') >= 0 then ParseInt(version[IndexByte(version, '_') + 1..]) else Some(0)
  }

  function ParseAll(parts: seq<string>): (r: Option<seq<int>>)
    ensures r.Some? ==> |r.value| == |parts|
  {
    if parts == [] then Some([])
    else
      var last := |parts| - 1;
      var first := ParseAll(parts[..last]);
      if first.None? || ParseInt(parts[last]).None? then None else Some(first.value + [ParseInt(parts[last]).value])
  }

  lemma {:induction false} ParseAllReads(parts: seq<string>, i: nat)
    requires ParseAll(parts).Some? && i < |parts|
    ensures ParseInt(parts[i]) == Some(ParseAll(parts).value[i])
  {
    var last := |parts| - 1;
    if i < last {
      ParseAllReads(parts[..last], i);
    }
  }

  lemma {:induction false} ParseAllNeeds(parts: seq<string>, i: nat)
    requires i < |parts| && ParseInt(parts[i]).None?
    ensures ParseAll(parts).None?
  {
    var last := |parts| - 1;
    if i < last {
      ParseAllNeeds(parts[..last], i);
    }
  }

  function ParseVersion(version: string): Option<Version> {
    var revision := Revision(version);
    var segments := ParseAll(Split(Base(version), '.'));
    if revision.None? || Base(version) == "" || segments.None? then None
    else Some(Version(segments.value, revision.value))
  }

  function SegmentAt(segments: seq<int>, i: nat): int {
    if i < |segments| then segments[i] else 0
  }

  datatype Distance = NoDistance | Patch | Minor | Major | Unknown

  function Rank(d: Distance): nat {
    match d
    case NoDistance => 0
    case Patch => 1
    case Minor => 2
    case Major => 3
    case Unknown => 4
  }

  function Longest(a: seq<int>, b: seq<int>): nat {
    if |a| < |b| then |b| else |a|
  }

  // The first segment in which two versions differ.
  function Difference(a: seq<int>, b: seq<int>, from: nat): Option<nat>
    decreases Longest(a, b) - from
  {
    if from >= Longest(a, b) then None
    else if SegmentAt(a, from) != SegmentAt(b, from) then Some(from)
    else Difference(a, b, from + 1)
  }

  function ClassOf(i: nat): Distance {
    if i == 0 then Major else if i == 1 then Minor else Patch
  }

  function VersionDistance(installed: string, latest: string): Distance {
    var a, b := ParseVersion(installed), ParseVersion(latest);
    if a.None? || b.None? then Unknown
    else
      var at := Difference(a.value.segments, b.value.segments, 0);
      if at.Some? then ClassOf(at.value)
      else if a.value.revision != b.value.revision then Patch else NoDistance
  }

  // Where the highlight starts, or -1 for none.
  function BumpOffset(installed: string, latest: string): int {
    var a, b := ParseVersion(installed), ParseVersion(latest);
    if a.None? || b.None? then -1
    else
      var at := Difference(a.value.segments, b.value.segments, 0);
      if at.None? then (if a.value.revision != b.value.revision then IndexByte(latest, '_') else -1)
      else if at.value >= |Split(Base(latest), '.')| then -1
      else StartOf(Split(Base(latest), '.'), at.value)
  }
}

module Version {
  import opened Packages
  import opened Strings
  import opened VersionSpec

  method ParseVersion(version: string) returns (segments: seq<int>, revision: int, ok: bool)
    ensures ok <==> VersionSpec.ParseVersion(version).Some?
    ensures ok ==> VersionSpec.ParseVersion(version) == Some(VersionSpec.Version(segments, revision))
  {
    segments, revision, ok := [], 0, false;
    var base := version;
    var i := IndexByte(version, '_');
    if i >= 0 {
      base := version[..i];
      var parsed := ParseInt(version[i + 1..]);
      if parsed.None? {
        return [], 0, false;
      }
      revision := parsed.value;
    }
    assert base == Base(version) && Revision(version) == Some(revision);
    if base == "" {
      return [], 0, false;
    }
    segments, ok := ParseSegments(Split(base, '.'));
  }

  method ParseSegments(parts: seq<string>) returns (segments: seq<int>, ok: bool)
    ensures ok <==> ParseAll(parts).Some?
    ensures ok ==> ParseAll(parts) == Some(segments)
  {
    segments := [];
    for n := 0 to |parts|
      invariant ParseAll(parts[..n]) == Some(segments)
    {
      ParseAllNext(parts[..n], parts[n]);
      assert parts[..n] + [parts[n]] == parts[..n + 1];
      var parsed := ParseInt(parts[n]);
      if parsed.None? {
        ParseAllNeeds(parts, n);
        return [], false;
      }
      segments := segments + [parsed.value];
    }
    assert parts[..|parts|] == parts;
    ok := true;
  }

  lemma ParseAllNext(parts: seq<string>, part: string)
    ensures
      ParseAll(parts + [part])
      == if ParseAll(parts).None? || ParseInt(part).None? then None else Some(ParseAll(parts).value + [ParseInt(part).value])
  {
    assert (parts + [part])[..|parts|] == parts;
  }

  method VersionDistance(installed: string, latest: string) returns (d: Distance)
    ensures d == VersionSpec.VersionDistance(installed, latest)
  {
    var a, aRevision, aOk := ParseVersion(installed);
    if !aOk {
      return Unknown;
    }
    var b, bRevision, bOk := ParseVersion(latest);
    if !bOk {
      return Unknown;
    }
    for i := 0 to Longest(a, b)
      invariant Difference(a, b, 0) == Difference(a, b, i)
    {
      if SegmentAt(a, i) == SegmentAt(b, i) {
        continue;
      }
      if i == 0 {
        return Major;
      } else if i == 1 {
        return Minor;
      }
      return Patch;
    }
    if aRevision != bRevision {
      return Patch;
    }
    return NoDistance;
  }

  method FindDifference(a: seq<int>, b: seq<int>) returns (difference: int)
    ensures difference == if Difference(a, b, 0).Some? then Difference(a, b, 0).value else -1
  {
    difference := -1;
    for i := 0 to Longest(a, b)
      invariant difference == -1 && Difference(a, b, 0) == Difference(a, b, i)
    {
      if SegmentAt(a, i) != SegmentAt(b, i) {
        difference := i;
        break;
      }
    }
  }

  method BumpOffset(installed: string, latest: string) returns (offset: int)
    ensures offset == VersionSpec.BumpOffset(installed, latest)
  {
    var a, aRevision, aOk := ParseVersion(installed);
    if !aOk {
      return -1;
    }
    var b, bRevision, bOk := ParseVersion(latest);
    if !bOk {
      return -1;
    }
    var difference := FindDifference(a, b);
    if difference < 0 {
      if aRevision != bRevision {
        var i := IndexByte(latest, '_');
        if i >= 0 {
          return i;
        }
      }
      return -1;
    }
    if difference >= |b| {
      return -1;
    }
    offset := Walk(latest, difference);
  }

  // The walk to a segment of the base, one dot at a time.
  method Walk(latest: string, difference: nat) returns (offset: int)
    ensures offset == if difference < |Split(Base(latest), '.')| then StartOf(Split(Base(latest), '.'), difference) else -1
  {
    var base := latest;
    var i := IndexByte(latest, '_');
    if i >= 0 {
      base := latest[..i];
    }
    assert base == Base(latest);
    offset := 0;
    for n := 0 to difference
      invariant n < |Split(base, '.')| && offset == StartOf(Split(base, '.'), n)
    {
      NextStart(base, '.', n);
      var next := IndexByte(base[offset..], '.');
      if next < 0 {
        return -1;
      }
      offset := offset + next + 1;
    }
  }
}

module VersionProperties {
  import opened Packages
  import opened Strings
  import opened VersionSpec

  predicate Readable(version: string) {
    ParseVersion(version).Some?
  }

  function Segment(version: string, i: nat): int
    requires Readable(version)
  {
    SegmentAt(ParseVersion(version).value.segments, i)
  }

  function RevisionOf(version: string): int
    requires Readable(version)
  {
    ParseVersion(version).value.revision
  }

  // ---- what can be read ----

  // The comments promise that only plain digits are read. A leading sign is too, and
  // nothing else: a piece that is not plain digits is read exactly when it is a sign
  // before a number in range.
  lemma SignsAreRead(piece: string)
    requires !AllDigits(piece)
    ensures
      ParseInt(piece).Some? <==>
        && (piece[0] == '+' || piece[0] == '-') && piece[1..] != "" && AllDigits(piece[1..])
        && Digits(piece[1..]) <= MAX_INT64 + (if piece[0] == '-' then 1 else 0)
  {
    if !(piece[0] == '+' || piece[0] == '-') {
      assert ParseInt(piece).None?;
    }
  }

  lemma OnePiece(s: string)
    requires '_' !in s && '.' !in s && ParseInt(s).Some?
    ensures ParseVersion(s) == Some(Version([ParseInt(s).value], 0))
  {
    assert Split(s, '.') == [s];
    assert [s][..0] == [] && ParseAll([]) == Some([]);
    assert ParseAll([s]).Some? && ParseAll([s]).value == [ParseInt(s).value];
  }

  lemma OneIsOne()
    ensures ParseInt("+1") == Some(1) && ParseInt("1") == Some(1)
  {
    var one := "1";
    assert one[..0] == "" && Digits(one) == 1;
    assert "+1"[1..] == one;
  }

  // So "+1" is no distance from "1".
  lemma ASignedVersion()
    ensures VersionDistance("+1", "1") == NoDistance
  {
    OneIsOne();
    OnePiece("+1");
    OnePiece("1");
    DistanceMeans("+1", "1");
  }

  // ---- distance ----

  lemma {:induction false} DifferenceIsFirst(a: seq<int>, b: seq<int>, from: nat)
    ensures
      var at := Difference(a, b, from);
      if at.Some?
      then from <= at.value < Longest(a, b) && SegmentAt(a, at.value) != SegmentAt(b, at.value)
           && forall i :: from <= i < at.value ==> SegmentAt(a, i) == SegmentAt(b, i)
      else forall i :: from <= i ==> SegmentAt(a, i) == SegmentAt(b, i)
    decreases Longest(a, b) - from
  {
    if from < Longest(a, b) && SegmentAt(a, from) == SegmentAt(b, from) {
      DifferenceIsFirst(a, b, from + 1);
    }
  }

  ghost predicate SameNumbers(a: string, b: string)
    requires Readable(a) && Readable(b)
  {
    (forall i: nat :: Segment(a, i) == Segment(b, i)) && RevisionOf(a) == RevisionOf(b)
  }

  // What each class means: missing segments count as zero, so "1.2" is "1.2.0".
  lemma DistanceMeans(a: string, b: string)
    ensures VersionDistance(a, b) == Unknown <==> !Readable(a) || !Readable(b)
    ensures Readable(a) && Readable(b) ==>
              var d := VersionDistance(a, b);
              && (d == Major <==> Segment(a, 0) != Segment(b, 0))
              && (Rank(d) <= Rank(Patch) <==> Segment(a, 0) == Segment(b, 0) && Segment(a, 1) == Segment(b, 1))
              && (d == NoDistance <==> SameNumbers(a, b))
  {
    if Readable(a) && Readable(b) {
      var x, y := ParseVersion(a).value.segments, ParseVersion(b).value.segments;
      DifferenceIsFirst(x, y, 0);
      assert Segment(a, 0) == SegmentAt(x, 0) && Segment(b, 0) == SegmentAt(y, 0);
      var at := Difference(x, y, 0);
      if at.Some? {
        assert Segment(a, at.value) != Segment(b, at.value);
      }
    }
  }

  lemma DistanceSymmetric(a: string, b: string)
    ensures VersionDistance(a, b) == VersionDistance(b, a)
  {
    DistanceMeans(a, b);
    DistanceMeans(b, a);
  }

  // A version is at no distance from itself, or unreadable.
  lemma DistanceReflexive(a: string)
    ensures VersionDistance(a, a) == if Readable(a) then NoDistance else Unknown
  {
    DistanceMeans(a, a);
  }

  // The strong triangle inequality, for all strings.
  lemma DistanceUltrametric(a: string, b: string, c: string)
    ensures
      var ab, bc := Rank(VersionDistance(a, b)), Rank(VersionDistance(b, c));
      Rank(VersionDistance(a, c)) <= if ab < bc then bc else ab
  {
    DistanceMeans(a, b);
    DistanceMeans(b, c);
    DistanceMeans(a, c);
  }

  // ---- the highlight ----

  // The highlighted part is a whole segment: it is in bounds, begins the string or
  // follows a dot, reads as a number other than the installed one, and every earlier
  // segment is equal; or it is the revision, with all segments equal.
  lemma BumpOffsetMeans(installed: string, latest: string)
    ensures
      var offset := BumpOffset(installed, latest);
      offset >= 0 ==>
        && Readable(installed) && Readable(latest) && offset < |latest|
        && if latest[offset] == '_'
           then RevisionOf(installed) != RevisionOf(latest)
                && forall i: nat :: Segment(installed, i) == Segment(latest, i)
           else exists k: nat :: HighlightAt(installed, latest, offset, k)
  {
    var offset := BumpOffset(installed, latest);
    if offset >= 0 {
      var a, b := ParseVersion(installed).value, ParseVersion(latest).value;
      DifferenceIsFirst(a.segments, b.segments, 0);
      var at := Difference(a.segments, b.segments, 0);
      if at.Some? {
        SegmentStart(latest, at.value);
        assert HighlightAt(installed, latest, offset, at.value);
      } else {
        assert forall i: nat :: Segment(installed, i) == SegmentAt(a.segments, i);
      }
    }
  }

  // The k-th segment is the first to differ and starts at `offset` of `latest`.
  ghost predicate HighlightAt(installed: string, latest: string, offset: nat, k: nat)
    requires Readable(installed) && Readable(latest)
  {
    && k < |Split(Base(latest), '.')|
    && Segment(installed, k) != Segment(latest, k)
    && (forall i: nat :: i < k ==> Segment(installed, i) == Segment(latest, i))
    && StartsSegment(latest, offset, k)
  }

  // The k-th segment of `latest` is written at `offset`: its text is the k-th part, its
  // number the k-th number, and k parts, each ended by a dot, come before it.
  ghost predicate StartsSegment(latest: string, offset: nat, k: nat)
    requires Readable(latest) && k < |Split(Base(latest), '.')|
  {
    var part := Split(Base(latest), '.')[k];
    && offset == StartOf(Split(Base(latest), '.'), k)
    && part != "" && offset + |part| <= |latest| && latest[offset..offset + |part|] == part
    && ParseInt(part) == Some(Segment(latest, k))
    && (k > 0 ==> offset > 0 && latest[offset - 1] == '.')
    && '_' !in part
  }

  lemma SegmentIsPart(version: string, k: nat)
    requires Readable(version) && k < |Split(Base(version), '.')|
    ensures
      var part := Split(Base(version), '.')[k];
      part != "" && ParseInt(part) == Some(Segment(version, k))
  {
    ParseAllReads(Split(Base(version), '.'), k);
  }

  // A piece of a prefix without underscores is the same piece of the whole.
  lemma PieceOfPrefix(whole: string, prefix: string, start: nat, part: string, k: nat)
    requires prefix <= whole && '_' !in prefix && part != ""
    requires start + |part| <= |prefix| && prefix[start..start + |part|] == part
    requires k > 0 ==> start > 0 && prefix[start - 1] == '.'
    ensures start + |part| <= |whole| && whole[start..start + |part|] == part
    ensures '_' !in part && whole[start] != '_' && (k > 0 ==> whole[start - 1] == '.')
  {
    forall i | 0 <= i < |part|
      ensures part[i] == prefix[start + i] == whole[start + i] && part[i] != '_'
    {
      assert prefix[start + i] in prefix;
    }
  }

  lemma BaseIsPrefix(version: string)
    ensures Base(version) <= version && '_' !in Base(version)
  {
    IndexByteIsFirst(version, '_');
  }

  // Where a part of the base that is not empty lies in the whole version.
  lemma PartLies(version: string, k: nat)
    requires k < |Split(Base(version), '.')| && Split(Base(version), '.')[k] != ""
    ensures
      var start, part := StartOf(Split(Base(version), '.'), k), Split(Base(version), '.')[k];
      && start + |part| <= |version| && version[start..start + |part|] == part
      && '_' !in part && version[start] != '_' && (k > 0 ==> start > 0 && version[start - 1] == '.')
  {
    var parts := Split(Base(version), '.');
    BaseIsPrefix(version);
    PartAtStart(Base(version), '.', k);
    PieceOfPrefix(version, Base(version), StartOf(parts, k), parts[k], k);
  }

  lemma SegmentStart(latest: string, k: nat)
    requires Readable(latest) && k < |Split(Base(latest), '.')|
    ensures
      var start := StartOf(Split(Base(latest), '.'), k);
      start < |latest| && StartsSegment(latest, start, k) && latest[start] != '_'
  {
    SegmentIsPart(latest, k);
    PartLies(latest, k);
  }

  // There is a highlight exactly when both versions can be read and either the first
  // differing segment is written in `latest`, or only the revision differs and
  // `latest` writes one.
  lemma BumpOffsetExists(installed: string, latest: string)
    ensures
      BumpOffset(installed, latest) >= 0
      <==> Readable(installed) && Readable(latest)
           && ((exists k: nat :: k < |Split(Base(latest), '.')| && DiffersFirstAt(installed, latest, k))
               || (SameSegments(installed, latest) && RevisionOf(installed) != RevisionOf(latest) && '_' in latest))
  {
    IndexByteIsFirst(latest, '_');
    if Readable(installed) && Readable(latest) {
      var a, b := ParseVersion(installed).value.segments, ParseVersion(latest).value.segments;
      DifferenceIsFirst(a, b, 0);
      assert forall i: nat :: Segment(installed, i) == SegmentAt(a, i) && Segment(latest, i) == SegmentAt(b, i);
      var at := Difference(a, b, 0);
      if at.Some? {
        assert DiffersFirstAt(installed, latest, at.value);
        assert Segment(installed, at.value) != Segment(latest, at.value);
      }
    }
  }

  ghost predicate DiffersFirstAt(installed: string, latest: string, k: nat)
    requires Readable(installed) && Readable(latest)
  {
    Segment(installed, k) != Segment(latest, k) && forall i: nat :: i < k ==> Segment(installed, i) == Segment(latest, i)
  }

  ghost predicate SameSegments(installed: string, latest: string)
    requires Readable(installed) && Readable(latest)
  {
    forall i: nat :: Segment(installed, i) == Segment(latest, i)
  }

  // A highlight is only ever put on a real, readable difference.
  lemma BumpIsADifference(installed: string, latest: string)
    requires BumpOffset(installed, latest) >= 0
    ensures VersionDistance(installed, latest) != NoDistance && VersionDistance(installed, latest) != Unknown
  {
    BumpOffsetMeans(installed, latest);
    DistanceMeans(installed, latest);
  }
}

// The outdated mark: which rows get it, under each threshold.
module Outdated {
  import opened Packages
  import opened VersionSpec
  import V = Version
  import P = VersionProperties

  datatype Threshold = AnyThreshold | MinorThreshold | MajorThreshold

  // One row of Homebrew's verdict.
  datatype Verdict = Verdict(name: string, installed: string, latest: string)

  predicate Allows(t: Threshold, d: Distance) {
    match t
    case MajorThreshold => Rank(d) >= Rank(Major)
    case MinorThreshold => Rank(d) >= Rank(Minor)
    case AnyThreshold => true
  }

  // The last verdict to name a package.
  function VerdictFor(outdated: seq<Verdict>, name: string): Option<Verdict> {
    if outdated == [] then None
    else if outdated[|outdated| - 1].name == name then Some(outdated[|outdated| - 1])
    else VerdictFor(outdated[..|outdated| - 1], name)
  }

  // A distance of versions. The loops that mark rows need not know which.
  type Scale = (string, string) -> Distance

  // A row its verdict names: the versions ride along even when the threshold
  // suppresses the mark, and no mark is ever taken away.
  function Judged(p: Package, verdict: Verdict, t: Threshold, distance: Scale): Package {
    p.(latestVersion := verdict.latest,
       version := if p.version == "" then verdict.installed else p.version,
       outdated := p.outdated || Allows(t, distance(verdict.installed, verdict.latest)))
  }

  function Marked(p: Package, outdated: seq<Verdict>, known: bool, t: Threshold): Package {
    var stamped := p.(outdatedKnown := known);
    var verdict := VerdictFor(outdated, p.name);
    if verdict.None? then stamped else Judged(stamped, verdict.value, t, VersionDistance)
  }

  // Every row is marked on its own, in its place.
  method MarkOutdated(packages: array<Package>, outdated: seq<Verdict>, known: bool, t: Threshold)
    modifies packages
    ensures forall i :: 0 <= i < packages.Length ==> packages[i] == Marked(old(packages[i]), outdated, known, t)
  {
    ghost var rows := packages[..];
    Stamp(packages, known);
    if |outdated| == 0 {
      return;
    }
    var byName := ByName(outdated);
    MarkNamed(packages, byName, t, VersionDistance);
    forall i | 0 <= i < |rows|
      ensures packages[i] == Marked(rows[i], outdated, known, t)
    {
      NamedIsMarked(rows[i], byName, outdated, known, t);
    }
  }

  function Named(p: Package, byName: map<string, Verdict>, t: Threshold, distance: Scale): Package {
    if p.name in byName then Judged(p, byName[p.name], t, distance) else p
  }

  lemma NamedIsMarked(p: Package, byName: map<string, Verdict>, outdated: seq<Verdict>, known: bool, t: Threshold)
    requires Names(byName, outdated)
    ensures Named(p.(outdatedKnown := known), byName, t, VersionDistance) == Marked(p, outdated, known, t)
  {
  }

  ghost predicate MeasuresVersions(distance: Scale) {
    forall a, b {:trigger VersionDistance(a, b)} :: distance(a, b) == VersionDistance(a, b)
  }

  // The second loop. What it needs of the distance is only that it is that of versions.
  method MarkNamed(packages: array<Package>, byName: map<string, Verdict>, t: Threshold, distance: Scale)
    requires MeasuresVersions(distance)
    modifies packages
    ensures forall i :: 0 <= i < packages.Length ==> packages[i] == Named(old(packages[i]), byName, t, distance)
  {
    for i := 0 to packages.Length
      invariant forall j :: 0 <= j < i ==> packages[j] == Named(old(packages[j]), byName, t, distance)
      invariant forall j :: i <= j < packages.Length ==> packages[j] == old(packages[j])
    {
      packages[i] := MarkRow(packages[i], byName, t, distance);
    }
  }

  // The first loop: every row records whether a verdict was obtained.
  method Stamp(packages: array<Package>, known: bool)
    modifies packages
    ensures forall i :: 0 <= i < packages.Length ==> packages[i] == old(packages[i]).(outdatedKnown := known)
  {
    for i := 0 to packages.Length
      invariant forall j :: 0 <= j < i ==> packages[j] == old(packages[j]).(outdatedKnown := known)
      invariant forall j :: i <= j < packages.Length ==> packages[j] == old(packages[j])
    {
      packages[i] := packages[i].(outdatedKnown := known);
    }
  }

  // The body of the loop: one row against the verdicts by name.
  method MarkRow(p: Package, byName: map<string, Verdict>, t: Threshold, distance: Scale) returns (row: Package)
    requires MeasuresVersions(distance)
    ensures row == Named(p, byName, t, distance)
  {
    row := p;
    if row.name in byName {
      var verdict := byName[row.name];
      row := row.(latestVersion := verdict.latest);
      if row.version == "" {
        row := row.(version := verdict.installed);
      }
      var d := V.VersionDistance(verdict.installed, verdict.latest);
      if Allows(t, d) {
        row := row.(outdated := true);
      }
    }
  }

  ghost predicate Names(byName: map<string, Verdict>, outdated: seq<Verdict>) {
    forall name ::
      if name in byName then VerdictFor(outdated, name) == Some(byName[name]) else VerdictFor(outdated, name).None?
  }

  method ByName(outdated: seq<Verdict>) returns (byName: map<string, Verdict>)
    ensures Names(byName, outdated)
  {
    byName := map[];
    for n := 0 to |outdated|
      invariant Names(byName, outdated[..n])
    {
      assert outdated[..n + 1][..n] == outdated[..n];
      byName := byName[outdated[n].name := outdated[n]];
    }
    assert outdated[..|outdated|] == outdated;
  }

  // The verdict that names a package and that no later one overrides.
  ghost predicate LastFor(outdated: seq<Verdict>, name: string, i: nat) {
    i < |outdated| && outdated[i].name == name && forall j :: i < j < |outdated| ==> outdated[j].name != name
  }

  lemma {:induction false} LastVerdict(outdated: seq<Verdict>, name: string)
    ensures
      var verdict := VerdictFor(outdated, name);
      if verdict.None? then forall i :: 0 <= i < |outdated| ==> outdated[i].name != name
      else exists i: nat :: LastFor(outdated, name, i) && outdated[i] == verdict.value
  {
    if outdated != [] {
      var last := |outdated| - 1;
      if outdated[last].name == name {
        assert LastFor(outdated, name, last);
      } else {
        LastVerdict(outdated[..last], name);
        if i: nat :| LastFor(outdated[..last], name, i) {
          assert LastFor(outdated, name, i) && outdated[i] == outdated[..last][i];
        }
        assert forall i :: 0 <= i < last ==> outdated[i] == outdated[..last][i];
      }
    }
  }

  // What marking writes into a row: whether a verdict was obtained, the latest version
  // it names, and the installed one where the row had none; a mark only ever comes.
  lemma MarkWrites(p: Package, outdated: seq<Verdict>, known: bool, t: Threshold)
    ensures
      var row, verdict := Marked(p, outdated, known, t), VerdictFor(outdated, p.name);
      && (row.name, row.kind, row.dependency, row.pinned, row.untrusted, row.fullName, row.tap)
         == (p.name, p.kind, p.dependency, p.pinned, p.untrusted, p.fullName, p.tap)
      && row.outdatedKnown == known && (p.outdated ==> row.outdated) && (p.version != "" ==> row.version == p.version)
      && (if verdict.None? then row.latestVersion == p.latestVersion && row.version == p.version && row.outdated == p.outdated
          else row.latestVersion == verdict.value.latest && (p.version == "" ==> row.version == verdict.value.installed))
  {
  }

  // A stricter threshold marks fewer rows, never others.
  lemma ThresholdsNest(p: Package, outdated: seq<Verdict>, known: bool)
    ensures Marked(p, outdated, known, MajorThreshold).outdated ==> Marked(p, outdated, known, MinorThreshold).outdated
    ensures Marked(p, outdated, known, MinorThreshold).outdated ==> Marked(p, outdated, known, AnyThreshold).outdated
  {
  }

  lemma AllowsRank(t: Threshold, d: Distance, readable: bool, same0: bool, same1: bool)
    requires d == Unknown <==> !readable
    requires readable ==> (d == Major <==> !same0) && (Rank(d) <= Rank(Patch) <==> same0 && same1)
    ensures Allows(t, d) <==> t.AnyThreshold? || !readable || !same0 || (t.MinorThreshold? && !same1)
  {
  }

  // What a threshold asks of a verdict: any, nothing; minor and major, a version that
  // cannot be read, or a change in the first two segments or the first.
  lemma MarkMeans(p: Package, verdict: Verdict, t: Threshold)
    requires !p.outdated
    ensures
      Judged(p, verdict, t, VersionDistance).outdated <==>
        || t.AnyThreshold?
        || !P.Readable(verdict.installed) || !P.Readable(verdict.latest)
        || P.Segment(verdict.installed, 0) != P.Segment(verdict.latest, 0)
        || (t.MinorThreshold? && P.Segment(verdict.installed, 1) != P.Segment(verdict.latest, 1))
  {
    var a, b := verdict.installed, verdict.latest;
    var readable := P.Readable(a) && P.Readable(b);
    P.DistanceMeans(a, b);
    AllowsRank(t, VersionDistance(a, b), readable,
               readable && P.Segment(a, 0) == P.Segment(b, 0), readable && P.Segment(a, 1) == P.Segment(b, 1));
  }
}
