// Versions as they are written, read back: the parser against its inverse.

module VersionWriting {
  import opened Packages
  import opened Strings
  import opened VersionSpec
  import V = Version
  import P = VersionProperties

  // ---- parts between separators ----

  // The parts with separators between them.
  function Join(parts: seq<string>, c: char): string
    requires parts != []
  {
    if |parts| == 1 then parts[0] else parts[0] + [c] + Join(parts[1..], c)
  }

  lemma {:induction false} IndexOfFirst(front: string, c: char, rest: string)
    requires c !in front
    ensures IndexByte(front, c) == -1 && IndexByte(front + [c] + rest, c) == |front|
  {
    var s := front + [c] + rest;
    if front != "" {
      IndexOfFirst(front[1..], c, rest);
      assert s[1..] == front[1..] + [c] + rest;
    }
  }

  lemma SplitFirst(front: string, c: char, rest: string)
    requires c !in front
    ensures Split(front, c) == [front] && Split(front + [c] + rest, c) == [front] + Split(rest, c)
  {
    IndexOfFirst(front, c, rest);
    var s := front + [c] + rest;
    assert s[..|front|] == front && s[|front| + 1..] == rest;
  }

  // Parts without separators come back as they were.
  lemma {:induction false} SplitOfJoin(parts: seq<string>, c: char)
    requires parts != [] && forall i :: 0 <= i < |parts| ==> c !in parts[i]
    ensures Split(Join(parts, c), c) == parts
  {
    if |parts| == 1 {
      SplitFirst(parts[0], c, "");
    } else {
      SplitFirst(parts[0], c, Join(parts[1..], c));
      SplitOfJoin(parts[1..], c);
      assert [parts[0]] + parts[1..] == parts;
    }
  }

  lemma {:induction false} JoinAvoids(parts: seq<string>, c: char, d: char)
    requires parts != [] && c != d && forall i :: 0 <= i < |parts| ==> d !in parts[i]
    ensures d !in Join(parts, c)
  {
    if |parts| > 1 {
      JoinAvoids(parts[1..], c, d);
    }
  }

  // ---- numbers in decimal ----

  function DigitOf(d: nat): char
    requires d < 10
  {
    "0123456789"[d]
  }

  function Decimal(n: nat): string {
    if n < 10 then [DigitOf(n)] else Decimal(n / 10) + [DigitOf(n % 10)]
  }

  lemma DigitIsRead(d: nat)
    requires d < 10
    ensures IsDigit(DigitOf(d)) && DigitOf(d) as int - '0' as int == d
  {
  }

  // Digits are read by their place: a number written in decimal is read back.
  lemma {:induction false} DecimalIsRead(n: nat)
    ensures Decimal(n) != "" && AllDigits(Decimal(n)) && Digits(Decimal(n)) == n
  {
    var s := Decimal(n);
    DigitIsRead(n % 10);
    if n < 10 {
      assert s[..0] == "" && Digits(s) == Digits(s[..0]) * 10 + n;
    } else {
      DecimalIsRead(n / 10);
      assert s[..|s| - 1] == Decimal(n / 10);
    }
  }

  // And the only other digits read as that number have zeros before it.
  lemma {:induction false} LeadingZeros(s: string)
    requires AllDigits(s)
    ensures Digits("0" + s) == Digits(s)
  {
    var t := "0" + s;
    if s == "" {
      assert t[..0] == "" && Digits(t) == Digits(t[..0]) * 10;
    } else {
      assert t[..|t| - 1] == "0" + s[..|s| - 1];
      LeadingZeros(s[..|s| - 1]);
    }
  }

  lemma DecimalParses(n: nat)
    requires n <= MAX_INT64
    ensures ParseInt(Decimal(n)) == Some(n) && '.' !in Decimal(n) && '_' !in Decimal(n)
  {
    DecimalIsRead(n);
    assert IsDigit(Decimal(n)[0]);
  }

  function Numbers(segments: seq<nat>): (parts: seq<string>)
    ensures |parts| == |segments|
  {
    if segments == [] then []
    else Numbers(segments[..|segments| - 1]) + [Decimal(segments[|segments| - 1])]
  }

  // A version as it is written: numbers between dots, and a revision after an underscore.
  function Written(segments: seq<nat>, revision: Option<nat>): string
    requires segments != []
  {
    Revised(Join(Numbers(segments), '.'), revision)
  }

  function Revised(base: string, revision: Option<nat>): string {
    match revision
    case None => base
    case Some(n) => base + "_" + Decimal(n)
  }

  predicate InRange(segments: seq<nat>) {
    forall i :: 0 <= i < |segments| ==> segments[i] <= MAX_INT64
  }

  lemma {:induction false} NumbersParse(segments: seq<nat>)
    requires InRange(segments)
    ensures ParseAll(Numbers(segments)) == Some(segments)
  {
    if segments != [] {
      var front, last := segments[..|segments| - 1], segments[|segments| - 1];
      NumbersParse(front);
      DecimalParses(last);
      V.ParseAllNext(Numbers(front), Decimal(last));
      assert front + [last] == segments;
    }
  }

  lemma {:induction false} NumbersArePlain(segments: seq<nat>, i: nat)
    requires i < |segments| && InRange(segments)
    ensures Numbers(segments)[i] != "" && '.' !in Numbers(segments)[i] && '_' !in Numbers(segments)[i]
  {
    var last := |segments| - 1;
    DecimalIsRead(segments[last]);
    DecimalParses(segments[last]);
    if i < last {
      NumbersArePlain(segments[..last], i);
    }
  }

  lemma DottedIsRead(segments: seq<nat>)
    requires segments != [] && InRange(segments)
    ensures
      var base := Join(Numbers(segments), '.');
      base != "" && '_' !in base && ParseAll(Split(base, '.')) == Some(segments)
  {
    var parts := Numbers(segments);
    forall i | 0 <= i < |parts|
      ensures parts[i] != "" && '.' !in parts[i] && '_' !in parts[i]
    {
      NumbersArePlain(segments, i);
    }
    SplitOfJoin(parts, '.');
    JoinAvoids(parts, '.', '_');
    NumbersParse(segments);
    assert Split("", '.') == [""];
  }

  lemma Suffixed(base: string, revision: string)
    requires '_' !in base
    ensures Base(base) == base && Revision(base) == Some(0)
    ensures
      var version := base + "_" + revision;
      Base(version) == base && Revision(version) == ParseInt(revision)
  {
    IndexOfFirst(base, '_', revision);
    var version := base + ['_'] + revision;
    assert version[..|base|] == base && version[|base| + 1..] == revision;
  }

  lemma RevisedIsRead(base: string, revision: Option<nat>)
    requires '_' !in base && revision.GetOr(0) <= MAX_INT64
    ensures Base(Revised(base, revision)) == base && Revision(Revised(base, revision)) == Some(revision.GetOr(0))
  {
    match revision
    case None => Suffixed(base, "");
    case Some(n) =>
      DecimalParses(n);
      Suffixed(base, Decimal(n));
  }

  // Every version written so is read as its numbers, a missing revision as zero.
  lemma WrittenIsRead(segments: seq<nat>, revision: Option<nat>)
    requires segments != [] && InRange(segments) && revision.GetOr(0) <= MAX_INT64
    ensures ParseVersion(Written(segments, revision)) == Some(VersionSpec.Version(segments, revision.GetOr(0)))
  {
    DottedIsRead(segments);
    RevisedIsRead(Join(Numbers(segments), '.'), revision);
  }

  // So the distance of two written versions is that of their numbers.
  lemma WrittenDistance(a: seq<nat>, b: seq<nat>, m: Option<nat>, n: Option<nat>)
    requires a != [] && b != [] && InRange(a) && InRange(b) && m.GetOr(0) <= MAX_INT64 && n.GetOr(0) <= MAX_INT64
    ensures
      var d := VersionDistance(Written(a, m), Written(b, n));
      && (d == Major <==> a[0] != b[0])
      && (Rank(d) <= Rank(Patch) <==> a[0] == b[0] && SegmentAt(a, 1) == SegmentAt(b, 1))
      && (d == NoDistance <==> (forall i: nat :: SegmentAt(a, i) == SegmentAt(b, i)) && m.GetOr(0) == n.GetOr(0))
      && d != Unknown
  {
    var v, w := Written(a, m), Written(b, n);
    WrittenIsRead(a, m);
    WrittenIsRead(b, n);
    P.DistanceMeans(v, w);
    assert forall i: nat :: P.Segment(v, i) == SegmentAt(a, i) && P.Segment(w, i) == SegmentAt(b, i);
  }
}
