// What a search finds: the rows on show, said of their own words.

module ListingSearch {
  import opened Packages
  import opened Words
  import opened QuerySpec
  import opened ListingSpec
  import LP = ListingProperties

  // `part` is written in `s` from `i` on, whatever the case of its letters.
  predicate WrittenAt(s: string, part: string, i: nat) {
    i + |part| <= |s| && forall k :: 0 <= k < |part| ==> LowerChar(s[i + k]) == LowerChar(part[k])
  }

  ghost predicate IsWritten(s: string, part: string) {
    exists i: nat :: WrittenAt(s, part, i)
  }

  lemma OccursMeans(s: string, part: string, i: nat)
    ensures OccursAt(Lower(s), Lower(part), i) <==> WrittenAt(s, part, i)
  {
    if i + |part| <= |s| {
      var piece := Lower(s)[i..i + |part|];
      assert forall k :: 0 <= k < |part| ==> piece[k] == LowerChar(s[i + k]) && Lower(part)[k] == LowerChar(part[k]);
      if WrittenAt(s, part, i) {
        assert piece == Lower(part);
      }
    }
  }

  lemma FoundMeans(part: string, s: string)
    ensures Found(part, s) <==> IsWritten(s, part)
  {
    if Found(part, s) {
      var i: nat :| i <= |Lower(s)| && OccursAt(Lower(s), Lower(part), i);
      OccursMeans(s, part, i);
    }
    if i: nat :| WrittenAt(s, part, i) {
      OccursMeans(s, part, i);
    }
  }

  // A part without spaces never straddles two words.
  lemma WrittenInOne(a: string, b: string, part: string, i: nat)
    requires ' ' !in part
    ensures
      WrittenAt(a + " " + b, part, i)
      <==> WrittenAt(a, part, i) || (i > |a| && WrittenAt(b, part, i - |a| - 1)) || (part == "" && i <= |a| + 1 + |b|)
  {
    var s := a + " " + b;
    if WrittenAt(s, part, i) && i <= |a| < i + |part| {
      Straddles(s, part, i, |a|);
    }
    assert forall j :: |a| < j < |s| ==> s[j] == b[j - |a| - 1];
    if i > |a| && i + |part| <= |s| {
      Shifted(s, b, part, i, |a| + 1);
    }
  }

  lemma Shifted(s: string, b: string, part: string, i: nat, from: nat)
    requires from <= i && i + |part| <= |s| && |s| == from + |b|
    requires forall j :: from <= j < |s| ==> s[j] == b[j - from]
    ensures WrittenAt(s, part, i) <==> WrittenAt(b, part, i - from)
  {
    forall k | 0 <= k < |part|
      ensures LowerChar(s[i + k]) == LowerChar(part[k]) <==> LowerChar(b[i - from + k]) == LowerChar(part[k])
    {
      assert s[i + k] == b[i + k - from];
    }
  }

  lemma Straddles(s: string, part: string, i: nat, at: nat)
    requires WrittenAt(s, part, i) && i <= at < i + |part| && s[at] == ' '
    ensures ' ' in part
  {
    assert LowerChar(s[i + (at - i)]) == LowerChar(part[at - i]);
  }

  lemma InEither(a: string, b: string, part: string)
    requires ' ' !in part
    ensures IsWritten(a + " " + b, part) <==> IsWritten(a, part) || IsWritten(b, part)
  {
    var s := a + " " + b;
    if i: nat :| WrittenAt(s, part, i) {
      WrittenInOne(a, b, part, i);
      assert part == "" ==> WrittenAt(a, part, 0);
      if i > |a| && WrittenAt(b, part, i - |a| - 1) {
        assert IsWritten(b, part);
      }
    }
    if i: nat :| WrittenAt(a, part, i) {
      WrittenInOne(a, b, part, i);
    }
    if i: nat :| WrittenAt(b, part, i) {
      WrittenInOne(a, b, part, |a| + 1 + i);
    }
  }

  // A search for a single word finds a row by its name, by its version, or, for a
  // formula that is a dependency, by the word on its row.
  lemma FoundInRow(part: string, p: Package)
    requires ' ' !in part
    ensures
      Found(part, FilterValue(p))
      <==> IsWritten(p.name, part) || IsWritten(p.version, part)
           || IsWritten(if p.kind == Formula && p.dependency then "dep" else "", part)
  {
    var tag := if p.kind == Formula && p.dependency then "dep" else "";
    FoundMeans(part, FilterValue(p));
    assert FilterValue(p) == p.name + " " + p.version + " " + tag;
    InEither(p.name + " " + p.version, tag, part);
    InEither(p.name, p.version, part);
  }

  // The rows on show are exactly the retained ones that the query lets through, each
  // qualifier of it and its text, a dependency only when the query asks for those.
  lemma ShownExactly(query: string, order: SortOrder, sizes: Sizes, retained: seq<Package>, p: Package)
    ensures
      var q := Parse(query);
      p in Shown(query, order, sizes, retained)
      <==> && p in retained && (p.dependency ==> q.showDeps)
           && (forall i :: 0 <= i < |q.predicates| ==> Holds(q.predicates[i], p))
           && IsWritten(FilterValue(p), q.text)
  {
    LP.ShownMeans(query, order, sizes, retained, p);
    FoundMeans(Parse(query).text, FilterValue(p));
  }
}
