/** `searchTutors` of the mock API: five optional filters applied one after another to the
    tutor list, then one page of the result. */
module TutorSearch {
  import opened Builtins
  import opened Types

  /** The page size used when the query gives no limit (or a limit of 0). */
  const DEFAULT_LIMIT := 4

  /** The query object; every field may be left out. */
  datatype SearchQuery = SearchQuery(
    location: Option<string>,
    subject: Option<string>,
    offset: Option<int>,
    limit: Option<int>,
    minRate: Option<int>,
    maxRate: Option<int>,
    minExperience: Option<int>)

  /** JavaScript truthiness of an optional string: present and not empty. */
  predicate TextGiven(o: Option<string>)
  {
    o.Some? && o.value != ""
  }

  /** JavaScript truthiness of an optional number: present and not 0. */
  predicate NumberGiven(o: Option<int>)
  {
    o.Some? && o.value != 0
  }

  /** One filter of the chain. */
  datatype Criterion =
    | LocationIncludes(text: string)
    | SubjectIncludes(text: string)
    | RateAtLeast(rate: int)
    | RateAtMost(rate: int)
    | ExperienceAtLeast(years: int)

  /** Case-insensitive `includes`. */
  predicate IncludesIgnoringCase(s: string, sub: string)
  {
    Includes(ToLowerCase(s), ToLowerCase(sub))
  }

  predicate Satisfies(t: Tutor, c: Criterion)
  {
    match c
    case LocationIncludes(text) => IncludesIgnoringCase(t.location, text)
    case SubjectIncludes(text) =>
      exists i :: 0 <= i < |t.subjects| && IncludesIgnoringCase(t.subjects[i], text)
    case RateAtLeast(rate) => t.hourlyRate >= rate
    case RateAtMost(rate) => t.hourlyRate <= rate
    case ExperienceAtLeast(years) => t.experience >= years
  }

  /** The filters a query switches on, in the order the search applies them. */
  function Criteria(q: SearchQuery): seq<Criterion>
  {
    (if TextGiven(q.location) then [LocationIncludes(q.location.value)] else []) +
    (if TextGiven(q.subject) then [SubjectIncludes(q.subject.value)] else []) +
    (if NumberGiven(q.minRate) then [RateAtLeast(q.minRate.value)] else []) +
    (if NumberGiven(q.maxRate) then [RateAtMost(q.maxRate.value)] else []) +
    (if NumberGiven(q.minExperience) then [ExperienceAtLeast(q.minExperience.value)] else [])
  }

  /** The chain of filters, one pass per criterion. */
  function ApplyFilters(tutors: seq<Tutor>, cs: seq<Criterion>): seq<Tutor>
    decreases |cs|
  {
    if cs == [] then tutors
    else ApplyFilters(Filter(tutors, Meets(cs[0])), cs[1..])
  }

  predicate SatisfiesAll(t: Tutor, cs: seq<Criterion>)
  {
    forall i :: 0 <= i < |cs| ==> Satisfies(t, cs[i])
  }

  /** The test one filter applies. */
  function Meets(c: Criterion): Tutor -> bool
  {
    t => Satisfies(t, c)
  }

  /** The test of a whole chain of filters. */
  function MeetsAll(cs: seq<Criterion>): Tutor -> bool
  {
    t => SatisfiesAll(t, cs)
  }

  /** The filtered list `searchTutors` pages through. */
  function Filtered(tutors: seq<Tutor>, q: SearchQuery): seq<Tutor>
  {
    ApplyFilters(tutors, Criteria(q))
  }

  /** What a query asks of a tutor, read off the query directly: every filter that is
      given holds, and a filter left out or falsy asks nothing. */
  predicate Matches(q: SearchQuery, t: Tutor)
  {
    && (TextGiven(q.location) ==> IncludesIgnoringCase(t.location, q.location.value))
    && (TextGiven(q.subject) ==>
          exists i :: 0 <= i < |t.subjects| && IncludesIgnoringCase(t.subjects[i], q.subject.value))
    && (NumberGiven(q.minRate) ==> t.hourlyRate >= q.minRate.value)
    && (NumberGiven(q.maxRate) ==> t.hourlyRate <= q.maxRate.value)
    && (NumberGiven(q.minExperience) ==> t.experience >= q.minExperience.value)
  }

  lemma SatisfiesAllSplit(t: Tutor, a: seq<Criterion>, b: seq<Criterion>)
    ensures SatisfiesAll(t, a + b) <==> SatisfiesAll(t, a) && SatisfiesAll(t, b)
  {
    if SatisfiesAll(t, a) && SatisfiesAll(t, b) {
      forall i | 0 <= i < |a + b| ensures Satisfies(t, (a + b)[i]) {
        if i >= |a| {
          assert (a + b)[i] == b[i - |a|];
        }
      }
    }
    if SatisfiesAll(t, a + b) {
      forall i | 0 <= i < |a| ensures Satisfies(t, a[i]) {
        assert (a + b)[i] == a[i];
      }
      forall i | 0 <= i < |b| ensures Satisfies(t, b[i]) {
        assert (a + b)[|a| + i] == b[i];
      }
    }
  }

  /** The test a query applies. */
  function MatchesQuery(q: SearchQuery): Tutor -> bool
  {
    t => Matches(q, t)
  }

  lemma CriteriaMeanMatches(q: SearchQuery, t: Tutor)
    ensures SatisfiesAll(t, Criteria(q)) <==> Matches(q, t)
  {
    var location := if TextGiven(q.location) then [LocationIncludes(q.location.value)] else [];
    var subject := if TextGiven(q.subject) then [SubjectIncludes(q.subject.value)] else [];
    var minRate := if NumberGiven(q.minRate) then [RateAtLeast(q.minRate.value)] else [];
    var maxRate := if NumberGiven(q.maxRate) then [RateAtMost(q.maxRate.value)] else [];
    var minExperience := if NumberGiven(q.minExperience) then [ExperienceAtLeast(q.minExperience.value)] else [];
    assert Criteria(q) == location + subject + minRate + maxRate + minExperience;
    forall c: Criterion ensures SatisfiesAll(t, [c]) <==> Satisfies(t, c) {
      assert [c][0] == c;
    }
    assert SatisfiesAll(t, location) <==> (TextGiven(q.location) ==> IncludesIgnoringCase(t.location, q.location.value));
    assert SatisfiesAll(t, subject) <==> (TextGiven(q.subject) ==> Satisfies(t, SubjectIncludes(q.subject.value)));
    assert SatisfiesAll(t, minRate) <==> (NumberGiven(q.minRate) ==> t.hourlyRate >= q.minRate.value);
    assert SatisfiesAll(t, maxRate) <==> (NumberGiven(q.maxRate) ==> t.hourlyRate <= q.maxRate.value);
    assert SatisfiesAll(t, minExperience) <==> (NumberGiven(q.minExperience) ==> t.experience >= q.minExperience.value);
    SatisfiesAllSplit(t, location + subject + minRate + maxRate, minExperience);
    SatisfiesAllSplit(t, location + subject + minRate, maxRate);
    SatisfiesAllSplit(t, location + subject, minRate);
    SatisfiesAllSplit(t, location, subject);
  }

  lemma SatisfiesAllCons(t: Tutor, cs: seq<Criterion>)
    requires cs != []
    ensures SatisfiesAll(t, cs) <==> Satisfies(t, cs[0]) && SatisfiesAll(t, cs[1..])
  {
    assert cs == [cs[0]] + cs[1..];
    SatisfiesAllSplit(t, [cs[0]], cs[1..]);
    assert SatisfiesAll(t, [cs[0]]) <==> Satisfies(t, cs[0]) by {
      assert [cs[0]][0] == cs[0];
    }
  }

  lemma ConsIsBoth(cs: seq<Criterion>)
    requires cs != []
    ensures forall t :: Both(Meets(cs[0]), MeetsAll(cs[1..]))(t) == MeetsAll(cs)(t)
  {
    forall t ensures Both(Meets(cs[0]), MeetsAll(cs[1..]))(t) == MeetsAll(cs)(t) {
      SatisfiesAllCons(t, cs);
    }
  }

  /** The chain of filters keeps exactly the tutors that satisfy every criterion, in
      their original order. */
  lemma {:induction false} ChainIsOnePass(tutors: seq<Tutor>, cs: seq<Criterion>)
    ensures ApplyFilters(tutors, cs) == Filter(tutors, MeetsAll(cs))
    decreases |cs|
  {
    if cs == [] {
      FilterKeepsAll(tutors, MeetsAll(cs));
    } else {
      var first, rest := Meets(cs[0]), MeetsAll(cs[1..]);
      var kept := Filter(tutors, first);
      assert ApplyFilters(tutors, cs) == ApplyFilters(kept, cs[1..]);
      ChainIsOnePass(kept, cs[1..]);
      FilterTwice(tutors, first, rest);
      ConsIsBoth(cs);
      FilterCongruent(tutors, Both(first, rest), MeetsAll(cs));
    }
  }

  /** The filtered list is the original list restricted to the tutors the query matches. */
  lemma FilteredMeansMatches(tutors: seq<Tutor>, q: SearchQuery)
    ensures Filtered(tutors, q) == Filter(tutors, MatchesQuery(q))
  {
    ChainIsOnePass(tutors, Criteria(q));
    forall t | t in tutors ensures MeetsAll(Criteria(q))(t) == Matches(q, t) {
      CriteriaMeanMatches(q, t);
    }
    FilterCongruent(tutors, MeetsAll(Criteria(q)), MatchesQuery(q));
  }

  /** `query.offset || 0` */
  function EffectiveOffset(q: SearchQuery): int
  {
    if NumberGiven(q.offset) then q.offset.value else 0
  }

  /** `query.limit || 4` */
  function EffectiveLimit(q: SearchQuery): int
  {
    if NumberGiven(q.limit) then q.limit.value else DEFAULT_LIMIT
  }

  datatype SearchResult = SearchResult(tutors: seq<Tutor>, hasMore: bool)

  /** `searchTutors`: the page `[offset, offset + limit)` of the tutors that match the
      query, and whether more matching tutors follow it. */
  function SearchTutors(all: seq<Tutor>, q: SearchQuery): (r: SearchResult)
    ensures forall i :: 0 <= i < |r.tutors| ==> r.tutors[i] in all && Matches(q, r.tutors[i])
    ensures r.hasMore <==> EffectiveOffset(q) + EffectiveLimit(q) < |Filter(all, MatchesQuery(q))|
    ensures 0 < EffectiveLimit(q) ==> |r.tutors| <= EffectiveLimit(q)
    ensures !NumberGiven(q.limit) ==> |r.tutors| <= DEFAULT_LIMIT
    ensures 0 <= EffectiveOffset(q) && 0 <= EffectiveLimit(q) ==>
      r.tutors == Page(Filter(all, MatchesQuery(q)), EffectiveOffset(q), EffectiveLimit(q))
  {
    var filtered := Filtered(all, q);
    var offset, limit := EffectiveOffset(q), EffectiveLimit(q);
    FilteredMeansMatches(all, q);
    SliceOfMatches(all, q, offset, offset + limit);
    SearchResult(Slice(filtered, offset, offset + limit), offset + limit < |filtered|)
  }

  /** Any slice of the matching tutors holds only listed tutors that match. */
  lemma SliceOfMatches(all: seq<Tutor>, q: SearchQuery, start: int, end: int)
    ensures var s := Slice(Filter(all, MatchesQuery(q)), start, end);
      forall i :: 0 <= i < |s| ==> s[i] in all && Matches(q, s[i])
  {
    var f := Filter(all, MatchesQuery(q));
    var s := Slice(f, start, end);
    forall i | 0 <= i < |s| ensures s[i] in all && Matches(q, s[i]) {
      assert s[i] in f;
      var j :| 0 <= j < |f| && f[j] == s[i];
      assert MatchesQuery(q)(f[j]);
    }
  }

  /** The contiguous run of `s` from `offset`, at most `limit` long. */
  function Page<T>(s: seq<T>, offset: nat, limit: nat): seq<T>
  {
    s[Min(offset, |s|)..Min(offset + limit, |s|)]
  }

  /** With no filter switched on, the page is a plain slice of the whole tutor list. */
  lemma UnfilteredPageIsSlice(all: seq<Tutor>, q: SearchQuery)
    requires Criteria(q) == []
    ensures SearchTutors(all, q).tutors == Slice(all, EffectiveOffset(q), EffectiveOffset(q) + EffectiveLimit(q))
  {
    FilteredMeansMatches(all, q);
  }
}
