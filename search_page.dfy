/** The search page: a filter form, the URL parameters it writes, and a list of tutors that
    a new search replaces and "Show More Tutors" extends one page at a time. */
module SearchPage {
  import opened Builtins
  import opened Types
  import opened TutorSearch

  const PAGE_SIZE: nat := 4

  /** The five text inputs of the form, as typed. */
  datatype FilterForm = FilterForm(location: string, subject: string, minRate: string,
                                   maxRate: string, minExperience: string)

  const EMPTY_FORM := FilterForm("", "", "", "", "")

  /** The names of the URL parameters the page reads and writes. */
  datatype Key = Location | Subject | MinRate | MaxRate | MinExperience

  /** The parameter as spelled in the URL. */
  function Name(k: Key): string
  {
    match k
    case Location => "location"
    case Subject => "subject"
    case MinRate => "minRate"
    case MaxRate => "maxRate"
    case MinExperience => "minExperience"
  }

  /** The URL search parameters the page reads. */
  type SearchParams = map<Key, string>

  /** The form input behind each parameter. */
  function Field(form: FilterForm, k: Key): string
  {
    match k
    case Location => form.location
    case Subject => form.subject
    case MinRate => form.minRate
    case MaxRate => form.maxRate
    case MinExperience => form.minExperience
  }

  /** `searchParams.get(key) || ''` */
  function Get(params: SearchParams, k: Key): (r: string)
    ensures k in params ==> r == params[k]
    ensures k !in params ==> r == ""
  {
    if k in params then params[k] else ""
  }

  /** The form as the page first fills it from the URL. */
  function FormFromParams(params: SearchParams): (form: FilterForm)
    ensures forall k :: Field(form, k) == Get(params, k)
  {
    FilterForm(Get(params, Location), Get(params, Subject), Get(params, MinRate),
               Get(params, MaxRate), Get(params, MinExperience))
  }

  /** `if (value) params[key] = value` */
  function Put(params: SearchParams, k: Key, value: string): (r: SearchParams)
    ensures value == "" ==> r == params
    ensures value != "" ==> r == params[k := value]
  {
    if value != "" then params[k := value] else params
  }

  /** `handleSearch`: one parameter per non-empty input, holding that input. */
  function HandleSearch(form: FilterForm): (params: SearchParams)
    ensures forall k :: k in params <==> Field(form, k) != ""
    ensures forall k :: k in params ==> params[k] == Field(form, k)
  {
    var p1 := Put(map[], Location, form.location);
    var p2 := Put(p1, Subject, form.subject);
    var p3 := Put(p2, MinRate, form.minRate);
    var p4 := Put(p3, MaxRate, form.maxRate);
    Put(p4, MinExperience, form.minExperience)
  }

  /** The parameters a search writes read back as the inputs they came from. */
  lemma SearchKeepsInputs(form: FilterForm)
    ensures forall k :: Get(HandleSearch(form), k) == Field(form, k)
  {
  }

  /** Searching and reloading the page shows the same form again. */
  lemma SearchRestoresForm(form: FilterForm)
    ensures FormFromParams(HandleSearch(form)) == form
  {
    SearchKeepsInputs(form);
  }

  /** Filling the form from the URL and searching again keeps exactly the non-empty
      parameters. */
  lemma ReloadedSearchKeepsParams(params: SearchParams)
    ensures var again := HandleSearch(FormFromParams(params));
      forall k :: (k in again <==> k in params && params[k] != "") && (k in again ==> again[k] == params[k])
  {
  }

  /** `handleClearFilters`: every input is emptied and the parameters are cleared. */
  function HandleClearFilters(): (r: (FilterForm, SearchParams))
    ensures forall k :: Field(r.0, k) == ""
    ensures r.1 == map[]
  {
    (EMPTY_FORM, map[])
  }

  /** `searchParams.get(key) ? Number(searchParams.get(key)) : undefined`, where `NaN` and
      `undefined` are both `None` since the search only asks whether the value is truthy. */
  function NumberParam(params: SearchParams, key: Key): (r: Option<int>)
    ensures Get(params, key) == "" ==> r.None?
  {
    if Get(params, key) != "" then ParseNumber(Get(params, key)) else None
  }

  /** `searchParams.get(key) || undefined` */
  function TextParam(params: SearchParams, key: Key): (r: Option<string>)
    ensures r.Some? <==> Get(params, key) != ""
    ensures r.Some? ==> r.value == Get(params, key)
  {
    if Get(params, key) != "" then Some(Get(params, key)) else None
  }

  /** The query `fetchTutors` sends for the page starting at `offset`. */
  function QueryFor(params: SearchParams, offset: int): (q: SearchQuery)
    ensures q.offset == Some(offset) && q.limit == Some(PAGE_SIZE)
  {
    SearchQuery(TextParam(params, Location), TextParam(params, Subject),
                Some(offset), Some(PAGE_SIZE),
                NumberParam(params, MinRate), NumberParam(params, MaxRate),
                NumberParam(params, MinExperience))
  }

  /** After clearing the filters, the search asks nothing of a tutor. */
  lemma ClearedSearchFiltersNothing(offset: int)
    ensures Criteria(QueryFor(HandleClearFilters().1, offset)) == []
    ensures forall t :: Matches(QueryFor(HandleClearFilters().1, offset), t)
  {
  }

  /** The first page after clearing the filters is the first page of all tutors, the list
      the home page shows as top tutors. */
  lemma ClearedFirstPageIsTopTutors(all: seq<Tutor>)
    ensures SearchTutors(all, QueryFor(HandleClearFilters().1, 0)).tutors == Slice(all, 0, 4)
  {
    ClearedSearchFiltersNothing(0);
    UnfilteredPageIsSlice(all, QueryFor(HandleClearFilters().1, 0));
  }

  /** A filter of the form's query is on exactly when its input is non-empty (and, for a
      number, reads as a non-zero number), and it then holds the input's value. */
  lemma QueryFollowsForm(form: FilterForm, offset: int)
    ensures var q := QueryFor(HandleSearch(form), offset);
      && (TextGiven(q.location) <==> form.location != "")
      && (TextGiven(q.location) ==> q.location.value == form.location)
      && (TextGiven(q.subject) <==> form.subject != "")
      && (TextGiven(q.subject) ==> q.subject.value == form.subject)
      && (NumberGiven(q.minRate) <==> form.minRate != "" && NumberGiven(ParseNumber(form.minRate)))
      && (NumberGiven(q.minRate) ==> q.minRate == ParseNumber(form.minRate))
      && (NumberGiven(q.maxRate) <==> form.maxRate != "" && NumberGiven(ParseNumber(form.maxRate)))
      && (NumberGiven(q.maxRate) ==> q.maxRate == ParseNumber(form.maxRate))
      && (NumberGiven(q.minExperience) <==> form.minExperience != "" && NumberGiven(ParseNumber(form.minExperience)))
      && (NumberGiven(q.minExperience) ==> q.minExperience == ParseNumber(form.minExperience))
  {
    SearchKeepsInputs(form);
  }

  // ----- The list of results -----

  /** What the page shows below the form. */
  datatype ListState = ListState(tutors: seq<Tutor>, offset: int, hasMore: bool)

  /** The state the parameter effect sets before its first fetch. */
  const RESET := ListState([], 0, true)

  /** One `fetchTutors(isNewSearch)`: a new search asks for offset 0 and replaces the list,
      "show more" asks for the current offset and appends; the offset moves one page on. */
  function Fetch(st: ListState, isNewSearch: bool, all: seq<Tutor>, params: SearchParams): ListState
  {
    var cur := if isNewSearch then 0 else st.offset;
    var page := SearchTutors(all, QueryFor(params, cur));
    ListState(if isNewSearch then page.tutors else st.tutors + page.tutors, cur + PAGE_SIZE, page.hasMore)
  }

  /** The state after a new search followed by `k - 1` presses of "Show More Tutors". */
  function Loaded(all: seq<Tutor>, params: SearchParams, k: nat): ListState
    requires k >= 1
  {
    if k == 1 then Fetch(RESET, true, all, params)
    else Fetch(Loaded(all, params, k - 1), false, all, params)
  }

  /** The tutors the parameters ask for, in list order. */
  function Wanted(all: seq<Tutor>, params: SearchParams): seq<Tutor>
  {
    Filter(all, MatchesQuery(QueryFor(params, 0)))
  }

  /** The offset of a query does not change which tutors it matches. */
  lemma WantedAtAnyOffset(all: seq<Tutor>, params: SearchParams, offset: int)
    ensures Filter(all, MatchesQuery(QueryFor(params, offset))) == Wanted(all, params)
  {
    FilterCongruent(all, MatchesQuery(QueryFor(params, offset)), MatchesQuery(QueryFor(params, 0)));
  }

  /** One page of the query at a non-negative offset. */
  lemma PageAt(all: seq<Tutor>, params: SearchParams, offset: nat)
    ensures var f := Wanted(all, params);
      var page := SearchTutors(all, QueryFor(params, offset));
      && page.tutors == f[Min(offset, |f|)..Min(offset + PAGE_SIZE, |f|)]
      && (page.hasMore <==> offset + PAGE_SIZE < |f|)
  {
    WantedAtAnyOffset(all, params, offset);
  }

  /** The list holds the first `shown` wanted tutors (or all of them), the next fetch
      starts at `shown`, and more are offered exactly when some are still hidden. */
  predicate ShowsFirst(st: ListState, f: seq<Tutor>, shown: nat)
  {
    && st.tutors == f[..Min(shown, |f|)]
    && st.offset == shown
    && (st.hasMore <==> shown < |f|)
  }

  /** A new search shows the first page of the wanted tutors. */
  lemma FirstFetch(all: seq<Tutor>, params: SearchParams, st: ListState)
    ensures ShowsFirst(Fetch(st, true, all, params), Wanted(all, params), PAGE_SIZE)
  {
    PageAt(all, params, 0);
  }

  /** "Show more" on a list holding the wanted tutors before `offset` extends it to those
      before `offset + PAGE_SIZE`. */
  lemma NextFetch(all: seq<Tutor>, params: SearchParams, st: ListState, offset: nat)
    requires ShowsFirst(st, Wanted(all, params), offset)
    ensures ShowsFirst(Fetch(st, false, all, params), Wanted(all, params), offset + PAGE_SIZE)
  {
    var f := Wanted(all, params);
    var page := SearchTutors(all, QueryFor(params, offset));
    assert Fetch(st, false, all, params) == ListState(st.tutors + page.tutors, offset + PAGE_SIZE, page.hasMore);
    PageAt(all, params, offset);
    PrefixThenPage(f, offset, PAGE_SIZE);
  }

  /** The first `offset` elements followed by the next page are the first
      `offset + size`. */
  lemma PrefixThenPage<T>(f: seq<T>, offset: nat, size: nat)
    ensures f[..Min(offset, |f|)] + f[Min(offset, |f|)..Min(offset + size, |f|)] == f[..Min(offset + size, |f|)]
  {
  }

  /** After `k` fetches the page shows the first `4k` wanted tutors, or all of them, and
      offers more exactly when some are still hidden. */
  lemma {:induction false} LoadedIsPrefix(all: seq<Tutor>, params: SearchParams, k: nat)
    requires k >= 1
    ensures ShowsFirst(Loaded(all, params, k), Wanted(all, params), PAGE_SIZE * k)
  {
    if k == 1 {
      LoadedFirst(all, params);
    } else {
      LoadedIsPrefix(all, params, k - 1);
      LoadedStep(all, params, k);
    }
  }

  /** The new search alone shows the first page. */
  lemma LoadedFirst(all: seq<Tutor>, params: SearchParams)
    ensures ShowsFirst(Loaded(all, params, 1), Wanted(all, params), PAGE_SIZE * 1)
  {
    FirstFetch(all, params, RESET);
  }

  /** One more press of "show more" moves the shown prefix on by one page. */
  lemma LoadedStep(all: seq<Tutor>, params: SearchParams, k: nat)
    requires k >= 2
    requires ShowsFirst(Loaded(all, params, k - 1), Wanted(all, params), PAGE_SIZE * (k - 1))
    ensures ShowsFirst(Loaded(all, params, k), Wanted(all, params), PAGE_SIZE * k)
  {
    var prev := Loaded(all, params, k - 1);
    NextFetch(all, params, prev, PAGE_SIZE * (k - 1));
    ShowsFirstSame(Fetch(prev, false, all, params), Loaded(all, params, k), Wanted(all, params),
                   PAGE_SIZE * (k - 1) + PAGE_SIZE, PAGE_SIZE * k);
  }

  /** `ShowsFirst` of equal states and equal counts. */
  lemma ShowsFirstSame(a: ListState, b: ListState, f: seq<Tutor>, m: nat, n: nat)
    requires a == b && m == n && ShowsFirst(a, f, m)
    ensures ShowsFirst(b, f, n)
  {
  }

  /** Every tutor on the page is a listed tutor that satisfies the search (that none is
      skipped is `LoadedIsPrefix`). */
  lemma LoadedShowsOnlyMatches(all: seq<Tutor>, params: SearchParams, k: nat)
    requires k >= 1
    ensures forall t :: t in Loaded(all, params, k).tutors ==> t in all && Matches(QueryFor(params, 0), t)
  {
    LoadedIsPrefix(all, params, k);
    var f := Wanted(all, params);
    forall t | t in Loaded(all, params, k).tutors ensures t in all && Matches(QueryFor(params, 0), t) {
      var i :| 0 <= i < Min(PAGE_SIZE * k, |f|) && f[..Min(PAGE_SIZE * k, |f|)][i] == t;
      assert f[i] == t;
    }
  }

  /** The page's state, with the parameters it was given. */
  class SearchPageState {
    var params: SearchParams
    var tutors: seq<Tutor>
    var offset: int
    var hasMore: bool

    function State(): ListState
      reads this
    {
      ListState(tutors, offset, hasMore)
    }

    /** The page as first mounted: an empty list that offers more. */
    constructor (params: SearchParams)
      ensures this.params == params && State() == RESET
    {
      this.params := params;
      tutors, offset, hasMore := [], 0, true;
    }

    /** `setSearchParams` and the effect it triggers before the first fetch. The effect
        depends on `searchParams`, so it runs only when the parameters change; setting the
        same parameters again keeps the list, the offset and the flag. */
    method SetSearchParams(p: SearchParams)
      modifies this
      ensures params == p
      ensures p != old(params) ==> State() == RESET
      ensures p == old(params) ==> State() == old(State())
    {
      if p != params {
        tutors := [];
        offset := 0;
        hasMore := true;
      }
      params := p;
    }

    /** `fetchTutors(isNewSearch)` on the tutor list `all`. */
    method FetchTutors(isNewSearch: bool, all: seq<Tutor>)
      modifies this
      ensures params == old(params)
      ensures State() == Fetch(old(State()), isNewSearch, all, params)
    {
      var currentOffset := if isNewSearch then 0 else offset;
      var result := SearchTutors(all, QueryFor(params, currentOffset));
      ghost var next := Fetch(State(), isNewSearch, all, params);
      assert next == ListState(if isNewSearch then result.tutors else tutors + result.tutors,
                               currentOffset + PAGE_SIZE, result.hasMore);
      if isNewSearch {
        tutors := result.tutors;
      } else {
        tutors := tutors + result.tutors;
      }
      hasMore := result.hasMore;
      offset := currentOffset + PAGE_SIZE;
      assert State() == next;
    }
  }
}
