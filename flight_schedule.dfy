/**
 * The flight schedule page: a fixed catalog of five flights, three optional
 * search criteria (origin, destination, date) and the list of flights the
 * last search kept. A search always filters the whole catalog.
 */
module FlightSchedule {
  import opened Strings

  datatype SeatsAvailable = SeatsAvailable(business: nat, economy: nat)

  datatype Flight = Flight(
    id: string,
    origin: string,
    destination: string,
    departureTime: string,
    arrivalTime: string,
    date: string,
    flightNumber: string,
    price: nat,
    seatsAvailable: SeatsAvailable)

  const DelToBom := Flight("1", "DELHI", "MUMBAI", "08:00 AM", "10:30 AM", "2023-06-01", "AI101", 10101, SeatsAvailable(20, 100))
  const CcuToMaa := Flight("2", "KOLKATA", "CHENNAI", "10:15 AM", "12:45 PM", "2023-06-01", "AI202", 23927, SeatsAvailable(15, 120))
  const DelToGoi := Flight("3", "DELHI", "GOA", "02:30 PM", "05:00 PM", "2023-06-01", "AI303", 60000, SeatsAvailable(10, 150))
  const LhrToDxb := Flight("4", "LONDON", "DUBAI", "09:45 PM", "06:15 AM", "2023-06-02", "AI505", 24112, SeatsAvailable(25, 200))
  const BkkToTyo := Flight("5", "BANGKOK", "TOKYO", "11:30 AM", "07:45 PM", "2023-06-02", "AI707", 110079, SeatsAvailable(18, 180))

  /** The catalog the page searches, in display order. */
  const MockFlights: seq<Flight> := [DelToBom, CcuToMaa, DelToGoi, LhrToDxb, BkkToTyo]

  /** The search form's state; an empty string means "no criterion". */
  datatype Query = Query(origin: string, destination: string, date: string)

  /** The names of the search form's inputs. */
  datatype Criterion = Origin | Destination | Date

  const EmptyQuery := Query("", "", "")

  function Get(q: Query, c: Criterion): string {
    match c
    case Origin => q.origin
    case Destination => q.destination
    case Date => q.date
  }

  /** `{...searchParams, [name]: value}`: the named criterion takes the new
      value and the other two keep theirs. */
  function Update(q: Query, c: Criterion, v: string): (r: Query)
    ensures Get(r, c) == v
    ensures forall d :: d != c ==> Get(r, d) == Get(q, d)
  {
    match c
    case Origin => q.(origin := v)
    case Destination => q.(destination := v)
    case Date => q.(date := v)
  }

  /** The early-return test of the filter callback: all three inputs empty. */
  function NoCriteria(q: Query): (b: bool)
    ensures b <==> forall c :: Get(q, c) == ""
  {
    assert Get(q, Origin) == q.origin && Get(q, Destination) == q.destination && Get(q, Date) == q.date;
    q.origin == "" && q.destination == "" && q.date == ""
  }

  /** The AND of the three criteria: an empty criterion accepts every flight;
      origin and destination match when the stored city contains the
      upper-cased query; the date must be equal. Every flight matches a query
      without criteria, and a given date is met only by that date. */
  function Matches(f: Flight, q: Query): (b: bool)
    ensures NoCriteria(q) ==> b
    ensures b && q.date != "" ==> f.date == q.date
  {
    && (q.origin == "" || Contains(f.origin, Upper(q.origin)))
    && (q.destination == "" || Contains(f.destination, Upper(q.destination)))
    && (q.date == "" || f.date == q.date)
  }

  /** The callback passed to `mockFlights.filter`. Its early return for a query
      without criteria changes nothing: it keeps exactly the flights the AND
      rule accepts. */
  function Keep(f: Flight, q: Query): (b: bool)
    ensures b <==> Matches(f, q)
    ensures NoCriteria(q) ==> b
  {
    if NoCriteria(q) then true else Matches(f, q)
  }

  /** `flights.filter(flight => Keep(flight, q))`. */
  function FilterFlights(flights: seq<Flight>, q: Query): (r: seq<Flight>)
    ensures |r| <= |flights|
  {
    if flights == [] then []
    else (if Keep(flights[0], q) then [flights[0]] else []) + FilterFlights(flights[1..], q)
  }

  /** `xs` is `ys` with some elements dropped and the rest in their order. */
  predicate IsSubsequence<T(==)>(xs: seq<T>, ys: seq<T>)
    decreases |ys|
  {
    if ys == [] then xs == []
    else (xs != [] && xs[0] == ys[0] && IsSubsequence(xs[1..], ys[1..])) || IsSubsequence(xs, ys[1..])
  }

  lemma {:induction false} SubsequenceReflexive<T>(xs: seq<T>)
    ensures IsSubsequence(xs, xs)
    decreases |xs|
  {
    if xs != [] {
      SubsequenceReflexive(xs[1..]);
    }
  }

  /** Each `!criterion ||` guard is redundant as well: the upper-cased empty
      query is contained in every city name. */
  lemma EmptyCityCriterionMatches(city: string)
    ensures Contains(city, Upper(""))
  {
    ContainsEmpty(city);
  }

  /** Soundness: a flight the filter keeps comes from the input and meets every
      non-empty criterion. */
  lemma {:induction false} FilterSound(flights: seq<Flight>, q: Query, f: Flight)
    requires f in FilterFlights(flights, q)
    ensures f in flights
    ensures q.origin != "" ==> Contains(f.origin, Upper(q.origin))
    ensures q.destination != "" ==> Contains(f.destination, Upper(q.destination))
    ensures q.date != "" ==> f.date == q.date
    decreases |flights|
  {
    if f != flights[0] || !Keep(flights[0], q) {
      FilterSound(flights[1..], q, f);
    }
  }

  /** Completeness: every input flight that meets every non-empty criterion is
      kept. */
  lemma {:induction false} FilterComplete(flights: seq<Flight>, q: Query, f: Flight)
    requires f in flights
    requires q.origin != "" ==> Contains(f.origin, Upper(q.origin))
    requires q.destination != "" ==> Contains(f.destination, Upper(q.destination))
    requires q.date != "" ==> f.date == q.date
    ensures f in FilterFlights(flights, q)
    decreases |flights|
  {
    if f != flights[0] {
      FilterComplete(flights[1..], q, f);
    }
  }

  /** The filter keeps flights in their catalog order and never repeats one. */
  lemma {:induction false} FilterSubsequence(flights: seq<Flight>, q: Query)
    ensures IsSubsequence(FilterFlights(flights, q), flights)
    decreases |flights|
  {
    if flights != [] {
      FilterSubsequence(flights[1..], q);
      var r := FilterFlights(flights, q);
      if Keep(flights[0], q) {
        assert r[0] == flights[0] && r[1..] == FilterFlights(flights[1..], q);
      } else {
        assert r == FilterFlights(flights[1..], q);
      }
    }
  }

  /** With every criterion empty the filter returns its input unchanged. */
  lemma {:induction false} FilterNoCriteria(flights: seq<Flight>, q: Query)
    requires NoCriteria(q)
    ensures FilterFlights(flights, q) == flights
    decreases |flights|
  {
    if flights != [] {
      FilterNoCriteria(flights[1..], q);
    }
  }

  /** Filtering distributes over concatenation. */
  lemma {:induction false} FilterAppend(a: seq<Flight>, b: seq<Flight>, q: Query)
    ensures FilterFlights(a + b, q) == FilterFlights(a, q) + FilterFlights(b, q)
    decreases |a|
  {
    if a != [] {
      assert (a + b)[0] == a[0] && (a + b)[1..] == a[1..] + b;
      FilterAppend(a[1..], b, q);
    } else {
      assert a + b == b;
    }
  }

  /** Filtering a five-flight catalog, flight by flight. */
  lemma FilterFive(f0: Flight, f1: Flight, f2: Flight, f3: Flight, f4: Flight, q: Query)
    ensures FilterFlights([f0, f1, f2, f3, f4], q) ==
      FilterFlights([f0], q) + FilterFlights([f1], q) + FilterFlights([f2], q) +
      FilterFlights([f3], q) + FilterFlights([f4], q)
  {
    var s01 := [f0] + [f1];
    var s012 := s01 + [f2];
    var s0123 := s012 + [f3];
    assert [f0, f1, f2, f3, f4] == s0123 + [f4];
    FilterAppend(s0123, [f4], q);
    FilterAppend(s012, [f3], q);
    FilterAppend(s01, [f2], q);
    FilterAppend([f0], [f1], q);
  }

  lemma FilterSingle(f: Flight, q: Query)
    ensures FilterFlights([f], q) == if Keep(f, q) then [f] else []
  {
    assert [f][1..] == [];
  }

  /** A query on the origin alone keeps exactly the flights whose origin
      contains the upper-cased query. */
  lemma KeepByOrigin(f: Flight, q: Query, key: string)
    requires q.origin != "" && q.destination == "" && q.date == ""
    requires Upper(q.origin) == key
    ensures Keep(f, q) == Contains(f.origin, key)
  {
  }

  /** An origin-only query keeps the catalog flights whose origin contains
      the upper-cased query, here with the five decisions spelled out. */
  lemma FilterByOrigin(q: Query, key: string, delhi: bool, kolkata: bool, london: bool, bangkok: bool)
    requires q.origin != "" && q.destination == "" && q.date == ""
    requires Upper(q.origin) == key
    requires delhi == Contains("DELHI", key) && kolkata == Contains("KOLKATA", key)
    requires london == Contains("LONDON", key) && bangkok == Contains("BANGKOK", key)
    ensures FilterFlights(MockFlights, q) ==
      (if delhi then [DelToBom] else []) + (if kolkata then [CcuToMaa] else []) +
      (if delhi then [DelToGoi] else []) + (if london then [LhrToDxb] else []) +
      (if bangkok then [BkkToTyo] else [])
  {
    FilterFive(DelToBom, CcuToMaa, DelToGoi, LhrToDxb, BkkToTyo, q);
    FilterSingle(DelToBom, q);
    KeepByOrigin(DelToBom, q, key);
    FilterSingle(CcuToMaa, q);
    KeepByOrigin(CcuToMaa, q, key);
    FilterSingle(DelToGoi, q);
    KeepByOrigin(DelToGoi, q, key);
    FilterSingle(LhrToDxb, q);
    KeepByOrigin(LhrToDxb, q, key);
    FilterSingle(BkkToTyo, q);
    KeepByOrigin(BkkToTyo, q, key);
  }

  /** "DEL" occurs in DELHI and in none of the other origins. */
  lemma DelOccurrences()
    ensures Contains("DELHI", "DEL")
    ensures !Contains("KOLKATA", "DEL") && !Contains("LONDON", "DEL") && !Contains("BANGKOK", "DEL")
  {
    assert OccursAt("DELHI", "DEL", 0);
    MissingCharNotContained("KOLKATA", "DEL", 0);
    MissingCharNotContained("LONDON", "DEL", 1);
    MissingCharNotContained("BANGKOK", "DEL", 0);
  }

  /** A lower-case origin query finds the two flights leaving DELHI. */
  lemma SearchDelhi(q: Query)
    requires q == Query("del", "", "")
    ensures FilterFlights(MockFlights, q) == [DelToBom, DelToGoi]
  {
    assert Upper(q.origin) == "DEL";
    DelOccurrences();
    FilterByOrigin(q, "DEL", true, false, false, false);
  }

  /** "PARIS" occurs in none of the origins. */
  lemma ParisOccurrences()
    ensures !Contains("DELHI", "PARIS") && !Contains("KOLKATA", "PARIS")
    ensures !Contains("LONDON", "PARIS") && !Contains("BANGKOK", "PARIS")
  {
    MissingCharNotContained("DELHI", "PARIS", 0);
    MissingCharNotContained("KOLKATA", "PARIS", 0);
    MissingCharNotContained("LONDON", "PARIS", 0);
    MissingCharNotContained("BANGKOK", "PARIS", 0);
  }

  /** No flight leaves PARIS, so that search returns nothing. */
  lemma SearchParis(q: Query)
    requires q == Query("PARIS", "", "")
    ensures FilterFlights(MockFlights, q) == []
  {
    assert Upper(q.origin) == "PARIS";
    ParisOccurrences();
    FilterByOrigin(q, "PARIS", false, false, false, false);
  }

  /** The page: the search inputs and the flights currently listed. */
  class SchedulePage {
    var searchParams: Query
    var filteredFlights: seq<Flight>

    /** The listed flights are always drawn from the catalog, in its order. */
    ghost predicate Valid()
      reads this
    {
      IsSubsequence(filteredFlights, MockFlights)
    }

    /** The page opens with empty inputs and the whole catalog listed, which is
        what a search with no criteria would list. */
    constructor ()
      ensures Valid()
      ensures searchParams == EmptyQuery
      ensures filteredFlights == MockFlights == FilterFlights(MockFlights, EmptyQuery)
    {
      searchParams := EmptyQuery;
      filteredFlights := MockFlights;
      SubsequenceReflexive(MockFlights);
      FilterNoCriteria(MockFlights, EmptyQuery);
    }

    /** Typing in an input changes only that criterion; the list stays until
        the next search. */
    method HandleChange(c: Criterion, v: string)
      requires Valid()
      modifies this
      ensures Valid()
      ensures searchParams == Update(old(searchParams), c, v)
      ensures filteredFlights == old(filteredFlights)
    {
      searchParams := Update(searchParams, c, v);
    }

    /** A search lists the catalog flights the current criteria keep; it starts
        from the catalog, not from the previous list. */
    method HandleSearch()
      requires Valid()
      modifies this
      ensures Valid()
      ensures searchParams == old(searchParams)
      ensures filteredFlights == FilterFlights(MockFlights, searchParams)
    {
      filteredFlights := FilterFlights(MockFlights, searchParams);
      FilterSubsequence(MockFlights, searchParams);
    }
  }
}
