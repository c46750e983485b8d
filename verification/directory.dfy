/** The capital directory: the country -> capital map every handler reads,
    the map the process starts with, and what it means for an entry to
    match a search. */
module Directory {

  import opened Text

  type Directory = map<string, string>

  /** One country/capital pair, as reported by a search. */
  datatype Entry = Entry(country: string, capital: string)

  /** The directory as it is populated at startup (`CountryCapital`). */
  const CountryCapital: Directory := map[
    "Russia" := "Moscow",
    "USA" := "Washington, D.C.",
    "Germany" := "Berlin",
    "France" := "Paris",
    "China" := "Beijing",
    "Japan" := "Tokyo",
    "Brazil" := "Brasília",
    "Canada" := "Ottawa",
    "India" := "New Delhi",
    "South Africa" := "Pretoria",
    "Australia" := "Canberra",
    "United Kingdom" := "London",
    "Italy" := "Rome",
    "Mexico" := "Mexico City",
    "Turkey" := "Ankara"
  ]

  /** Every capital of the directory is a non-empty display string. */
  ghost predicate WellFormed(d: Directory)
  {
    forall c :: c in d ==> d[c] != ""
  }

  /** `e` is an entry of `d` whose country contains `key` and whose capital
      contains `value`. */
  ghost predicate IsMatch(d: Directory, key: string, value: string, e: Entry)
  {
    && e.country in d
    && d[e.country] == e.capital
    && Occurs(key, e.country)
    && Occurs(value, e.capital)
  }

  /** All entries of `d` that match the filter. */
  ghost function Matching(d: Directory, key: string, value: string): (r: set<Entry>)
    ensures forall e :: e in r <==> IsMatch(d, key, value, e)
    ensures |r| <= |d|
  {
    var r := set c | c in d && Occurs(key, c) && Occurs(value, d[c]) :: Entry(c, d[c]);
    MatchingBound(d, r);
    r
  }

  /** A set of entries of `d` with distinct countries is no larger than `d`. */
  lemma MatchingBound(d: Directory, r: set<Entry>)
    requires forall e :: e in r ==> e.country in d && d[e.country] == e.capital
    ensures |r| <= |d|
  {
    var countries := set e | e in r :: e.country;
    assert countries <= d.Keys;
    EntriesByCountry(r, countries);
    SubsetSize(countries, d.Keys);
  }

  lemma {:induction false} SubsetSize<T>(a: set<T>, b: set<T>)
    requires a <= b
    ensures |a| <= |b|
    decreases |a|
  {
    if a != {} {
      var x :| x in a;
      SubsetSize(a - {x}, b - {x});
    }
  }

  lemma {:induction false} EntriesByCountry(r: set<Entry>, countries: set<string>)
    requires forall e, f :: e in r && f in r && e.country == f.country ==> e == f
    requires countries == set e | e in r :: e.country
    ensures |countries| == |r|
    decreases |r|
  {
    if r != {} {
      var e :| e in r;
      var r' := r - {e};
      var countries' := set f | f in r' :: f.country;
      assert countries == countries' + {e.country};
      assert e.country !in countries';
      EntriesByCountry(r', countries');
    }
  }

  /** The startup directory satisfies the directory invariant. */
  lemma InitialWellFormed()
    ensures WellFormed(CountryCapital)
    ensures "Russia" in CountryCapital && CountryCapital["Russia"] == "Moscow"
  {
  }
}
