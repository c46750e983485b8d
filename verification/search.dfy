/** The `/search` handler: filter the directory by a substring of the
    country and a substring of the capital. */
module SearchHandler {

  import opened Text
  import opened Directory
  import opened Http

  const MissingParameters := "Both key and value query parameters are required"
  const NoMatches := "No matching results found"

  /** No two entries of `es` are for the same country (hence none repeats). */
  predicate DistinctCountries(es: seq<Entry>)
  {
    forall i, j :: 0 <= i < j < |es| ==> es[i].country != es[j].country
  }

  /** Scan every entry of `d`, in an order the caller cannot rely on (Go's
      map iteration order is unspecified), and keep those whose country
      contains `key` and whose capital contains `value`. The result holds
      exactly the matching entries, each once. */
  method Filter(d: Directory, key: string, value: string) returns (result: seq<Entry>)
    ensures forall e :: e in result <==> IsMatch(d, key, value, e)
    ensures DistinctCountries(result)
    ensures |result| <= |d|
  {
    result := [];
    var remaining := d.Keys;
    while remaining != {}
      invariant remaining <= d.Keys
      invariant forall e :: e in result ==> IsMatch(d, key, value, e) && e.country !in remaining
      invariant forall c :: c in d && c !in remaining && Occurs(key, c) && Occurs(value, d[c]) ==> Entry(c, d[c]) in result
      invariant DistinctCountries(result)
      invariant |result| + |remaining| <= |d|
      decreases remaining
    {
      var k :| k in remaining;
      remaining := remaining - {k};
      ContainsCorrect(k, key);
      ContainsCorrect(d[k], value);
      if Contains(k, key) && Contains(d[k], value) {
        result := result + [Entry(k, d[k])];
      }
    }
  }

  /** `search`: 400 when either query parameter is missing or empty, 404
      when no entry matches, otherwise 200 with every matching entry once. */
  method Search(d: Directory, req: Request) returns (r: Response)
    ensures var key, value := Get(req.query, "key"), Get(req.query, "value");
      (key == "" || value == "") ==> r == Response(StatusBadRequest, Error(MissingParameters))
    ensures var key, value := Get(req.query, "key"), Get(req.query, "value");
      key != "" && value != "" && Matching(d, key, value) == {} ==>
        r == Response(StatusNotFound, Error(NoMatches))
    ensures var key, value := Get(req.query, "key"), Get(req.query, "value");
      key != "" && value != "" && Matching(d, key, value) != {} ==>
        && r.status == StatusOK
        && r.payload.JsonEntries?
        && |r.payload.entries| > 0
        && DistinctCountries(r.payload.entries)
        && (forall e :: e in r.payload.entries <==> e in Matching(d, key, value))
  {
    var key := Get(req.query, "key");
    var value := Get(req.query, "value");
    if key == "" || value == "" {
      return Fail(MissingParameters, StatusBadRequest);
    }
    var result := Filter(d, key, value);
    if |result| == 0 {
      assert forall e :: e !in Matching(d, key, value);
      return Fail(NoMatches, StatusNotFound);
    }
    assert result[0] in Matching(d, key, value);
    r := Response(StatusOK, JsonEntries(result));
  }

  /** Searching the startup directory for "Rus" in the country and "Mos" in
      the capital finds Russia/Moscow and nothing else. */
  lemma RussiaFound()
    ensures Matching(CountryCapital, "Rus", "Mos") == {Entry("Russia", "Moscow")}
  {
    var m := Matching(CountryCapital, "Rus", "Mos");
    forall e | e in m
      ensures e == Entry("Russia", "Moscow")
    {
      FirstCharOccurs("Rus", e.country);
      OnlyRussiaHasUpperR(e.country);
    }
    assert IsPrefix("Rus", "Russia"[0..]);
    assert IsPrefix("Mos", "Moscow"[0..]);
    assert IsMatch(CountryCapital, "Rus", "Mos", Entry("Russia", "Moscow"));
  }

  lemma OnlyRussiaHasUpperR(c: string)
    requires c in CountryCapital && 'R' in c
    ensures c == "Russia" && CountryCapital[c] == "Moscow"
  {
  }

  /** No country of the startup directory contains "Zzz", whatever the
      capital filter; by the contract of `Search`, a search for key "Zzz"
      with any non-empty value therefore answers 404 (an empty value still
      answers 400). */
  lemma NothingMatchesZzz(value: string)
    ensures Matching(CountryCapital, "Zzz", value) == {}
  {
    var m := Matching(CountryCapital, "Zzz", value);
    forall e | e in m
      ensures false
    {
      FirstCharOccurs("Zzz", e.country);
      NoCountryHasZ(e.country);
    }
  }

  lemma NoCountryHasZ(c: string)
    requires c in CountryCapital
    ensures 'Z' !in c
  {
  }
}
