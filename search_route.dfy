/** `GET /api/restaurants/search?name=<query>`: reject a missing or blank
    query with 400, otherwise find the restaurants whose name contains the
    query ignoring case, newest submission first, annotate each with the
    risk of its oil type, and answer either an empty list with a message or
    the list with its count; a thrown error is a 500 with its message. */
module SearchRoute {
  import opened Wrappers
  import opened Strings
  import opened RiskAssessment
  import opened Restaurant
  import opened Http

  const SEARCH_NAME_REQUIRED := "Search name is required"
  const NO_MATCHES := "No restaurants found matching the search criteria"

  /** The `name` filter `{$regex: query, $options: 'i'}` for a query
      without regular-expression metacharacters: the name contains the
      query, letter case ignored. */
  predicate NameMatches(query: string, name: string) {
    ContainsIgnoreCase(name, query)
  }

  /** `find`: the records whose name matches, in collection order. */
  function MatchingRecords(records: seq<Record>, query: string): (m: seq<Record>)
    ensures forall r :: multiset(m)[r] == if NameMatches(query, r.name) then multiset(records)[r] else 0
  {
    if records == [] then []
    else
      var rest := MatchingRecords(records[1..], query);
      assert records == [records[0]] + records[1..];
      if NameMatches(query, records[0].name) then [records[0]] + rest else rest
  }

  predicate SortedByDateDesc(s: seq<Record>) {
    forall i, j :: 0 <= i < j < |s| ==> s[i].submittedDate >= s[j].submittedDate
  }

  /** Insert `x` before the first record that is not newer than it. */
  function InsertByDate(x: Record, s: seq<Record>): (r: seq<Record>)
    ensures multiset(r) == multiset(s) + multiset{x}
  {
    if s == [] || s[0].submittedDate <= x.submittedDate then [x] + s
    else
      assert s == [s[0]] + s[1..];
      [s[0]] + InsertByDate(x, s[1..])
  }

  /** `.sort({submittedDate: -1})`: newest first; records with equal dates
      keep their collection order. */
  function SortByDateDesc(s: seq<Record>): (r: seq<Record>)
    ensures multiset(r) == multiset(s)
  {
    if s == [] then []
    else
      assert s == [s[0]] + s[1..];
      InsertByDate(s[0], SortByDateDesc(s[1..]))
  }

  /** Inserting into a newest-first sequence keeps it newest-first. */
  lemma {:induction false} InsertByDateSorted(x: Record, s: seq<Record>)
    requires SortedByDateDesc(s)
    ensures SortedByDateDesc(InsertByDate(x, s))
  {
    if s != [] && s[0].submittedDate > x.submittedDate {
      var rest := InsertByDate(x, s[1..]);
      InsertByDateSorted(x, s[1..]);
      InsertByDateBounded(x, s[1..], s[0].submittedDate);
      ConsSorted(s[0], rest);
    }
  }

  /** A record no older than any in a newest-first sequence can go in front. */
  lemma ConsSorted(h: Record, rest: seq<Record>)
    requires SortedByDateDesc(rest)
    requires forall k :: 0 <= k < |rest| ==> h.submittedDate >= rest[k].submittedDate
    ensures SortedByDateDesc([h] + rest)
  {
    var r := [h] + rest;
    forall i, j | 0 <= i < j < |r| ensures r[i].submittedDate >= r[j].submittedDate {
      assert r[j] == rest[j - 1];
      if i > 0 {
        assert r[i] == rest[i - 1];
      }
    }
  }

  /** A date no earlier than `x`'s and every date in `s` is no earlier than
      any date after the insertion. */
  lemma {:induction false} InsertByDateBounded(x: Record, s: seq<Record>, d: int)
    requires d >= x.submittedDate
    requires forall k :: 0 <= k < |s| ==> d >= s[k].submittedDate
    ensures forall k :: 0 <= k < |InsertByDate(x, s)| ==> d >= InsertByDate(x, s)[k].submittedDate
  {
    if s != [] && s[0].submittedDate > x.submittedDate {
      InsertByDateBounded(x, s[1..], d);
      var rest := InsertByDate(x, s[1..]);
      assert InsertByDate(x, s) == [s[0]] + rest;
    }
  }

  /** The sort yields a newest-first sequence. */
  lemma {:induction false} SortByDateDescSorted(s: seq<Record>)
    ensures SortedByDateDesc(SortByDateDesc(s))
  {
    if s != [] {
      SortByDateDescSorted(s[1..]);
      InsertByDateSorted(s[0], SortByDateDesc(s[1..]));
    }
  }

  /** The records the query finds, in response order. */
  function SearchResults(records: seq<Record>, query: string): seq<Record> {
    SortByDateDesc(MatchingRecords(records, query))
  }

  /** `.map`: each record with the verdict on its oil type. */
  function WithRisk(records: seq<Record>): seq<RestaurantWithRisk> {
    seq(|records|, i requires 0 <= i < |records| =>
      RestaurantWithRisk(records[i], AssessRisk(records[i].oilType)))
  }

  /** The query is missing, or nothing is left of it once its trailing
      whitespace is dropped. */
  predicate BlankQuery(query: Option<string>) {
    query.None? || TrimEnd(query.value) == ""
  }

  /** The response, given the collection, the `name` query parameter and
      the message of a failed connection or query. */
  function GetResponse(records: seq<Record>, query: Option<string>, fault: Option<string>): Response {
    if BlankQuery(query) then ErrorResponse(400, SEARCH_NAME_REQUIRED)
    else if fault.Some? then ErrorResponse(500, fault.value)
    else
      var found := SearchResults(records, query.value);
      if |found| == 0 then Response(200, true, Hits([]), None, Some(NO_MATCHES), None)
      else
        var data := WithRisk(found);
        Response(200, true, Hits(data), Some(|data|), None, None)
  }

  /** The handler. It reads the collection and changes nothing; over a
      collection whose records all passed validation, no hit it returns is
      classified Unknown. */
  method Get(store: RestaurantCollection, query: Option<string>, fault: Option<string>) returns (response: Response)
    ensures response == GetResponse(store.records, query, fault)
    ensures store.Valid() && response.data.Hits? ==>
      forall i :: 0 <= i < |response.data.items| ==> response.data.items[i].risk.riskLevel != Unknown
  {
    response := GetResponse(store.records, query, fault);
    if store.Valid() {
      ValidStoreHasKnownRisks(store.records, query, fault);
    }
  }

  // ---------------------------------------------------------------------
  // Lemmas

  /** The 400 is answered exactly for a missing query or one made only of
      whitespace, and it is decided before the collection is consulted:
      neither the records nor a store fault make a difference. */
  lemma GetBlankQuery(records: seq<Record>, query: Option<string>, fault: Option<string>)
    ensures GetResponse(records, query, fault).status == 400 <==>
      query.None? || AllWhitespace(query.value)
    ensures GetResponse(records, query, fault).status == 400 ==>
      GetResponse(records, query, fault) == ErrorResponse(400, SEARCH_NAME_REQUIRED) == GetResponse([], query, None)
  {
    if query.Some? {
      TrimEndEmpty(query.value);
    }
  }

  /** A store failure after validation is a 500 with its message. */
  lemma GetFault(records: seq<Record>, query: string, fault: string)
    requires !AllWhitespace(query)
    ensures GetResponse(records, Some(query), Some(fault)) == ErrorResponse(500, fault)
  {
    TrimEndEmpty(query);
  }

  /** No match is a success with an empty list and the no-match message,
      and no `count`. */
  lemma GetNoMatches(records: seq<Record>, query: string)
    requires !AllWhitespace(query)
    requires forall r :: r in records ==> !NameMatches(query, r.name)
    ensures GetResponse(records, Some(query), None)
         == Response(200, true, Hits([]), None, Some(NO_MATCHES), None)
  {
    TrimEndEmpty(query);
  }

  /** With matches: every stored record that matches appears, as often as
      it is stored, and nothing else; newest first; element i carries the
      verdict on its own oil type; `count` is the length of `data`. */
  lemma GetMatches(records: seq<Record>, query: string, r: Record)
    requires !AllWhitespace(query)
    requires r in records && NameMatches(query, r.name)
    ensures var response := GetResponse(records, Some(query), None);
      && response.status == 200 && response.success
      && response.data.Hits? && response.message == None && response.error == None
      && response.count == Some(|response.data.items|)
      && |response.data.items| == |SearchResults(records, query)| > 0
      && (forall i :: 0 <= i < |response.data.items| ==>
            response.data.items[i] == RestaurantWithRisk(SearchResults(records, query)[i],
                                                         AssessRisk(SearchResults(records, query)[i].oilType)))
      && (forall i, j :: 0 <= i < j < |response.data.items| ==>
            response.data.items[i].restaurant.submittedDate >= response.data.items[j].restaurant.submittedDate)
      && (forall x :: multiset(SearchResults(records, query))[x] ==
            if NameMatches(query, x.name) then multiset(records)[x] else 0)
  {
    TrimEndEmpty(query);
    var found := SearchResults(records, query);
    assert multiset(found)[r] > 0;
    SortByDateDescSorted(MatchingRecords(records, query));
  }

  /** A record whose name contains the query verbatim is always found. */
  lemma VerbatimNameFound(records: seq<Record>, query: string, r: Record)
    requires !AllWhitespace(query)
    requires r in records && IsSubstring(query, r.name)
    ensures GetResponse(records, Some(query), None).data.Hits?
    ensures RestaurantWithRisk(r, AssessRisk(r.oilType)) in GetResponse(records, Some(query), None).data.items
  {
    SubstringIgnoringCase(query, r.name);
    GetMatches(records, query, r);
    var found := SearchResults(records, query);
    assert r in multiset(found);
    var i :| 0 <= i < |found| && found[i] == r;
    assert GetResponse(records, Some(query), None).data.items[i] == RestaurantWithRisk(r, AssessRisk(r.oilType));
  }

  /** Letter case in the query makes no difference to the response. */
  lemma GetIgnoresQueryCase(records: seq<Record>, q1: string, q2: string, fault: Option<string>)
    requires ToLower(q1) == ToLower(q2)
    ensures GetResponse(records, Some(q1), fault) == GetResponse(records, Some(q2), fault)
  {
    TrimEndEmpty(q1);
    TrimEndEmpty(q2);
    AllWhitespaceLower(q1);
    AllWhitespaceLower(q2);
    MatchingIgnoresQueryCase(records, q1, q2);
  }

  lemma {:induction false} MatchingIgnoresQueryCase(records: seq<Record>, q1: string, q2: string)
    requires ToLower(q1) == ToLower(q2)
    ensures MatchingRecords(records, q1) == MatchingRecords(records, q2)
  {
    if records != [] {
      MatchingIgnoresQueryCase(records[1..], q1, q2);
    }
  }

  /** When every stored record passed validation, no result is classified
      Unknown. */
  lemma ValidStoreHasKnownRisks(records: seq<Record>, query: Option<string>, fault: Option<string>)
    requires forall r :: r in records ==> r.oilType in OIL_TYPES
    ensures var response := GetResponse(records, query, fault);
      response.data.Hits? ==>
        forall i :: 0 <= i < |response.data.items| ==> response.data.items[i].risk.riskLevel != Unknown
  {
    var response := GetResponse(records, query, fault);
    if response.data.Hits? {
      assert !BlankQuery(query) && fault.None?;
      var found := SearchResults(records, query.value);
      assert response.data.items == WithRisk(found);
      forall i | 0 <= i < |found|
        ensures AssessRisk(found[i].oilType).riskLevel != Unknown
      {
        assert found[i] in multiset(found);
        assert found[i] in multiset(records);
        OilTypeHasKnownRisk(found[i].oilType);
      }
    }
  }
}
