// The benchmark's query catalog and the filters `load_queries` applies to it.
module BenchmarkCatalog {
  import opened Seqs

  datatype Query = Query(
    id: string,
    query: string,
    category: string,
    difficulty: string,
    expectedFacts: seq<string>,
    expectedAnswer: string)

  /** The command-line filters. A filter that was not supplied is empty: Python's
      `if ids:` treats `None` and an empty list (or `""`) alike, as "no filter". */
  datatype Filters = Filters(category: string, ids: seq<string>, difficulties: seq<string>)

  const NoFilters := Filters("", [], [])

  predicate PassesIds(q: Query, f: Filters) { f.ids == [] || q.id in f.ids }
  predicate PassesCategory(q: Query, f: Filters) { f.category == "" || q.category == f.category }
  predicate PassesDifficulty(q: Query, f: Filters) { f.difficulties == [] || q.difficulty in f.difficulties }

  // The three comprehension conditions of `load_queries`.
  function InIds(f: Filters): Query -> bool { (q: Query) => q.id in f.ids }
  function InCategory(f: Filters): Query -> bool { (q: Query) => q.category == f.category }
  function InDifficulties(f: Filters): Query -> bool { (q: Query) => q.difficulty in f.difficulties }

  /** The three filters applied one after another, each only when supplied. */
  function LoadQueries(catalog: seq<Query>, f: Filters): seq<Query> {
    var byId := if f.ids != [] then Filter(catalog, InIds(f)) else catalog;
    var byCategory := if f.category != "" then Filter(byId, InCategory(f)) else byId;
    if f.difficulties != [] then Filter(byCategory, InDifficulties(f)) else byCategory
  }

  predicate Passes(q: Query, f: Filters) {
    PassesIds(q, f) && PassesCategory(q, f) && PassesDifficulty(q, f)
  }

  function Passing(f: Filters): Query -> bool { (q: Query) => Passes(q, f) }

  lemma {:induction false} FilterSame(s: seq<Query>, p: Query -> bool, q: Query -> bool)
    requires forall x :: p(x) == q(x)
    ensures Filter(s, p) == Filter(s, q)
  {
    if s != [] {
      FilterSame(s[1..], p, q);
    }
  }

  lemma {:induction false} FilterBoth(s: seq<Query>, p: Query -> bool, q: Query -> bool, both: Query -> bool)
    requires forall x :: both(x) == (p(x) && q(x))
    ensures Filter(Filter(s, p), q) == Filter(s, both)
  {
    if s != [] {
      FilterBoth(s[1..], p, q, both);
      if p(s[0]) {
        assert Filter(s, p)[1..] == Filter(s[1..], p);
      }
    }
  }

  lemma FilterStep(s: seq<Query>, supplied: bool, p: Query -> bool, pass: Query -> bool)
    requires forall x :: pass(x) == (!supplied || p(x))
    ensures (if supplied then Filter(s, p) else s) == Filter(s, pass)
  {
    if supplied {
      FilterSame(s, p, pass);
    } else {
      FilterAll(s, pass);
    }
  }

  /** `load_queries` keeps, in catalog order, exactly the queries that pass every
      supplied filter: the three passes equal one comprehension over their conjunction. */
  lemma LoadQueriesKeepsPassing(catalog: seq<Query>, f: Filters)
    ensures LoadQueries(catalog, f) == Filter(catalog, Passing(f))
  {
    var p1 := (q: Query) => PassesIds(q, f);
    var p2 := (q: Query) => PassesCategory(q, f);
    var p3 := (q: Query) => PassesDifficulty(q, f);
    var p12 := (q: Query) => PassesIds(q, f) && PassesCategory(q, f);
    FilterStep(catalog, f.ids != [], InIds(f), p1);
    var a := Filter(catalog, p1);
    FilterStep(a, f.category != "", InCategory(f), p2);
    var b := Filter(a, p2);
    FilterStep(b, f.difficulties != [], InDifficulties(f), p3);
    FilterBoth(catalog, p1, p2, p12);
    FilterBoth(catalog, p12, p3, Passing(f));
  }

  /** Membership in the loaded list, stated outright. */
  lemma LoadQueriesMembers(catalog: seq<Query>, f: Filters, q: Query)
    ensures q in LoadQueries(catalog, f) <==> q in catalog && Passes(q, f)
  {
    LoadQueriesKeepsPassing(catalog, f);
  }

  /** With no filter supplied the whole catalog comes back unchanged. */
  lemma NoFiltersKeepAll(catalog: seq<Query>)
    ensures LoadQueries(catalog, NoFilters) == catalog
  {
  }
}
