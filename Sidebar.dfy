/** The personality search of src/components/Sidebar.tsx: the catalog
    filtered, in order, to the entries whose lower-cased name or description
    includes the lower-cased query. */
module Sidebar {
  import opened Strings
  import opened Catalog

  /** The filter's callback. */
  predicate Matches(p: Personality, query: string)
    ensures query == "" ==> Matches(p, query)
  {
    Contains(Lower(p.name), Lower(query)) || Contains(Lower(p.description), Lower(query))
  }

  /** `personalities.filter(...)`: the matching entries, in catalog order. */
  function Filter(catalog: seq<Personality>, query: string): (r: seq<Personality>)
    ensures |r| <= |catalog|
    ensures forall p :: p in r ==> p in catalog && Matches(p, query)
    ensures forall p :: p in catalog && Matches(p, query) ==> p in r
  {
    if catalog == [] then []
    else if Matches(catalog[0], query) then [catalog[0]] + Filter(catalog[1..], query)
    else Filter(catalog[1..], query)
  }

  /** `sub` is `s` with some entries dropped and the rest kept in order. */
  predicate IsSubsequence<T(==)>(sub: seq<T>, s: seq<T>)
    decreases |s|
  {
    if sub == [] then true
    else if s == [] then false
    else if sub[0] == s[0] then IsSubsequence(sub[1..], s[1..])
    else IsSubsequence(sub, s[1..])
  }

  lemma {:induction false} FilterIsSubsequence(catalog: seq<Personality>, query: string)
    ensures IsSubsequence(Filter(catalog, query), catalog)
  {
    if catalog != [] {
      FilterIsSubsequence(catalog[1..], query);
      var rest := Filter(catalog[1..], query);
      if !Matches(catalog[0], query) {
        SubsequenceSkipsHead(rest, catalog);
      } else {
        assert ([catalog[0]] + rest)[1..] == rest;
      }
    }
  }

  /** A subsequence of the tail is a subsequence of the whole. */
  lemma {:induction false} SubsequenceSkipsHead<T>(sub: seq<T>, s: seq<T>)
    requires s != [] && IsSubsequence(sub, s[1..])
    ensures IsSubsequence(sub, s)
    decreases |s|, 0
  {
    if sub != [] && sub[0] == s[0] {
      // sub[1..] fits in s[1..] because all of sub does
      SubsequenceDropHead(sub, s[1..]);
    }
  }

  /** Dropping the first entry of a subsequence keeps it a subsequence. */
  lemma {:induction false} SubsequenceDropHead<T>(sub: seq<T>, s: seq<T>)
    requires sub != [] && IsSubsequence(sub, s)
    ensures IsSubsequence(sub[1..], s)
    decreases |s|, 1
  {
    if s != [] {
      if sub[0] == s[0] {
        SubsequenceSkipsHead(sub[1..], s);
      } else {
        SubsequenceDropHead(sub, s[1..]);
        SubsequenceSkipsHead(sub[1..], s);
      }
    }
  }

  /** An entry appears in the result as often as in the catalog when it
      matches, and not at all otherwise. */
  lemma {:induction false} FilterKeepsEveryMatch(catalog: seq<Personality>, query: string)
    ensures forall p ::
      multiset(Filter(catalog, query))[p] == (if Matches(p, query) then multiset(catalog)[p] else 0)
  {
    if catalog != [] {
      FilterKeepsEveryMatch(catalog[1..], query);
      assert catalog == [catalog[0]] + catalog[1..];
    }
  }

  /** The empty query matches every entry: the whole catalog comes back. */
  lemma {:induction false} EmptyQueryKeepsAll(catalog: seq<Personality>)
    ensures Filter(catalog, "") == catalog
  {
    if catalog != [] {
      assert Lower("") == "";
      assert Contains(Lower(catalog[0].name), "");
      EmptyQueryKeepsAll(catalog[1..]);
    }
  }

  /** The search is case-insensitive: the query's case does not matter. */
  lemma QueryCaseIgnored(catalog: seq<Personality>, query: string)
    ensures Filter(catalog, Lower(query)) == Filter(catalog, query)
  {
    LowerIdempotent(query);
  }
}
