/**
 * The two queries the screens run over the meal catalog: a case-insensitive
 * substring search on the name, where an empty query shows everything, and
 * a split by creator label with exact, case-sensitive matching. Both keep
 * the catalog's order. The catalog is a parameter; the screens pass
 * `Meals.AllMeals`.
 */
module CatalogQuery {
  import opened Seqs
  import opened Meals

  /** Lower-cases an ASCII capital letter and leaves every other character alone. */
  function LowerChar(c: char): char {
    if 'A' <= c <= 'Z' then (c as int + 32) as char else c
  }

  /** The case-folded form of a string, character by character. */
  function Fold(s: string): (r: string)
    ensures |r| == |s|
    ensures forall i :: 0 <= i < |s| ==> r[i] == LowerChar(s[i])
  {
    if s == [] then [] else [LowerChar(s[0])] + Fold(s[1..])
  }

  /** `needle` occurs as a contiguous run of characters in `hay`. */
  predicate Contains(hay: string, needle: string)
    decreases |hay|
  {
    (|needle| <= |hay| && hay[..|needle|] == needle)
    || (|hay| > 0 && Contains(hay[1..], needle))
  }

  /** Folding a run of `hay` gives the same run of the folded `hay`. */
  lemma {:induction false} FoldPreservesContains(hay: string, needle: string)
    ensures Contains(hay, needle) ==> Contains(Fold(hay), Fold(needle))
    decreases |hay|
  {
    if |needle| <= |hay| && hay[..|needle|] == needle {
      assert Fold(hay)[..|needle|] == Fold(needle);
    } else if |hay| > 0 {
      FoldPreservesContains(hay[1..], needle);
      assert Fold(hay)[1..] == Fold(hay[1..]);
    }
  }

  /** A run of `hay` is never longer than `hay`. */
  lemma {:induction false} ContainsNotLonger(hay: string, needle: string)
    ensures Contains(hay, needle) ==> |needle| <= |hay|
    decreases |hay|
  {
    if |hay| > 0 {
      ContainsNotLonger(hay[1..], needle);
    }
  }

  /**
   * `name.localizedCaseInsensitiveContains(query)`, over ASCII case folding:
   * the empty query matches every name, an exact-case substring always
   * matches, and no query longer than the name does.
   */
  predicate NameMatches(m: Meal, query: string)
    ensures |query| == 0 ==> NameMatches(m, query)
    ensures Contains(m.name, query) ==> NameMatches(m, query)
    ensures NameMatches(m, query) ==> |query| <= |m.name|
  {
    FoldPreservesContains(m.name, query);
    ContainsNotLonger(Fold(m.name), Fold(query));
    Contains(Fold(m.name), Fold(query))
  }

  /** The filter closure of a non-empty search. */
  function MatchesQuery(query: string): Meal -> bool {
    (m: Meal) => NameMatches(m, query)
  }

  /** The filter closure `$0.creator == creator`. */
  function CreatedBy(creator: string): Meal -> bool {
    (m: Meal) => m.creator == creator
  }

  /** The filter closure `$0.creator != creator`. */
  function NotCreatedBy(creator: string): Meal -> bool {
    (m: Meal) => m.creator != creator
  }

  /**
   * The search screens' result list: the whole catalog for an empty query,
   * otherwise exactly the entries whose name contains the query ignoring
   * case.
   */
  function FilterByText(catalog: seq<Meal>, query: string): (r: seq<Meal>)
    ensures |query| == 0 ==> r == catalog
    ensures forall m :: m in r <==> m in catalog && (|query| == 0 || NameMatches(m, query))
  {
    if |query| == 0 then catalog
    else
      FilterMembers(catalog, MatchesQuery(query));
      Filter(catalog, MatchesQuery(query))
  }

  /** The entries whose creator is exactly `creator`. */
  function OwnedBy(catalog: seq<Meal>, creator: string): (r: seq<Meal>)
    ensures forall m :: m in r <==> m in catalog && m.creator == creator
  {
    FilterMembers(catalog, CreatedBy(creator));
    Filter(catalog, CreatedBy(creator))
  }

  /** The entries whose creator is anything but `creator`. */
  function NotOwnedBy(catalog: seq<Meal>, creator: string): (r: seq<Meal>)
    ensures forall m :: m in r <==> m in catalog && m.creator != creator
  {
    FilterMembers(catalog, NotCreatedBy(creator));
    Filter(catalog, NotCreatedBy(creator))
  }

  /**
   * A search keeps every copy of a matching entry and no copy of any other,
   * so duplicates in the catalog stay duplicated in the results.
   */
  lemma FilterByTextKeepsCopies(catalog: seq<Meal>, query: string)
    ensures forall m ::
      multiset(FilterByText(catalog, query))[m] == if |query| == 0 || NameMatches(m, query) then multiset(catalog)[m] else 0
  {
    if |query| > 0 {
      FilterCount(catalog, MatchesQuery(query));
    }
  }

  /** The owned entries keep every copy of an entry by `creator` and none of any other. */
  lemma OwnedByKeepsCopies(catalog: seq<Meal>, creator: string)
    ensures forall m ::
      multiset(OwnedBy(catalog, creator))[m] == if m.creator == creator then multiset(catalog)[m] else 0
  {
    FilterCount(catalog, CreatedBy(creator));
  }

  /** A search never reorders or invents entries, so it is never longer than the catalog. */
  lemma FilterByTextPreservesOrder(catalog: seq<Meal>, query: string)
    ensures IsSubsequence(FilterByText(catalog, query), catalog)
    ensures |FilterByText(catalog, query)| <= |catalog|
  {
    if |query| == 0 {
      SubsequenceReflexive(catalog);
    } else {
      FilterIsSubsequence(catalog, MatchesQuery(query));
    }
  }

  /** Searching the results again with the same query changes nothing. */
  lemma FilterByTextIdempotent(catalog: seq<Meal>, query: string)
    ensures FilterByText(FilterByText(catalog, query), query) == FilterByText(catalog, query)
  {
    if |query| > 0 {
      FilterIdempotent(catalog, MatchesQuery(query));
    }
  }

  /**
   * The owned and the other entries split the catalog: together they hold
   * every entry exactly as often as the catalog does, and each keeps the
   * catalog's order.
   */
  lemma CreatorPartition(catalog: seq<Meal>, creator: string)
    ensures |OwnedBy(catalog, creator)| + |NotOwnedBy(catalog, creator)| == |catalog|
    ensures multiset(OwnedBy(catalog, creator)) + multiset(NotOwnedBy(catalog, creator)) == multiset(catalog)
    ensures IsSubsequence(OwnedBy(catalog, creator), catalog)
    ensures IsSubsequence(NotOwnedBy(catalog, creator), catalog)
  {
    FilterPartition(catalog, CreatedBy(creator), NotCreatedBy(creator));
    FilterIsSubsequence(catalog, CreatedBy(creator));
    FilterIsSubsequence(catalog, NotCreatedBy(creator));
  }

  /** A catalog made only of `creator`'s entries is all owned. */
  lemma OwnedByAllOwned(catalog: seq<Meal>, creator: string)
    requires forall i :: 0 <= i < |catalog| ==> catalog[i].creator == creator
    ensures OwnedBy(catalog, creator) == catalog
  {
    FilterKeepsAll(catalog, CreatedBy(creator));
  }

  /** A catalog with no entry of `creator`'s has nothing owned. */
  lemma OwnedByNoneOwned(catalog: seq<Meal>, creator: string)
    requires forall i :: 0 <= i < |catalog| ==> catalog[i].creator != creator
    ensures OwnedBy(catalog, creator) == []
  {
    FilterDropsAll(catalog, CreatedBy(creator));
  }

  /** The owned entries of two catalogs joined are those of the first, then those of the second. */
  lemma OwnedByAppend(a: seq<Meal>, b: seq<Meal>, creator: string)
    ensures OwnedBy(a + b, creator) == OwnedBy(a, creator) + OwnedBy(b, creator)
  {
    FilterAppend(a, b, CreatedBy(creator));
  }

  /** Creator matching is case-sensitive: an entry by "you" is not one of "You"'s. */
  lemma CreatorMatchIsCaseSensitive(catalog: seq<Meal>, m: Meal)
    requires m in catalog && m.creator == "you"
    ensures m in NotOwnedBy(catalog, You) && m !in OwnedBy(catalog, You)
  {
    assert m.creator[0] != You[0];
  }

  /** The query "taco" finds "Tacos". */
  lemma TacoMatchesTacos(m: Meal)
    requires m.name == "Tacos"
    ensures NameMatches(m, "taco")
  {
    var hay, needle := Fold(m.name), Fold("taco");
    assert needle == "taco";
    assert hay[..4] == needle;
  }
}
