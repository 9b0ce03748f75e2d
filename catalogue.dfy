/**
 * The home page's catalogue: which list it shows (the backend's or the
 * built-in one), the case-insensitive search over it, and the location
 * badge on each card.
 */
module Catalogue {
  import opened Wrappers
  import opened Text

  datatype Experience = Experience(
    id: string,
    title: string,
    location: string,
    description: string,
    price: int,
    imageUrl: string,
    category: string)

  const CardDescription: string := "Curated small-group experience. Certified guide. Safety first with gear included."

  /** The built-in catalogue shown when the backend has too little to offer. */
  const MockExperiences: seq<Experience> := [
    Experience("1", "Kayaking", "Udupi", CardDescription, 999,
      "https://images.unsplash.com/photo-1544551763-46a013bb70d5?w=600&h=400&fit=crop", "Water Sports"),
    Experience("2", "Nandi Hills Sunrise", "Bangalore", CardDescription, 899,
      "https://images.unsplash.com/photo-1506905925346-21bda4d32df4?w=600&h=400&fit=crop", "Adventure"),
    Experience("3", "Coffee Trail", "Coorg", CardDescription, 1299,
      "https://images.unsplash.com/photo-1559827260-dc66d52bef19?w=600&h=400&fit=crop", "Nature"),
    Experience("4", "Kayaking", "Udupi, Karnataka", CardDescription, 999,
      "https://images.unsplash.com/photo-1544551763-46a013bb70d5?w=600&h=400&fit=crop", "Water Sports"),
    Experience("5", "Nandi Hills Sunrise", "Bangalore", CardDescription, 899,
      "https://images.unsplash.com/photo-1506905925346-21bda4d32df4?w=600&h=400&fit=crop", "Adventure"),
    Experience("6", "Boat Cruise", "Sunderban", CardDescription, 999,
      "https://images.unsplash.com/photo-1569263979104-865ab7cd8d13?w=600&h=400&fit=crop", "Water Sports"),
    Experience("7", "Bunjee Jumping", "Manali", CardDescription, 999,
      "https://images.unsplash.com/photo-1534452203293-494d7ddbf7e0?w=600&h=400&fit=crop", "Adventure"),
    Experience("8", "Coffee Trail", "Coorg", CardDescription, 1299,
      "https://images.unsplash.com/photo-1559827260-dc66d52bef19?w=600&h=400&fit=crop", "Nature")
  ]

  const MinBackendItems: nat := 8

  /** What fetching `/api/experiences` came to: a thrown error, or a body whose `data` may be missing. */
  datatype FetchOutcome = FetchFailed | Fetched(data: Option<seq<Experience>>)

  /** The list the page keeps: the backend's when it has at least eight items, else the built-in one. */
  function ChooseCatalogue(outcome: FetchOutcome): (r: seq<Experience>)
    ensures |r| >= MinBackendItems
    ensures r == MockExperiences || (outcome.Fetched? && outcome.data == Some(r))
    ensures outcome.Fetched? && outcome.data.Some? && |outcome.data.value| >= MinBackendItems ==> r == outcome.data.value
  {
    match outcome
    case Fetched(Some(items)) => if |items| >= MinBackendItems then items else MockExperiences
    case _ => MockExperiences
  }

  /** Title, location or category contains the query, ignoring case. */
  predicate Matches(e: Experience, query: string)
  {
    var q := ToLower(query);
    Includes(ToLower(e.title), q) || Includes(ToLower(e.location), q) || Includes(ToLower(e.category), q)
  }

  /** `xs` keeps some of the items of `ys`, in their order. */
  ghost predicate IsSubsequence<T>(xs: seq<T>, ys: seq<T>)
    decreases |ys|
  {
    xs == [] || (ys != [] && ((xs[0] == ys[0] && IsSubsequence(xs[1..], ys[1..])) || IsSubsequence(xs, ys[1..])))
  }

  /** A subsequence is never longer. */
  lemma {:induction false} SubsequenceShorter<T>(xs: seq<T>, ys: seq<T>)
    requires IsSubsequence(xs, ys)
    ensures |xs| <= |ys|
    decreases |ys|
  {
    if xs != [] {
      if xs[0] == ys[0] && IsSubsequence(xs[1..], ys[1..]) {
        SubsequenceShorter(xs[1..], ys[1..]);
      } else {
        SubsequenceShorter(xs, ys[1..]);
      }
    }
  }

  /** `experiences.filter(exp => Matches(exp, query))`. */
  function Keep(exps: seq<Experience>, query: string): (r: seq<Experience>)
    ensures IsSubsequence(r, exps)
    ensures forall e :: multiset(r)[e] == if Matches(e, query) then multiset(exps)[e] else 0
  {
    if exps == [] then []
    else
      var rest := Keep(exps[1..], query);
      assert exps == [exps[0]] + exps[1..];
      if Matches(exps[0], query) then [exps[0]] + rest else rest
  }

  /** The search effect: the empty query shows everything, otherwise the matching items. */
  function Search(exps: seq<Experience>, query: string): (r: seq<Experience>)
    ensures query == "" ==> r == exps
    ensures query != "" ==> r == Keep(exps, query)
  {
    if query == "" then exps else Keep(exps, query)
  }

  /** Search keeps exactly the matching items, in their order, and never adds or lengthens. */
  lemma SearchKeepsExactlyMatches(exps: seq<Experience>, query: string)
    requires query != ""
    ensures IsSubsequence(Search(exps, query), exps)
    ensures |Search(exps, query)| <= |exps|
    ensures forall e :: e in Search(exps, query) <==> e in exps && Matches(e, query)
  {
    var r := Search(exps, query);
    SubsequenceShorter(r, exps);
    forall e
      ensures e in r <==> e in exps && Matches(e, query)
    {
      assert e in r <==> multiset(r)[e] > 0;
      assert e in exps <==> multiset(exps)[e] > 0;
    }
  }

  /** Every item matches the empty query, so the shortcut for "" changes nothing. */
  lemma {:induction false} KeepEmptyQuery(exps: seq<Experience>)
    ensures Keep(exps, "") == exps
  {
    if exps != [] {
      IncludesEmpty(ToLower(exps[0].title));
      KeepEmptyQuery(exps[1..]);
    }
  }

  /** Queries that lower-case alike give the same results. */
  lemma {:induction false} SearchIgnoresCase(exps: seq<Experience>, query: string, other: string)
    requires ToLower(query) == ToLower(other)
    ensures Search(exps, query) == Search(exps, other)
  {
    if query != "" && exps != [] {
      KeepDependsOnLowerCase(exps, query, other);
    }
  }

  lemma {:induction false} KeepDependsOnLowerCase(exps: seq<Experience>, query: string, other: string)
    requires ToLower(query) == ToLower(other)
    ensures Keep(exps, query) == Keep(exps, other)
  {
    if exps != [] {
      KeepDependsOnLowerCase(exps[1..], query, other);
    }
  }

  /** Upper-casing the query first gives the same results. */
  lemma SearchOfUpperCasedQuery(exps: seq<Experience>, query: string)
    ensures Search(exps, ToUpper(query)) == Search(exps, query)
  {
    ToLowerOfToUpper(query);
    SearchIgnoresCase(exps, ToUpper(query), query);
  }

  /** `location.split(',')[0]`: the text before the first comma, or all of it. */
  function LocationBadge(location: string): (r: string)
    ensures r <= location
    ensures ',' !in r
    ensures r == location || location[|r|] == ','
  {
    if location == [] || location[0] == ',' then []
    else [location[0]] + LocationBadge(location[1..])
  }

  /** The badge of a location is exactly its part before the first comma. */
  lemma {:induction false} LocationBadgeOfSplit(before: string, after: string)
    requires ',' !in before
    requires after == [] || after[0] == ','
    ensures LocationBadge(before + after) == before
  {
    if before == [] {
      assert before + after == after;
    } else {
      assert (before + after)[1..] == before[1..] + after;
      LocationBadgeOfSplit(before[1..], after);
    }
  }

  lemma LocationBadgeExamples()
    ensures LocationBadge("Udupi, Karnataka") == "Udupi"
    ensures LocationBadge("Coorg") == "Coorg"
  {
    assert "Udupi, Karnataka" == "Udupi" + ", Karnataka";
    LocationBadgeOfSplit("Udupi", ", Karnataka");
    assert "Coorg" == "Coorg" + "";
    LocationBadgeOfSplit("Coorg", "");
  }
}
