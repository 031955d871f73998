/** Community discovery: the demo catalogue, the case-insensitive search and
    category filter, and the sort on one of three keys. */
module Discover {
  import opened Text

  datatype Community = Community(
    id: int,
    name: string,
    icon: string,
    description: string,
    memberCount: int,
    tags: seq<string>)

  /** The catalogue the page searches. */
  const CommunitiesData: seq<Community> := [
    Community(1, "Music Lovers", "🎵",
      "A community for sharing and discussing all genres of music. From classical to rock, jazz to hip-hop, we cover it all!",
      2478, ["Music", "Entertainment", "Arts"]),
    Community(2, "Foodies United", "🍔",
      "For those passionate about cooking, eating, and exploring new cuisines. Share recipes, restaurant recommendations, and food photos!",
      1853, ["Food", "Cooking", "Restaurants"]),
    Community(3, "Tech Talk", "💻",
      "Stay updated with the latest in technology. Discuss gadgets, programming, AI, and tech industry news.",
      3542, ["Technology", "Programming", "AI"]),
    Community(4, "Book Club", "📚",
      "A place for book enthusiasts to discuss literary works, share recommendations, and participate in reading challenges.",
      1265, ["Books", "Reading", "Literature"]),
    Community(5, "Fitness Group", "🏋️",
      "Join others on their fitness journey. Share workout routines, nutrition tips, and motivate each other to reach fitness goals.",
      2105, ["Fitness", "Health", "Workout"]),
    Community(6, "Travel Enthusiasts", "✈️",
      "For those who love exploring new places. Share travel stories, tips, photos, and plan group adventures.",
      1932, ["Travel", "Adventure", "Photography"]),
    Community(7, "Art & Design", "🎨",
      "A creative space for artists and designers to showcase their work, get feedback, and discuss techniques and trends.",
      1657, ["Art", "Design", "Creative"]),
    Community(8, "Gaming Hub", "🎮",
      "Connect with fellow gamers, discuss new releases, share gameplay experiences, and organize multiplayer sessions.",
      3021, ["Gaming", "Esports", "Entertainment"]),
    Community(9, "Photography Club", "📷",
      "A community for photography enthusiasts to share their work, learn techniques, and discuss equipment.",
      1845, ["Photography", "Art", "Creative"]),
    Community(10, "Science Explorers", "🔬",
      "Discuss the latest scientific discoveries, research papers, and engage in thought-provoking conversations about various scientific fields.",
      1576, ["Science", "Research", "Education"]),
    Community(11, "Movie Buffs", "🎬",
      "For cinema enthusiasts to discuss movies, share reviews, and talk about film theory and production.",
      2134, ["Movies", "Entertainment", "Film"]),
    Community(12, "Pet Lovers", "🐾",
      "Share cute pet photos, ask for advice, and connect with other pet owners.",
      2756, ["Pets", "Animals", "Dogs", "Cats"])
  ]

  const AllCategories: string := "All Categories"

  /** The choices of the category selector. */
  const Categories: seq<string> := [
    "All Categories", "Arts & Culture", "Entertainment", "Technology", "Health & Fitness",
    "Food & Cooking", "Travel", "Education", "Sports", "Gaming", "Lifestyle", "Business"
  ]

  /** `hay` contains `needle` somewhere, ignoring case. */
  ghost predicate ContainsIgnoringCase(hay: string, needle: string) {
    exists i :: OccursAt(Lower(hay), Lower(needle), i)
  }

  /** The search test: the lower-cased query is included in the lower-cased
      name, description or one of the tags. */
  predicate MatchesQuery(c: Community, query: string) {
    var q := Lower(query);
    || Includes(Lower(c.name), q)
    || Includes(Lower(c.description), q)
    || exists t :: t in c.tags && Includes(Lower(t), q)
  }

  /** The category test: some tag contains the category, or the category
      contains the tag, ignoring case. */
  predicate MatchesCategory(c: Community, category: string) {
    var cat := Lower(category);
    exists t :: t in c.tags && (Includes(cat, Lower(t)) || Includes(Lower(t), cat))
  }

  /** The filter callback: the query test, plus the category test unless
      "All Categories" is selected. */
  predicate Keep(c: Community, query: string, category: string) {
    if category == AllCategories then MatchesQuery(c, query)
    else MatchesQuery(c, query) && MatchesCategory(c, category)
  }

  /** `a` is a subsequence of `b`: `a` is `b` with some elements left out,
      the rest in their original order. */
  ghost predicate IsSubsequence<T>(a: seq<T>, b: seq<T>)
    decreases |b|
  {
    || |a| == 0
    || (|b| > 0 && ((a[0] == b[0] && IsSubsequence(a[1..], b[1..])) || IsSubsequence(a, b[1..])))
  }

  /** `communitiesData.filter(...)`. */
  function Filter(cs: seq<Community>, query: string, category: string): (r: seq<Community>)
    ensures IsSubsequence(r, cs)
    ensures forall c :: c in r <==> c in cs && Keep(c, query, category)
    ensures |r| <= |cs|
  {
    if |cs| == 0 then []
    else if Keep(cs[0], query, category) then [cs[0]] + Filter(cs[1..], query, category)
    else Filter(cs[1..], query, category)
  }

  /** Each kept community is listed as many times as it occurs in the input,
      and every other community not at all. */
  lemma {:induction false} FilterKeepsMultiplicity(cs: seq<Community>, query: string, category: string)
    ensures forall c :: multiset(Filter(cs, query, category))[c] == if Keep(c, query, category) then multiset(cs)[c] else 0
  {
    if |cs| > 0 {
      FilterKeepsMultiplicity(cs[1..], query, category);
      assert cs == [cs[0]] + cs[1..];
    }
  }

  /** Every community listed contains the query, ignoring case, in its name,
      its description or one of its tags. */
  lemma FilterMatchesQuery(cs: seq<Community>, query: string, category: string, c: Community)
    requires c in Filter(cs, query, category)
    ensures || ContainsIgnoringCase(c.name, query)
            || ContainsIgnoringCase(c.description, query)
            || exists t :: t in c.tags && ContainsIgnoringCase(t, query)
  {
    var q := Lower(query);
    IncludesIffOccurs(Lower(c.name), q);
    IncludesIffOccurs(Lower(c.description), q);
    if !Includes(Lower(c.name), q) && !Includes(Lower(c.description), q) {
      var t :| t in c.tags && Includes(Lower(t), q);
      IncludesIffOccurs(Lower(t), q);
    }
  }

  /** The search test is exactly "the query occurs, ignoring case, in the
      name, the description or a tag". */
  lemma QueryMatchIff(c: Community, query: string)
    ensures MatchesQuery(c, query) <==>
      || ContainsIgnoringCase(c.name, query)
      || ContainsIgnoringCase(c.description, query)
      || exists t :: t in c.tags && ContainsIgnoringCase(t, query)
  {
    var q := Lower(query);
    IncludesIffOccurs(Lower(c.name), q);
    IncludesIffOccurs(Lower(c.description), q);
    forall t | t in c.tags
      ensures Includes(Lower(t), q) <==> ContainsIgnoringCase(t, query)
    {
      IncludesIffOccurs(Lower(t), q);
    }
  }

  /** The category test is exactly "some tag contains the category, or the
      category contains the tag, ignoring case". */
  lemma CategoryMatchIff(c: Community, category: string)
    ensures MatchesCategory(c, category) <==>
      exists t :: t in c.tags && (ContainsIgnoringCase(category, t) || ContainsIgnoringCase(t, category))
  {
    var cat := Lower(category);
    forall t | t in c.tags
      ensures (Includes(cat, Lower(t)) || Includes(Lower(t), cat)) <==>
        (ContainsIgnoringCase(category, t) || ContainsIgnoringCase(t, category))
    {
      IncludesIffOccurs(cat, Lower(t));
      IncludesIffOccurs(Lower(t), cat);
    }
  }

  /** With an empty query and "All Categories" everything is listed. */
  lemma {:induction false} EmptyQueryListsAll(cs: seq<Community>)
    ensures Filter(cs, "", AllCategories) == cs
  {
    if |cs| > 0 {
      IncludesEmpty(Lower(cs[0].name));
      EmptyQueryListsAll(cs[1..]);
      assert [cs[0]] + cs[1..] == cs;
    }
  }

  /** Selecting a category only removes communities: the result is a
      subsequence of the result for "All Categories" with the same query. */
  lemma {:induction false} CategoryNarrows(cs: seq<Community>, query: string, category: string)
    ensures IsSubsequence(Filter(cs, query, category), Filter(cs, query, AllCategories))
  {
    if |cs| > 0 {
      CategoryNarrows(cs[1..], query, category);
      var a := Filter(cs, query, category);
      var b := Filter(cs, query, AllCategories);
      if Keep(cs[0], query, category) {
        assert a[0] == b[0] && a[1..] == Filter(cs[1..], query, category) && b[1..] == Filter(cs[1..], query, AllCategories);
      } else if Keep(cs[0], query, AllCategories) {
        assert b[1..] == Filter(cs[1..], query, AllCategories);
        SubsequenceOfTail(a, b);
      }
    }
  }

  /** Dropping the head of `b` is harmless when `a` is already a subsequence of its tail. */
  lemma SubsequenceOfTail<T>(a: seq<T>, b: seq<T>)
    requires |b| > 0 && IsSubsequence(a, b[1..])
    ensures IsSubsequence(a, b)
  {
  }

  /** A string ordering by code point, standing in for `localeCompare`. */
  function CompareNames(a: string, b: string): (r: int)
    ensures -1 <= r <= 1
    ensures r == 0 <==> a == b
  {
    if |a| == 0 && |b| == 0 then 0
    else if |a| == 0 then -1
    else if |b| == 0 then 1
    else if a[0] < b[0] then -1
    else if a[0] > b[0] then 1
    else (assert a == [a[0]] + a[1..] && b == [b[0]] + b[1..]; CompareNames(a[1..], b[1..]))
  }

  /** The sort comparator: negative when `a` goes first, zero for a tie. */
  function Compare(sortOption: string, a: Community, b: Community): int {
    if sortOption == "popularity" then b.memberCount - a.memberCount
    else if sortOption == "alphabetical" then CompareNames(a.name, b.name)
    else if sortOption == "newest" then b.id - a.id
    else 0
  }

  /** Place `x` before the first element it does not follow: the step of a
      stable insertion sort. */
  function Insert(sortOption: string, x: Community, s: seq<Community>): (r: seq<Community>)
    ensures multiset(r) == multiset(s) + multiset{x}
  {
    if |s| == 0 then [x]
    else if Compare(sortOption, x, s[0]) <= 0 then [x] + s
    else
      assert s == [s[0]] + s[1..];
      [s[0]] + Insert(sortOption, x, s[1..])
  }

  /** `[...filtered].sort(comparator)`; the sort of ECMAScript 2019 and later
      is stable, so ties keep their filtered order. */
  function Sort(sortOption: string, s: seq<Community>): (r: seq<Community>)
    ensures multiset(r) == multiset(s)
    ensures |r| == |s|
  {
    if |s| == 0 then []
    else
      assert s == [s[0]] + s[1..];
      Insert(sortOption, s[0], Sort(sortOption, s[1..]))
  }

  /** What the page lists for the current query, category and sort option. */
  function Listed(query: string, category: string, sortOption: string): seq<Community> {
    Sort(sortOption, Filter(CommunitiesData, query, category))
  }

  /** The key "popularity" and "newest" sort on, largest first. */
  function Key(sortOption: string, c: Community): int {
    if sortOption == "popularity" then c.memberCount else c.id
  }

  ghost predicate NonIncreasing(sortOption: string, s: seq<Community>) {
    forall i, j :: 0 <= i < j < |s| ==> Key(sortOption, s[i]) >= Key(sortOption, s[j])
  }

  lemma {:induction false} InsertKeepsOrder(sortOption: string, x: Community, s: seq<Community>)
    requires sortOption == "popularity" || sortOption == "newest"
    requires NonIncreasing(sortOption, s)
    ensures NonIncreasing(sortOption, Insert(sortOption, x, s))
  {
    if |s| > 0 && Compare(sortOption, x, s[0]) > 0 {
      InsertKeepsOrder(sortOption, x, s[1..]);
      var t := Insert(sortOption, x, s[1..]);
      assert multiset(t) == multiset(s[1..]) + multiset{x};
      forall k | 0 <= k < |t|
        ensures Key(sortOption, s[0]) >= Key(sortOption, t[k])
      {
        assert t[k] in multiset(t);
        if t[k] != x {
          assert t[k] in multiset(s[1..]);
          var m :| 0 <= m < |s[1..]| && s[1..][m] == t[k];
          assert s[m + 1] == t[k];
        }
      }
    }
  }

  /** "popularity" lists member counts, and "newest" ids, in non-increasing order. */
  lemma {:induction false} SortOrdersByKey(sortOption: string, s: seq<Community>)
    requires sortOption == "popularity" || sortOption == "newest"
    ensures NonIncreasing(sortOption, Sort(sortOption, s))
  {
    if |s| > 0 {
      SortOrdersByKey(sortOption, s[1..]);
      InsertKeepsOrder(sortOption, s[0], Sort(sortOption, s[1..]));
    }
  }

  /** An option the comparator does not know keeps the filtered order. */
  lemma {:induction false} UnknownOptionKeepsOrder(sortOption: string, s: seq<Community>)
    requires sortOption != "popularity" && sortOption != "alphabetical" && sortOption != "newest"
    ensures Sort(sortOption, s) == s
  {
    if |s| > 0 {
      UnknownOptionKeepsOrder(sortOption, s[1..]);
      assert [s[0]] + s[1..] == s;
    }
  }

  /** The count the page shows is the number of matches, at most the
      catalogue size; every community listed passes the filter. */
  lemma ShownCount(query: string, category: string, sortOption: string)
    ensures |Listed(query, category, sortOption)| == |Filter(CommunitiesData, query, category)| <= |CommunitiesData|
    ensures forall c :: c in Listed(query, category, sortOption) ==> c in CommunitiesData && Keep(c, query, category)
  {
    var f := Filter(CommunitiesData, query, category);
    forall c | c in Listed(query, category, sortOption)
      ensures c in f
    {
      assert c in multiset(Listed(query, category, sortOption));
    }
  }
}
