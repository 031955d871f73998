/** The community page: reading the `:id` route parameter and choosing the
    community to show, falling back to the first demo community. */
module CommunityLookup {
  import opened Wrappers
  import opened Text
  import opened JsNumber
  import Communities

  datatype Community = Community(
    id: int,
    name: string,
    icon: string,
    description: string,
    memberCount: int,
    tags: seq<string>,
    createdAt: string,
    creator: string,
    rules: seq<string>)

  const StandardRules: seq<string> := [
    "Be respectful to all members",
    "No self-promotion without permission",
    "Use appropriate channels for discussions",
    "No hate speech or harassment"
  ]

  /** The communities the page knows. */
  const DemoCommunities: seq<Community> := [
    Community(1, "Music Lovers", "🎵",
      "A community for sharing and discussing all genres of music. From classical to rock, jazz to hip-hop, we cover it all! Join us to discover new artists, share your favorite tracks, and connect with fellow music enthusiasts.",
      2478, ["Music", "Entertainment", "Arts"], "January 2023", "Alex Turner", StandardRules),
    Community(2, "Foodies United", "🍔",
      "For those passionate about cooking, eating, and exploring new cuisines. Share recipes, restaurant recommendations, and food photos!",
      1853, ["Food", "Cooking", "Restaurants"], "March 2023", "Jamie Oliver", StandardRules),
    Community(3, "Tech Talk", "💻",
      "Stay updated with the latest in technology. Discuss gadgets, programming, AI, and tech industry news.",
      3542, ["Technology", "Programming", "AI"], "November 2022", "Ada Lovelace", StandardRules)
  ]

  /** The demo ids are distinct, so a found community is the only one with its id. */
  lemma DemoIdsDistinct()
    ensures forall i, j :: 0 <= i < j < |DemoCommunities| ==> DemoCommunities[i].id != DemoCommunities[j].id
  {
  }

  /** The demo community at index `k` has id `k + 1`. */
  lemma DemoIdsAreIndices()
    ensures forall k :: 0 <= k < |DemoCommunities| ==> DemoCommunities[k].id == k + 1
  {
  }

  /** `id || "1"`: a missing (or empty) parameter reads as "1". */
  function RouteId(id: Option<string>): string {
    if id == None || id == Some("") then "1" else id.value
  }

  /** `c.id === n`: `NaN` equals nothing. */
  predicate IdIs(id: int, n: Number) {
    n.Int? && n.value == id
  }

  /** Some demo community has id `n`. */
  ghost predicate IsDemoId(n: Number) {
    exists k :: 0 <= k < |DemoCommunities| && IdIs(DemoCommunities[k].id, n)
  }

  /** `communities.find(c => c.id === n)`, as an index. */
  function FindById(cs: seq<Community>, n: Number): (r: Option<nat>)
    ensures r.Some? ==> r.value < |cs| && IdIs(cs[r.value].id, n)
    ensures r.Some? ==> forall k :: 0 <= k < r.value ==> !IdIs(cs[k].id, n)
    ensures r.None? ==> forall k :: 0 <= k < |cs| ==> !IdIs(cs[k].id, n)
  {
    if |cs| == 0 then None
    else if IdIs(cs[0].id, n) then Some(0)
    else match FindById(cs[1..], n)
      case None => None
      case Some(i) => Some(i + 1)
  }

  /** `communities.find(c => c.id === parseInt(id || "1")) || communities[0]`:
      the community with the parsed id, otherwise the first one, so the
      lookup never fails. */
  function SelectCommunity(id: Option<string>): (c: Community)
    ensures c in DemoCommunities
    ensures IsDemoId(ParseInt(RouteId(id))) ==> IdIs(c.id, ParseInt(RouteId(id)))
    ensures !IsDemoId(ParseInt(RouteId(id))) ==> c == DemoCommunities[0]
  {
    match FindById(DemoCommunities, ParseInt(RouteId(id)))
    case Some(i) => DemoCommunities[i]
    case None => DemoCommunities[0]
  }

  /** The page of a demo community shows that community. */
  lemma SelectsDemoById(n: nat)
    requires 1 <= n <= 3
    ensures SelectCommunity(Some(Decimal(n))).id == n
  {
    DemoIdsAreIndices();
    DecimalParamReadsBack(n);
    assert IsDemoId(Int(n)) by {
      assert IdIs(DemoCommunities[n - 1].id, Int(n));
    }
  }

  /** Without a parameter, or with an empty one, the first community
      (id 1) is shown. */
  lemma MissingIdShowsFirst(id: Option<string>)
    requires id == None || id == Some("")
    ensures SelectCommunity(id) == DemoCommunities[0]
    ensures SelectCommunity(id).id == 1
  {
    ParseIntDigit('1');
    assert RouteId(id) == ['1'];
    assert IdIs(DemoCommunities[0].id, Int(1));
  }

  /** A parameter with no digit (say "abc") parses to `NaN` and falls back
      to the first community. */
  lemma NonNumericFallsBack(id: string)
    requires id != ""
    requires forall k :: 0 <= k < |id| ==> !('0' <= id[k] <= '9')
    ensures SelectCommunity(Some(id)) == DemoCommunities[0]
  {
    ParseIntNoDigits(id);
  }

  /** The `:id` parameter of a path of the form "/community/:id". */
  function RouteParam(path: string): Option<string> {
    var prefix := "/community/";
    if prefix <= path then Some(path[|prefix|..]) else None
  }

  lemma RouteParamOfCommunityPath(id: nat)
    ensures RouteParam(Communities.CommunityPath(id)) == Some(Decimal(id))
  {
    var path := Communities.CommunityPath(id);
    assert "/community/" <= path;
    assert path[|"/community/"|..] == Decimal(id);
  }

  /** A decimal parameter reads back as the number it renders. */
  lemma DecimalParamReadsBack(n: nat)
    ensures ParseInt(RouteId(Some(Decimal(n)))) == Int(n)
  {
    var d := Decimal(n);
    assert RouteId(Some(d)) == d;
    ParseIntDecimal(n, []);
    assert d + [] == d;
  }

  /** Only 1, 2 and 3 are demo ids. */
  lemma LargeIdNotDemo(n: nat)
    requires n > 3
    ensures !IsDemoId(Int(n))
  {
  }

  /** As written, the page the create-community page opens does not show the
      community just created: its id is a clock reading, never a demo id, so
      the lookup falls back to "Music Lovers". */
  lemma CreatedCommunityNotShown(
    stored: seq<Communities.StoredCommunity>, name: string, description: string, icon: string, now: nat)
    requires !Blank(name)
    requires now > 3
    ensures var r := Communities.PageCreate(stored, name, description, icon, now);
      && r.navigate.Some?
      && RouteParam(r.navigate.value).Some?
      && SelectCommunity(RouteParam(r.navigate.value)) == DemoCommunities[0]
      && SelectCommunity(RouteParam(r.navigate.value)).id != r.stored[|stored|].id
  {
    var r := Communities.PageCreate(stored, name, description, icon, now);
    RouteParamOfCommunityPath(now);
    DecimalParamReadsBack(now);
    LargeIdNotDemo(now);
    assert r.navigate == Some(Communities.CommunityPath(now));
    assert RouteParam(r.navigate.value) == Some(Decimal(now));
  }

  /** What the corrected page shows: a demo community or a saved one. */
  datatype Shown = Demo(demo: Community) | Created(created: Communities.StoredCommunity)

  /** The id of a saved community is `n`. */
  predicate StoredIdIs(c: Communities.StoredCommunity, n: Number) {
    IdIs(c.id, n)
  }

  /** `stored.find(c => c.id === n)`, as an index. */
  function FindStored(cs: seq<Communities.StoredCommunity>, n: Number): (r: Option<nat>)
    ensures r.Some? ==> r.value < |cs| && StoredIdIs(cs[r.value], n)
    ensures r.None? ==> forall k :: 0 <= k < |cs| ==> !StoredIdIs(cs[k], n)
  {
    if |cs| == 0 then None
    else if StoredIdIs(cs[0], n) then Some(0)
    else match FindStored(cs[1..], n)
      case None => None
      case Some(i) => Some(i + 1)
  }

  /** A saved community with a new id is found at the end of the list. */
  lemma {:induction false} FindStoredAfterNew(cs: seq<Communities.StoredCommunity>, c: Communities.StoredCommunity, n: Number)
    requires forall k :: 0 <= k < |cs| ==> !StoredIdIs(cs[k], n)
    requires StoredIdIs(c, n)
    ensures FindStored(cs + [c], n) == Some(|cs|)
  {
    if |cs| > 0 {
      assert (cs + [c])[1..] == cs[1..] + [c];
      FindStoredAfterNew(cs[1..], c, n);
    }
  }

  /** The lookup the create-community page relies on: demo communities
      first, then the saved ones, then the first demo community. */
  function SelectCommunityWithStored(id: Option<string>, stored: seq<Communities.StoredCommunity>): (s: Shown)
    ensures s.Demo? ==> s.demo in DemoCommunities
    ensures s.Created? ==> s.created in stored && IdIs(s.created.id, ParseInt(RouteId(id)))
    ensures IsDemoId(ParseInt(RouteId(id))) ==> s == Demo(SelectCommunity(id))
    ensures (forall k :: 0 <= k < |stored| ==> !StoredIdIs(stored[k], ParseInt(RouteId(id)))) ==> s == Demo(SelectCommunity(id))
  {
    var n := ParseInt(RouteId(id));
    match FindById(DemoCommunities, n)
    case Some(i) => Demo(DemoCommunities[i])
    case None =>
      match FindStored(stored, n)
      case Some(j) => Created(stored[j])
      case None => Demo(DemoCommunities[0])
  }

  /** With the corrected lookup, the page opened after creating a community
      shows that community, provided its id is new. */
  lemma CreatedCommunityShown(
    stored: seq<Communities.StoredCommunity>, name: string, description: string, icon: string, now: nat)
    requires !Blank(name)
    requires now > 3
    requires forall k :: 0 <= k < |stored| ==> stored[k].id != now
    ensures var r := Communities.PageCreate(stored, name, description, icon, now);
      && r.navigate.Some?
      && SelectCommunityWithStored(RouteParam(r.navigate.value), r.stored) == Created(r.stored[|stored|])
  {
    var r := Communities.PageCreate(stored, name, description, icon, now);
    RouteParamOfCommunityPath(now);
    DecimalParamReadsBack(now);
    LargeIdNotDemo(now);
    assert r.navigate == Some(Communities.CommunityPath(now));
    var id := RouteParam(r.navigate.value);
    assert id == Some(Decimal(now));
    var c := r.stored[|stored|];
    assert r.stored == stored + [c];
    FindStoredAfterNew(stored, c, Int(now));
  }
}
