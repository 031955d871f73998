/** Creating a community: the dialog in the sidebar, which adds to the
    sidebar's own list, and the create-community page, which appends to the
    "communities" list in browser storage and then opens the new community. */
module Communities {
  import opened Wrappers
  import opened Text
  import opened JsNumber

  /** The icon used when none is given. */
  const DefaultIcon: string := "🌟"

  /** `icon || "🌟"`: the empty string is the only falsy string. */
  function IconOrDefault(icon: string): (r: string)
    ensures r != ""
    ensures icon != "" ==> r == icon
    ensures icon == "" ==> r == DefaultIcon
  {
    if icon == "" then DefaultIcon else icon
  }

  /** A name as stored: `name.trim()` of a name that is not blank, so it is
      non-empty and neither starts nor ends with white space. */
  predicate TidyName(name: string) {
    |name| > 0 && !IsSpace(name[0]) && !IsSpace(name[|name| - 1])
  }

  /** `name.trim()` of a name that is not blank is tidy. */
  lemma TrimmedNameTidy(name: string)
    requires !Blank(name)
    ensures TidyName(Trim(name))
  {
    TrimEmptyIffBlank(name);
  }

  // ------------------------------------------------------------------ sidebar

  /** An entry of the sidebar list; the demo entries have no description. */
  datatype SidebarEntry = SidebarEntry(id: int, name: string, icon: string, description: Option<string>)

  /** The sidebar list, the dialog's three fields and whether it is open. */
  datatype Sidebar = Sidebar(
    communities: seq<SidebarEntry>,
    name: string,
    description: string,
    icon: string,
    open: bool)

  const InitialCommunities: seq<SidebarEntry> := [
    SidebarEntry(1, "Music Lovers", "🎵", None),
    SidebarEntry(2, "Foodies United", "🍔", None),
    SidebarEntry(3, "Tech Talk", "💻", None),
    SidebarEntry(4, "Book Club", "📚", None),
    SidebarEntry(5, "Fitness Group", "🏋️", None),
    SidebarEntry(6, "Travel Enthusiasts", "✈️", None),
    SidebarEntry(7, "Art & Design", "🎨", None),
    SidebarEntry(8, "Gaming Hub", "🎮", None)
  ]

  function InitialSidebar(): (s: Sidebar)
    ensures |s.communities| == 8 && !s.open && s.icon == DefaultIcon
  {
    Sidebar(InitialCommunities, "", "", DefaultIcon, false)
  }

  /** The sidebar's `handleCreateCommunity` at clock reading `now`: a blank
      name changes nothing; otherwise one entry is appended, the dialog
      closes and the fields return to their initial values. */
  function SidebarCreate(s: Sidebar, now: int): (r: Sidebar)
    ensures Blank(s.name) ==> r == s
    ensures !Blank(s.name) ==>
      && |r.communities| == |s.communities| + 1
      && r.communities[..|s.communities|] == s.communities
      && r.communities[|s.communities|] == SidebarEntry(now, Trim(s.name), IconOrDefault(s.icon), Some(s.description))
      && TidyName(r.communities[|s.communities|].name)
      && !r.open && r.name == "" && r.description == "" && r.icon == DefaultIcon
  {
    TrimEmptyIffBlank(s.name);
    if Trim(s.name) == [] then s
    else
      TrimmedNameTidy(s.name);
      var entry := SidebarEntry(now, Trim(s.name), IconOrDefault(s.icon), Some(s.description));
      Sidebar(s.communities + [entry], "", "", DefaultIcon, false)
  }

  // ------------------------------------------------------- create-community page

  /** A community saved by the create-community page. */
  datatype StoredCommunity = StoredCommunity(id: int, name: string, icon: string, description: string)

  /** What the page does on render: redirect when signed out, else show the form. */
  datatype PageView = Redirect(to: string) | ShowForm

  const LoginRedirect: string := "/login?returnTo=/create-community"

  /** The authentication guard: signed out, render nothing and go to login. */
  function Guard(isAuthenticated: bool): (v: PageView)
    ensures v.ShowForm? <==> isAuthenticated
    ensures !isAuthenticated ==> v == Redirect(LoginRedirect)
  {
    if isAuthenticated then ShowForm else Redirect(LoginRedirect)
  }

  /** The page of community `id`. */
  function CommunityPath(id: nat): string {
    "/community/" + Decimal(id)
  }

  /** The saved list after a create, and where the page navigates. */
  datatype PageCreateResult = PageCreateResult(stored: seq<StoredCommunity>, navigate: Option<string>)

  /** The page's `handleCreateCommunity` at clock reading `now`. */
  function PageCreate(stored: seq<StoredCommunity>, name: string, description: string, icon: string, now: nat): (r: PageCreateResult)
    ensures Blank(name) ==> r == PageCreateResult(stored, None)
    ensures !Blank(name) ==>
      && |r.stored| == |stored| + 1
      && r.stored[..|stored|] == stored
      && r.stored[|stored|] == StoredCommunity(now, Trim(name), IconOrDefault(icon), description)
      && TidyName(r.stored[|stored|].name)
      && r.navigate == Some(CommunityPath(r.stored[|stored|].id))
  {
    TrimEmptyIffBlank(name);
    if Trim(name) == [] then PageCreateResult(stored, None)
    else
      TrimmedNameTidy(name);
      var entry := StoredCommunity(now, Trim(name), IconOrDefault(icon), description);
      PageCreateResult(stored + [entry], Some(CommunityPath(now)))
  }
}
