# comu-chat core, modelled in Dafny

comu-chat is a community chat web application. Underneath its pages sit a
few small state machines. This project models them as immutable datatypes
and pure transition functions, and proves what each of them promises:

- **Auth**: the mock account store and session (`login`, `register`,
  `logout`, the session restore on start-up), over a list of stored users
  and a session slot.
- **PasswordReset**: the three-step password-reset page (`email` → `reset` →
  `success`), over the stored users and a map from e-mail to reset entry.
- **EmailPattern**, **LoginForm**: the e-mail regular expression and the
  login and registration forms, which decide whether the account store is
  called at all.
- **Discover**: the community search. It filters case-insensitively by query
  and category, then stable-sorts by one of three options.
- **Posts**: the like button of a post card, the post form and the feed
  that receives its posts.
- **Chat**: the chat box's seeded message list and its send handler.
- **Communities**: creating a community, both from the sidebar dialog and
  from the create-community page, including the page's sign-in guard.
- **CommunityLookup**: the community page's route parameter, parsing and
  lookup with fallback.
- **Membership**: plan subscription, the simulated payment and the usage
  panel.
- **VideoCall**: the call session flags and the participant list.

The shared modules model the JavaScript built-ins the pages rely on:

- **Text**: white space as `\s` and `trim` see it, `trim`, ASCII
  `toLowerCase` and `includes`.
- **JsNumber**: `parseInt` with radix 10 or a `0x` prefix, and the decimal
  rendering of a natural number.
- **Wrappers**: an `Option` type.

Browser storage is modelled as plain values inside the state records:
the user list, the session slot, the reset map, the saved communities and
the usage entry. Clock readings (`Date.now()`) are explicit `now`
parameters, and formatted dates are opaque string parameters.

## Model

| member | source | states |
|---|---|---|
| Auth.Initial | src/contexts/AuthContext.tsx:22-24 | the provider starts signed out, with the session invariant holding |
| Auth.FindByEmail | src/contexts/AuthContext.tsx:48 | `users.find` by exact e-mail gives the first index whose e-mail is equal, or none when no stored e-mail is equal |
| Auth.Login | src/contexts/AuthContext.tsx:42-78 | login succeeds iff the first user whose e-mail matches exactly has the given password; success signs in with that user's id, name and e-mail only; failure changes nothing; the user list is never changed |
| Auth.Register | src/contexts/AuthContext.tsx:80-129 | rejects an empty name, an e-mail without '@', a password under 6 characters, or an e-mail equal ignoring case to a stored one, leaving the state unchanged; otherwise appends exactly one user ("user-" + clock) at the end, keeps earlier users and signs the new user in |
| Auth.Logout | src/contexts/AuthContext.tsx:131-135 | the session is cleared, the viewer is signed out and the user list is untouched |
| Auth.RestoreSessionAsWritten | src/contexts/AuthContext.tsx:28-40 | the effect as written: an absent entry changes nothing; a user's JSON signs that user in; falsy JSON leaves no user but raises the signed-in flag; text that is not JSON is removed and nothing else changes |
| Auth.RestoreAsWrittenBreaksInvariant | src/contexts/AuthContext.tsx:28-40 | restoring from stored falsy JSON such as "null" leaves no user but sets the signed-in flag, which breaks the session invariant |
| Auth.RestoreSession | src/contexts/AuthContext.tsx:28-40 | the corrected restore: a parsed user is restored and signed in; an unparseable or falsy entry is dropped; the invariant is kept |
| Auth.RestoreAgreesExceptNull | src/contexts/AuthContext.tsx:28-40 | the corrected restore differs from the one as written only for stored falsy JSON such as "null" |
| Auth.OperationsKeepConsistent | src/contexts/AuthContext.tsx:58-59 | the signed-in flag is true iff a session user exists, before and after login, register, logout and restore |
| Auth.NotTakenHasNoExactMatch | src/contexts/AuthContext.tsx:95 | an e-mail that is not taken ignoring case has no exact match either |
| Auth.RegisterThenLogin | src/contexts/AuthContext.tsx:48-50 | after a successful register, logging in with the same e-mail and password succeeds as the new user |
| EmailPattern.ShapeIffPattern | src/pages/LoginPage.tsx:37-41 | the regex accepts exactly strings with no white space, exactly one '@' that is not first, and a '.' strictly inside the part after it |
| EmailPattern.LowerKeepsPattern | src/pages/ForgotPasswordPage.tsx:27-31 | lower-casing first does not change whether the pattern matches |
| EmailPattern.ValidateEmail | src/pages/ForgotPasswordPage.tsx:27-31 | `validateEmail` holds iff the lower-cased input, and so the input itself, matches the pattern |
| EmailPattern.ValidEmailHasAt | src/contexts/AuthContext.tsx:81 | an e-mail accepted by the pattern passes the store's "includes '@'" check |
| LoginForm.EmailFieldError | src/pages/LoginPage.tsx:51-57 | "required" iff the e-mail is empty; "invalid" iff it is non-empty and fails the pattern; no error otherwise |
| LoginForm.LoginFieldErrors | src/pages/LoginPage.tsx:47-62 | errors start cleared, so each field carries at most one error, and it depends on the inputs alone |
| LoginForm.HandleLogin | src/pages/LoginPage.tsx:43-82 | `login` is called iff the e-mail is non-empty and valid and the password non-empty, which is exactly when no error is shown; otherwise nothing changes; navigation to "/" iff the login succeeds |
| LoginForm.RegisterFieldErrors | src/pages/LoginPage.tsx:88-131 | each registration error is empty exactly when its own check passes: a name, a valid e-mail, a password of at least 6 characters, a matching confirmation and accepted terms |
| LoginForm.HandleRegister | src/pages/LoginPage.tsx:84-156 | `register` is called iff every check passes, which is exactly when no error is shown; otherwise nothing changes; navigation, always to "/", iff the store accepts |
| LoginForm.TermsAloneBlocks | src/pages/LoginPage.tsx:128-133 | an unchecked terms box alone blocks registration |
| LoginForm.FormChecksImplyStoreChecks | src/pages/LoginPage.tsx:99-118 | whatever passes the form's checks passes the store's own input check |
| LoginForm.SubmittedRegisterFailsOnlyWhenTaken | src/pages/LoginPage.tsx:133-155 | a registration the form submits fails iff its e-mail is already taken |
| PasswordReset.RequestReset | src/pages/ForgotPasswordPage.tsx:33-77 | an empty, invalid or unknown e-mail reports an error and leaves the store and the step unchanged; otherwise the entry for exactly that e-mail becomes code "123456" expiring 30 minutes later, and the step moves to `reset` |
| PasswordReset.SetPassword | src/pages/ForgotPasswordPage.tsx:126-133 | every user with the e-mail gets the new password and every other user record is identical |
| PasswordReset.ResetPassword | src/pages/ForgotPasswordPage.tsx:79-146 | any field error, a missing or different code, or an expired code leaves the store alone; success iff the fields pass and the code is present, equal and not expired; success changes only that e-mail's users' passwords and removes its entry |
| PasswordReset.Back | src/pages/ForgotPasswordPage.tsx:294 | "Back" returns to the `email` step and keeps the inputs |
| PasswordReset.ExpiryBoundary | src/pages/ForgotPasswordPage.tsx:120 | a code whose expiry equals the current instant is still accepted |
| PasswordReset.ReplayFails | src/pages/ForgotPasswordPage.tsx:114-117 | after a successful reset the same submission fails as an invalid code and changes nothing |
| PasswordReset.RequestThenReset | src/pages/ForgotPasswordPage.tsx:60-145 | a request followed within 30 minutes by a reset with the demo code succeeds, consumes the code, and the new password then logs in |
| PasswordReset.StepTransitions | src/pages/ForgotPasswordPage.tsx:76 | the step moves to `reset` only on an accepted request, and to `success` only on an accepted reset |
| Discover.Filter | src/pages/DiscoverPage.tsx:157-170 | the result is a subsequence of the input in the original order, and holds exactly the communities the callback keeps |
| Discover.FilterKeepsMultiplicity | src/pages/DiscoverPage.tsx:157-170 | each kept community appears in the result as many times as in the input, and every other community not at all |
| Discover.QueryMatchIff | src/pages/DiscoverPage.tsx:158-160 | the query test holds iff the query occurs, ignoring case, in the name, the description or a tag |
| Discover.CategoryMatchIff | src/pages/DiscoverPage.tsx:165-168 | the category test holds iff some tag contains the category or is contained in it, ignoring case |
| Discover.FilterMatchesQuery | src/pages/DiscoverPage.tsx:157-160 | every listed community contains the query, ignoring case, in its name, description or a tag |
| Discover.EmptyQueryListsAll | src/pages/DiscoverPage.tsx:157-163 | an empty query with "All Categories" lists every community |
| Discover.CategoryNarrows | src/pages/DiscoverPage.tsx:162-169 | the result for a category is a subsequence of the result for "All Categories" with the same query |
| Discover.CompareNames | src/pages/DiscoverPage.tsx:177 | the name comparison is -1, 0 or 1, and 0 exactly for equal names |
| Discover.Sort | src/pages/DiscoverPage.tsx:173-183 | the sorted list is a permutation of the filtered list |
| Discover.SortOrdersByKey | src/pages/DiscoverPage.tsx:174-181 | "popularity" gives non-increasing member counts, "newest" non-increasing ids |
| Discover.UnknownOptionKeepsOrder | src/pages/DiscoverPage.tsx:182 | any other option keeps the filtered order |
| Discover.ShownCount | src/pages/DiscoverPage.tsx:233 | the number shown equals the number filtered and is at most the total; everything shown is a kept community |
| Posts.InitialCard | src/components/PostCard.tsx:23-25 | the card starts with `liked` (default false) and `likes` |
| Posts.HandleLike | src/components/PostCard.tsx:27-34 | a click flips the viewer's like, keeps the count of other likes, and leaves the post and its comments alone |
| Posts.LikeMovesCountByOne | src/components/PostCard.tsx:27-34 | liking adds one and unliking takes one away |
| Posts.LikeTwiceRestores | src/components/PostCard.tsx:27-34 | two clicks restore the card |
| Posts.ClicksKeepOthersLikes | src/components/PostCard.tsx:23-34 | after any number of clicks, the count minus the viewer's like equals the initial likes minus the initial like |
| Posts.PostDisabled | src/components/CreatePostForm.tsx:51 | the Post button is disabled iff the content is blank |
| Posts.HandleSubmit | src/components/CreatePostForm.tsx:17-23 | content is handed over, untrimmed, iff it is not blank; the box is cleared then and kept otherwise |
| Posts.SubmitIffEnabled | src/components/CreatePostForm.tsx:19-20 | the form submits exactly when its button is enabled |
| Posts.NewPost | src/components/PostFeed.tsx:29-40 | a new post has the submitted content, no likes or comments, is not liked, and is by "You" with initials "GU" |
| Posts.HandlePostSubmit | src/components/PostFeed.tsx:28-43 | the new post goes first and the earlier posts follow in order; the feed grows by one |
| Posts.FormKeepsBlankPostsOut | src/components/PostFeed.tsx:42 | through the form no blank post enters the feed |
| Chat.Seed | src/components/ChatInterface.tsx:23-52 | the four seeded messages have ids 1 to 4 and the welcome names the community |
| Chat.HandleSend | src/components/ChatInterface.tsx:67-82 | blank input changes nothing; otherwise exactly one message is appended with the untrimmed text, sender "You", "Just now" and the next id, and the input is cleared; sequential ids are kept |
| Chat.SequentialIdsDistinct | src/components/ChatInterface.tsx:72 | sequential ids are pairwise distinct |
| Chat.SendAllAppendsInputs | src/components/ChatInterface.tsx:67-82 | any sequence of sends keeps every earlier message and appends exactly one message per non-blank input, in input order: the viewer's message with that untrimmed text and the next id |
| Chat.SendAllKeepsHistory | src/components/ChatInterface.tsx:79 | any sequence of sends keeps ids sequential, hence distinct |
| Communities.IconOrDefault | src/components/CommunitySidebar.tsx:62 | an empty icon becomes "🌟"; any other icon is kept |
| Communities.TrimmedNameTidy | src/components/CommunitySidebar.tsx:61 | the trimmed form of a non-blank name is non-empty and has no white space at either end |
| Communities.InitialSidebar | src/components/CommunitySidebar.tsx:28-44 | the sidebar starts with its eight communities, a closed dialog and the default icon |
| Communities.SidebarCreate | src/components/CommunitySidebar.tsx:47-82 | a blank name changes nothing; otherwise one entry with the trimmed name, the icon or "🌟" and the description is appended, earlier entries are kept, the dialog closes and the fields reset |
| Communities.Guard | src/pages/CreateCommunityPage.tsx:21-36 | signed out, the page shows nothing and redirects to "/login?returnTo=/create-community" |
| Communities.PageCreate | src/pages/CreateCommunityPage.tsx:38-71 | a blank name stores nothing and does not navigate; otherwise one entry is appended, earlier ones kept, and the page opens /community/ followed by the new id |
| CommunityLookup.DemoIdsDistinct | src/pages/CommunityPage.tsx:17-67 | the demo ids are distinct |
| CommunityLookup.FindById | src/pages/CommunityPage.tsx:74 | `find` by id gives the first community with that id, or none when there is none |
| CommunityLookup.SelectCommunity | src/pages/CommunityPage.tsx:70-74 | the page always shows a demo community: the one with the parsed id when there is one, otherwise the first |
| CommunityLookup.SelectsDemoById | src/pages/CommunityPage.tsx:71-74 | each demo community's page shows that community |
| CommunityLookup.MissingIdShowsFirst | src/pages/CommunityPage.tsx:71 | a missing or empty id reads as "1" and shows the first community |
| CommunityLookup.NonNumericFallsBack | src/pages/CommunityPage.tsx:71-74 | an id without digits parses to NaN and shows the first community |
| CommunityLookup.RouteParamOfCommunityPath | src/App.tsx:31 | the `:id` parameter of /community/ followed by a number is that number's decimal rendering |
| CommunityLookup.DecimalParamReadsBack | src/pages/CommunityPage.tsx:71 | parsing the decimal rendering of a number gives the number back |
| CommunityLookup.CreatedCommunityNotShown | src/pages/CreateCommunityPage.tsx:70 | as written, the page opened after creating a community shows "Music Lovers" and not the new community |
| CommunityLookup.FindStored | src/pages/CreateCommunityPage.tsx:64-67 | a search of the saved communities finds one with the id, or reports that none has it |
| CommunityLookup.FindStoredAfterNew | src/pages/CreateCommunityPage.tsx:64-67 | a community appended with a new id is found at the end of the saved list |
| CommunityLookup.SelectCommunityWithStored | src/pages/CommunityPage.tsx:74 | the corrected lookup shows a demo community or a saved one with the parsed id, and agrees with the original lookup whenever no saved community has that id |
| CommunityLookup.CreatedCommunityShown | src/pages/CreateCommunityPage.tsx:64-70 | with the corrected lookup, the page opened after creating a community shows that community |
| JsNumber.ParseIntDecimal | src/pages/CommunityPage.tsx:71 | `parseInt` reads back a decimal rendering, ignoring whatever non-digit suffix follows (a "0x" after a bare "0" is a hex prefix, so it is excluded) |
| JsNumber.ParseIntDigit | src/pages/MembershipPage.tsx:26 | a single decimal digit parses to its value |
| JsNumber.ParseIntNoDigits | src/pages/CommunityPage.tsx:71 | a string with no decimal digit parses to NaN |
| JsNumber.ParseIntSkipsSpace | src/pages/MembershipPage.tsx:26 | leading white space does not change what `parseInt` returns |
| JsNumber.ParseIntNegative | src/pages/MembershipPage.tsx:26 | a minus sign negates the digits after it |
| Text.TrimEmptyIffBlank | src/components/CreatePostForm.tsx:19 | `trim()` is empty iff every character is white space |
| Text.IncludesIffOccurs | src/pages/DiscoverPage.tsx:158 | `includes` holds iff the needle occurs at some position |
| Membership.InitialMembership | src/pages/MembershipPage.tsx:17-21 | the page starts with no plan selected, no dialog and no payment in progress |
| Membership.HandleSubscribe | src/pages/MembershipPage.tsx:28-41 | signed out, nothing changes; signed in, the plan and price are recorded and the dialog opens, while the selected plan stays |
| Membership.HandlePaymentSuccess | src/pages/MembershipPage.tsx:93-103 | the upgraded plan becomes the selected one, the dialog closes and usage is stored as "0" |
| Membership.ConfirmSubscription | src/pages/MembershipPage.tsx:43-91 | signed out, nothing changes; signed in, processing has ended whether the payment succeeded or failed, and success is the payment-success transition |
| Membership.CancelDialog | src/pages/MembershipPage.tsx:334 | Cancel closes the dialog and keeps every other field: the plan, the usage, the plan and price being upgraded and the processing flag |
| Membership.SelectBasic | src/pages/MembershipPage.tsx:197 | the Basic button selects Basic without a payment and keeps every other field |
| Membership.GetPriceId | src/pages/MembershipPage.tsx:106-112 | "Premium" and "Ultimate" map to their price ids, and every other plan maps to "" |
| Membership.ConfirmedPlanHasOwnPriceId | src/pages/MembershipPage.tsx:93-112 | a confirmed payment selects the plan being upgraded, and when that plan has a non-empty price id, no other plan has the same one |
| Membership.ChosenPlanButtonDisabled | src/pages/MembershipPage.tsx:198-268 | exactly the chosen plan's button is disabled, after choosing Basic and after subscribing and paying |
| Membership.UsagePercentage | src/pages/MembershipPage.tsx:26 | an absent or empty usage entry reads as 0; any other entry is read by `parseInt` |
| Membership.WarningIffAboveSeventy | src/pages/MembershipPage.tsx:155-157 | a stored usage n shows the upgrade warning iff n > 70 |
| Membership.ZeroUsageReadsZero | src/pages/MembershipPage.tsx:26 | an absent or empty usage entry, like "0", reads as 0 and shows no warning |
| Membership.UsagePanelCases | src/pages/MembershipPage.tsx:139 | the usage panel is hidden when signed out, and shown for Basic or no plan |
| Membership.SubscribeThenConfirm | src/pages/MembershipPage.tsx:28-103 | subscribing and confirming, signed in with the payment library loaded, selects the plan, closes the dialog, ends processing and resets usage to 0; the panel hides iff the plan is Premium or Ultimate |
| Membership.SignedOutChangesNothing | src/pages/MembershipPage.tsx:29-51 | signed out, subscribing and confirming leave the page unchanged |
| Membership.FailedPaymentKeepsPlan | src/pages/MembershipPage.tsx:81-90 | a failed payment keeps the plan, the usage and the dialog |
| VideoCall.InitialCall | src/components/VideoCallComponent.tsx:17-20 | the call starts inactive, unmuted, with video on and nobody in it |
| VideoCall.SelfName | src/components/VideoCallComponent.tsx:29 | the viewer shows by name, or as "You" without a user or with an empty name |
| VideoCall.Roster | src/components/VideoCallComponent.tsx:26-29 | an active call lists four participants, the viewer first, then the three mock ones |
| VideoCall.StartCall | src/components/VideoCallComponent.tsx:24-49 | signed out, nothing changes; signed in, the call becomes active with the roster; the flags are kept |
| VideoCall.EndCall | src/components/VideoCallComponent.tsx:51-59 | the call becomes inactive and empty; the mic and video flags stay |
| VideoCall.ToggleMic | src/components/VideoCallComponent.tsx:61-67 | only the mic flag flips |
| VideoCall.ToggleVideo | src/components/VideoCallComponent.tsx:69-75 | only the video flag flips |
| VideoCall.TogglesRestoreAndCommute | src/components/VideoCallComponent.tsx:61-75 | two toggles restore the call, and the two toggles commute |
| VideoCall.OperationsKeepConsistent | src/components/VideoCallComponent.tsx:24-59 | every operation keeps the call either active with the four-person roster or inactive and empty |
| VideoCall.StartThenEnd | src/components/VideoCallComponent.tsx:38-59 | starting and ending a call returns to an empty, inactive call with the mic and video flags as they were |

## Left out

- Rendering, styling, toasts, focus and scroll effects, and router plumbing are left out. Navigation targets appear only as returned strings.
- JSON encoding and decoding of browser storage is left out: stored lists and maps are plain values. For the saved session, Auth.SavedSession distinguishes an absent or empty entry, a user's JSON, JSON that parses to a falsy value (`null`, `false`, `0`, `""`; the case SavedNull) and text that is not JSON.
- Auth.RestoreSessionAsWritten: a saved entry holding truthy JSON that is not a user (`1`, `"x"`, `{}`) becomes, in the source, a session "user" whose fields are undefined; the model has no such value and does not cover that case.
- Text.Lower: models `toLowerCase` on ASCII letters only; other characters are kept as they are.
- Discover.Sort: for "alphabetical", proves only a permutation. `localeCompare` is stood in for by a code-point comparison (Discover.CompareNames), whose order is not claimed to match the locale's.
- Lengths count Dafny characters (Unicode scalar values), while JavaScript counts UTF-16 code units. The two differ only for characters outside the Basic Multilingual Plane, which matters only for the 6-character password minimum.
- JsNumber.ParseInt: models `parseInt` on exact integers. The rounding of very large values to the nearest double is left out.
- Dates are opaque: the `createdAt` strings are parameters. Expiry is compared in milliseconds, which is exact because the ISO string round-trips a millisecond clock reading.
- The checkout request in the membership page is commented out in the source, so no price id is ever sent: Membership.GetPriceId is modelled as the unused mapping it is, and the payment is the simulated one.
- Stripe loading, the `setTimeout` delays and the asynchronous ordering in the membership page are left out. The library's loading is a boolean parameter and only the state transitions are modelled.
- The serverless reset and verify handlers under supabase/functions are left out. Their logic is calls into a hosted database client that is not part of this model, with a random token. The same reset semantics are modelled through the reset page.
- The search form's URL synchronisation in the discover page (`handleSearchSubmit` and the query-parameter effect) is left out; the query is a parameter.
- EmergencyServices (geolocation, timers), ShareDialog (window location, clipboard), SafetyButton, Navbar, App's providers, the layout, the cards and message components, and the profile, settings and static pages are left out: they only render or toast.
- A post author's avatar is kept only as an optional field; it is never inspected.

## Findings

| source | as written | input that shows it | evidently intended | confidence | as-written member | corrected member |
|---|---|---|---|---|---|---|
| src/pages/CreateCommunityPage.tsx:70 | after a create the page opens /community/ followed by the clock reading, but the community page looks only in its three demo communities and falls back to "Music Lovers"; src/App.tsx declares no route for /create-community (the link in src/pages/Index.tsx:82 reaches NotFound), so this shows only once the page is routed | create "Chess" at clock reading 1700000000000: the page opened shows "Music Lovers" | the page opened shows the community just created, read from the saved list | not executed | CommunityLookup.CreatedCommunityNotShown | CommunityLookup.CreatedCommunityShown |
| src/contexts/AuthContext.tsx:30-34 | a stored session whose JSON is falsy (`null`, `false`, `0` or `""`) parses without error, so the user is set to that falsy value while the signed-in flag becomes true | the "user" entry holds the text null (likewise false, 0 or "" in quotes): the viewer counts as signed in with no user | a falsy or unparseable entry is dropped and the viewer stays signed out | not executed (reachable only through an edited storage entry) | Auth.RestoreAsWrittenBreaksInvariant | Auth.RestoreSession |
