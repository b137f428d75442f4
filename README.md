# SkillSwap and portfolio front-ends: a Dafny model

This project models the client-side logic of two React front-ends.

- **SkillSwap** is a skill-exchange app. The model covers:
  - the session holder with its HTTP interceptors;
  - the route guards;
  - the dashboard's notification and exchange lists;
  - the profile editor;
  - the user search with request cancellation, and the exchange request;
  - the one-to-one chat;
  - the skill browser's filters.
- **The portfolio** contributes its project carousel and its contact form.

The model states each piece's contract and proves it.

State that a component or the session context changes step by step is a
`class`. Its methods say, with `modifies` and `old`, exactly what the new
state is. List updates, filters, counts, guards, URL and message choices
are functions, and lemmas prove what the source promises about them.

Awaited requests are never performed. Each handler that awaits one takes
the request's settled result as a parameter. That result is an `Outcome`:
the response body, or an `HttpError` that says whether the server answered,
with which status and `message`, and whether a request went out.

Files, one module each:

| file | module | models |
|---|---|---|
| wrappers.dfy | Wrappers | `Option`, request outcomes, JavaScript truthiness, `err.response?.data?.message \|\| fallback` |
| seqs.dfy | Seqs | `Array.prototype.filter`, subsequences, removal by index |
| strings.dfy | Strings | ASCII `toLowerCase`, `includes`, `trim`, integer-to-text, splitting at a separator |
| domain.dfy | Domain | users, skills, messages |
| auth_context.dfy | AuthContext | project/src/context/AuthContext.js |
| app_routes.dfy | AppRoutes | project/src/App.js |
| dashboard.dfy | Dashboard | project/src/components/pages/Dashboard.js |
| profile.dfy | Profile | project/src/components/pages/Profile.js |
| home.dfy | Home | project/src/components/pages/Home.js |
| messages.dfy | Messages | project/src/components/messages/Messages.js |
| skill_listing.dfy | SkillListing | project/src/components/pages/SkillListing.js |
| projects.dfy | Projects | portfolio/src/components/Projects.js |
| contact.dfy | Contact | portfolio/src/components/Contact.js |

Three behaviours of the code are easy to assume otherwise. The model
follows the code in each:

- **401 handling.** A 401 does not log the user out. The response
  interceptor only removes the stored token and sends the browser to
  `/login` with a full-page redirect. It does not clear the token or user
  state. `AuthSession.RejectResponse` models this, and a separate
  `redirect` field records the full-page redirect apart from router
  navigation (`path`).
- **Exchange responses.** `handleExchangeAction` does not check an
  exchange's status before changing it. The Accept and Decline buttons are
  simply not drawn for non-pending exchanges.
  `Dashboard.SharedIdFlipsTerminal` shows that two exchanges sharing an id
  flip together, whatever their status.
- **Stale searches.** A cancelled search's answer is discarded, but its
  `finally` still clears the loading flag (see Findings).

The code's async handlers do not guard against other events running while
they await. The model keeps each await of the chains below as its own step,
so that other handlers can run in between, and exhibits one interleaving for
each. Handlers modelled as a single step are listed under "## Left out".

- **Chat history.** A message that arrives over the socket while the
  history request is pending is appended, then dropped when the history
  replaces the list (`Messages.LiveMessageLostDuringLoad`).
- **Skill list.** Nothing cancels an earlier skills request, and each
  response is filtered by the filters its request was issued under. An
  older response that answers last replaces the newer list
  (`SkillListing.StaleResponseOverwrites`).
- **Profile save.** The inputs and Cancel stay live while a save is
  pending. Cancel mid-save restores the form from the old user, and the
  save then succeeds and closes the editor. The next Edit opens the old
  values, and saving them reverts the profile
  (`Profile.CancelDuringSaveLeavesStaleForm`).

## Model

| member | source | states |
|---|---|---|
| Wrappers.ServerMessage | project/src/context/AuthContext.js:85 | the server's message is used only when the error has a response with a body whose `message` is present and non-empty |
| Wrappers.MessageOr | project/src/context/AuthContext.js:85 | the result is the server's non-empty message when there is one, the fallback otherwise |
| Seqs.Filter | project/src/components/pages/SkillListing.js:44-46 | filtering keeps exactly the elements satisfying the predicate and never lengthens the list |
| Seqs.FilterIsSubsequence | project/src/components/pages/SkillListing.js:41-59 | a filtered list is an order-preserving subsequence of its input |
| Seqs.FilterFuse | project/src/components/pages/SkillListing.js:43-57 | filtering by one predicate and then another equals filtering once by their conjunction |
| Seqs.FilterKeepsAll | project/src/components/pages/SkillListing.js:41-59 | a predicate true of every element drops nothing |
| Seqs.FilterLengthCountsIndices | project/src/components/pages/Dashboard.js:180 | `filter(p).length` equals the number of positions whose element satisfies `p` |
| Seqs.DropIndexSpec | project/src/components/pages/Profile.js:84 | filtering out index `i` removes exactly element `i` and keeps the order; an out-of-range index leaves the list unchanged |
| Seqs.DropIndex | project/src/components/pages/Profile.js:84 | `filter((_, i) => i !== index)`; it has no ensures of its own, and Seqs.DropIndexSpec states what it removes |
| Strings.LowerChar | project/src/components/pages/SkillListing.js:50 | upper-case ASCII letters move down by 32, every other character is kept, and no result is upper case |
| Strings.Lower | project/src/components/pages/SkillListing.js:50-55 | lower-casing keeps the length and maps each character |
| Strings.IncludesIff | project/src/components/pages/SkillListing.js:53-55 | `s.includes(t)` holds exactly when some window of `s` equals `t` |
| Strings.Includes | project/src/components/pages/SkillListing.js:53-55 | `s.includes(t)`: a match needs a needle no longer than the string; Strings.IncludesIff states the window characterisation |
| Strings.TrimStart | project/src/components/messages/Messages.js:116 | the result is a suffix of the input, everything cut is whitespace, and it starts with non-whitespace |
| Strings.TrimEnd | project/src/components/messages/Messages.js:116 | the result is a prefix of the input, everything cut is whitespace, and it ends with non-whitespace |
| Strings.Trim | project/src/components/messages/Messages.js:116 | `trim()`: never longer than its input, and when non-empty it neither starts nor ends with whitespace; Strings.TrimSpec states the window and Strings.TrimEmptyIff the blank test |
| Strings.TrimOffset | project/src/components/messages/Messages.js:124 | the trimmed text starts within the input |
| Strings.TrimSpec | project/src/components/messages/Messages.js:124 | the trimmed text is a window of the input, whitespace is all that is cut on either side, and its ends are not whitespace |
| Strings.TrimEmptyIff | project/src/components/messages/Messages.js:116 | the trim is empty exactly when every character is whitespace |
| Strings.DigitChar | project/src/components/pages/Home.js:85 | a digit's character is one of '0' to '9' |
| Strings.NatToString | project/src/components/pages/Home.js:85 | a natural number's text is a non-empty run of decimal digits |
| Strings.IntToString | project/src/components/pages/Home.js:85 | `${n}`: the digits of a non-negative number, a leading minus for a negative one |
| Strings.NatToStringRoundTrip | project/src/components/pages/Home.js:85 | reading the digits back gives the number |
| Strings.IntToStringRoundTrip | project/src/components/pages/Home.js:85 | the text of any integer, negative ones included, is a signed decimal that reads back as the number, and it starts with a minus exactly when the number is negative |
| Strings.SplitAtFirst | portfolio/src/components/Contact.js:33 | the input splits at the first separator into a separator-free head and the rest |
| Strings.SplitAtFirstJoin | portfolio/src/components/Contact.js:33 | splitting `a + sep + b` at `sep` returns `a` and `b` when `a` has no `sep` |
| AuthContext.AuthorizeHeaders | project/src/context/AuthContext.js:13-18 | `Authorization: Bearer <token>` is set exactly when the token is truthy; no other header changes, and without a token the headers are untouched |
| AuthContext.BearerOnlyWithToken | project/src/context/AuthContext.js:13-18 | on a request without one, a bearer header appears if and only if the token is truthy, and it carries that token |
| AuthContext.AuthErrorMessage | project/src/context/AuthContext.js:104-108 | the error text is never empty; it is the server's message when sent, and equals the fallback only when none was sent or it was the same text |
| AuthContext.IsUnauthorized | project/src/context/AuthContext.js:28 | the interceptor's test, a response with status 401; it has no ensures of its own, and AuthContext.AuthSession.RejectResponse states what it decides |
| AuthContext.AuthSession.constructor | project/src/context/AuthContext.js:43-46 | the token is read from storage, there is no user and no error, and loading is on |
| AuthContext.AuthSession.RequestHeaders | project/src/context/AuthContext.js:50 | the instance built with the current token adds the bearer header exactly when that token is truthy |
| AuthContext.AuthSession.RejectResponse | project/src/context/AuthContext.js:25-35 | a 401 removes the stored token and redirects to `/login`; any other error changes nothing; every error is passed on unchanged |
| AuthContext.AuthSession.Logout | project/src/context/AuthContext.js:112-117 | the stored token is removed, token and user become null, and the router goes to `/` |
| AuthContext.AuthSession.Authenticate | project/src/context/AuthContext.js:72-109 | success stores and sets the token, sets the user, clears the error, goes to `/dashboard` and returns success; failure sets the error text, keeps token, user and location, and returns it |
| AuthContext.AuthSession.Login | project/src/context/AuthContext.js:92-110 | the login outcome as above, with the fallback 'Login failed'; success leaves the full-page redirect alone; a failure changes storage and the redirect only through a 401 |
| AuthContext.AuthSession.Register | project/src/context/AuthContext.js:72-90 | the register outcome as above, with the fallback 'Registration failed'; success leaves the full-page redirect alone; a failure changes storage and the redirect only through a 401 |
| AuthContext.AuthSession.UpdateProfile | project/src/context/AuthContext.js:119-134 | success replaces the user; failure keeps the user and returns the server's message or 'Profile update failed'; storage and the redirect change only through a 401; token, error, loading and location are kept |
| AuthContext.AuthSession.LoadUser | project/src/context/AuthContext.js:52-70 | without a token nothing but loading changes; with one, a fetched user is set and a failed fetch logs out, redirecting to `/login` only for a 401; the redirect is kept on every other path; loading ends false on every path |
| AppRoutes.PrivateRoute | project/src/App.js:15-18 | children render if and only if a user is present, otherwise redirect to `/login` |
| AppRoutes.PublicRoute | project/src/App.js:20-23 | children render if and only if no user is present, otherwise redirect to `/dashboard` |
| AppRoutes.ExactlyOneGuardRenders | project/src/App.js:15-23 | for every session exactly one of the two guards renders its children |
| AppRoutes.GuardFrom | project/src/App.js:30-80 | from a given position on, a guard is found exactly when a later route has that path, and it is that route's guard |
| AppRoutes.GuardOf | project/src/App.js:30-80 | a guard is found exactly when a route with that path is declared, and it is that route's guard |
| AppRoutes.GuardFromFirstMatch | project/src/App.js:30-80 | from a given position on, the earliest route with the path decides the guard, whatever later routes declare |
| AppRoutes.GuardOfFirstMatch | project/src/App.js:30-80 | the first route declared with the path decides its guard |
| AppRoutes.Render | project/src/App.js:31-79 | an unguarded route always renders; a private one exactly when signed in; a public one exactly when signed out |
| AppRoutes.RouteGuards | project/src/App.js:31-79 | dashboard, profile and both message routes are private, login and register public, `/` unguarded |
| AppRoutes.RenderBySession | project/src/App.js:31-79 | a declared route redirects exactly when it is private and nobody is signed in, or public and someone is |
| Dashboard.MarkRead | project/src/components/pages/Dashboard.js:102-106 | length, order and every field but `read` are kept; `read` becomes true exactly on notifications with the id |
| Dashboard.MarkReadIdempotent | project/src/components/pages/Dashboard.js:102-106 | marking the same id twice equals marking it once |
| Dashboard.MarkReadClears | project/src/components/pages/Dashboard.js:102-106 | afterwards no notification with that id is unread |
| Dashboard.UnreadCount | project/src/components/pages/Dashboard.js:158-160 | the unread count never exceeds the number of notifications |
| Dashboard.UnreadCountAfterMarkRead | project/src/components/pages/Dashboard.js:102-106 | marking read lowers the unread count by exactly the number of unread notifications with that id, so it never raises it |
| Dashboard.Badge | project/src/components/pages/Dashboard.js:158-162 | the badge appears if and only if some notification is unread, and it shows the positive unread count |
| Dashboard.StatusAfter | project/src/components/pages/Dashboard.js:111 | 'accept' gives active, every other action gives rejected, and neither is pending |
| Dashboard.ApplyAction | project/src/components/pages/Dashboard.js:108-114 | length and order are kept; exactly the exchanges with the id get the action's status, the others are unchanged |
| Dashboard.ButtonPressOnlyLeavesPending | project/src/components/pages/Dashboard.js:292-307 | with distinct ids, pressing Accept or Decline on a pending exchange changes only that one, and no active or rejected exchange ever changes status |
| Dashboard.SharedIdFlipsTerminal | project/src/components/pages/Dashboard.js:108-114 | with a shared id, accepting the pending exchange also activates a rejected one |
| Dashboard.ActiveCount | project/src/components/pages/Dashboard.js:178-181 | the active figure never exceeds the number of exchanges |
| Dashboard.ActiveCountSpec | project/src/components/pages/Dashboard.js:180 | the active figure is the number of exchanges whose status is active |
| Dashboard.InsertByRecency | project/src/components/pages/Dashboard.js:203-204 | insertion adds exactly the one notification |
| Dashboard.InsertKeepsSorted | project/src/components/pages/Dashboard.js:203-204 | inserting into a newest-first list keeps it newest first |
| Dashboard.SortByRecency | project/src/components/pages/Dashboard.js:203-204 | the sorted copy is newest first and a permutation of the notifications |
| Dashboard.RecentActivitySpec | project/src/components/pages/Dashboard.js:203-205 | recent activity has min(3, n) entries, newest first, all taken from the list, and no notification left out is newer than one shown |
| Dashboard.RecentActivity | project/src/components/pages/Dashboard.js:203-205 | `sort` newest first, then `slice(0, 3)`: min(3, n) entries, newest first; Dashboard.RecentActivitySpec adds that they come from the list and nothing left out is newer |
| Dashboard.SortedPrefix | project/src/components/pages/Dashboard.js:205 | a slice of a newest-first list is newest first and nothing after it is newer |
| Dashboard.DashboardState.constructor | project/src/components/pages/Dashboard.js:90-91 | the state starts from the given notification and exchange lists |
| Dashboard.DashboardState.MarkNotificationAsRead | project/src/components/pages/Dashboard.js:102-106 | notifications become their marked-read list, exchanges are kept, and the unread count does not rise |
| Dashboard.DashboardState.HandleExchangeAction | project/src/components/pages/Dashboard.js:108-114 | exchanges become the list with the action applied, notifications are kept |
| Dashboard.DashboardState.UnreadBadge | project/src/components/pages/Dashboard.js:158-162 | the badge of the state's notifications: shown exactly when one is unread, with a positive count no larger than the list |
| Dashboard.DashboardState.ActiveExchanges | project/src/components/pages/Dashboard.js:178-181 | the active figure of the state's exchanges, never above their number; Dashboard.ActiveCountSpec states what it counts |
| Dashboard.DashboardState.Recent | project/src/components/pages/Dashboard.js:203-205 | the recent activity of the state's notifications: min(3, n) entries, newest first |
| Profile.FormOf | project/src/components/pages/Profile.js:14-19 | the form starts from the user's name, bio and skill lists, or empty values without a user |
| Profile.ChangeField | project/src/components/pages/Profile.js:34-40 | only the named field changes |
| Profile.ProfileEditor.constructor | project/src/components/pages/Profile.js:9-32 | not editing, not loading, no error, form from the user, empty drafts with level 'Intermediate' |
| Profile.ProfileEditor.HandleInputChange | project/src/components/pages/Profile.js:34-40 | only the named form field changes; drafts, error and mode are kept |
| Profile.ProfileEditor.HandleAddOfferedSkill | project/src/components/pages/Profile.js:42-60 | an incomplete draft sets the error and changes nothing else; a complete one is appended, the draft resets with level 'Intermediate', the error clears |
| Profile.ProfileEditor.HandleAddRequiredSkill | project/src/components/pages/Profile.js:62-79 | the same validate-then-append rule for required skills, with an empty draft afterwards |
| Profile.ProfileEditor.HandleRemoveOfferedSkill | project/src/components/pages/Profile.js:81-86 | exactly entry `index` is removed and the rest keep their order; an out-of-range index changes nothing |
| Profile.ProfileEditor.HandleRemoveRequiredSkill | project/src/components/pages/Profile.js:88-93 | the same for required skills |
| Profile.ProfileEditor.StartEditing | project/src/components/pages/Profile.js:147 | edit mode turns on and nothing else changes |
| Profile.ProfileEditor.Cancel | project/src/components/pages/Profile.js:289-299 | edit mode ends and name, bio and both skill lists are restored from the saved user |
| Profile.ProfileEditor.BeginSubmit | project/src/components/pages/Profile.js:95-109 | while no save is pending (Save is disabled during one), loading starts, error and success clear, and the current form is what the PUT sends; the form, drafts and edit mode are kept |
| Profile.ProfileEditor.PutSettled | project/src/components/pages/Profile.js:101-118 | a successful PUT hands its answer on to `updateProfile` and leaves loading on; a failed one shows the server's message or 'Failed to update profile' and ends loading; form, drafts, edit mode and success are kept |
| Profile.ProfileEditor.UpdateSettled | project/src/components/pages/Profile.js:110-118 | once `updateProfile` settles, success is reported and edit mode ends whatever it returned, and loading ends; the form as it stands by now is kept; the session's user follows a successful update, its storage and redirect change only through a 401, and its token, error, loading and location are kept |
| Profile.CancelDuringSaveLeavesStaleForm | project/src/components/pages/Profile.js:95-119 | a rename saved while Cancel is pressed mid-save leaves the session holding the new name and the form, closed, holding the old one |
| Home.PrepareExchangeRequest | project/src/components/pages/Home.js:41-66 | a request is sent if and only if a user with an offered skill is signed in; the payload carries the arguments unchanged and the user's first offered skill's title |
| Home.ExchangeErrorMessage | project/src/components/pages/Home.js:82-92 | a server answer with a `null` body makes the handler throw, so no alert appears; any other server answer gives its message or "Server error: <status>"; no answer gives the connection message; otherwise the error's own text or the generic one; an alert is never empty |
| Home.ServerErrorNamesStatus | project/src/components/pages/Home.js:85 | the status can be read back from the "Server error" text |
| Home.BuildParams | project/src/components/pages/Home.js:112-120 | `query` is present if and only if the query is non-empty, `category` if and only if the category is non-empty and not 'All', each with its input value, and nothing else |
| Home.ExcludeSelf | project/src/components/pages/Home.js:133-134 | `filter(u => u._id !== currentUser?._id)`: no longer than the response, and a user is kept exactly when in the response and not the current user; Home.ExcludeSelfSpec adds the order |
| Home.ExcludeSelfSpec | project/src/components/pages/Home.js:133-134 | the filtered list is an ordered subsequence of the response, without the current user's id, keeping everyone else; with nobody signed in it keeps everyone |
| Home.ShuffledOmitsSelf | project/src/components/pages/Home.js:133-137 | any shuffle of the filtered list shows only users from the response, never the current user |
| Home.UserSearch.OnlyLatestLive | project/src/components/pages/Home.js:98-104 | only the latest request can be live |
| Home.UserSearch.constructor | project/src/components/pages/Home.js:27-29 | no users, not loading, no error, no request yet |
| Home.UserSearch.CancelCurrent | project/src/components/pages/Home.js:168-172 | the current request, if any, is cancelled and nothing else changes |
| Home.UserSearch.BeginFetch | project/src/components/pages/Home.js:97-120 | the previous request is cancelled before a new one is issued, which is then the only live one; loading is on and the error cleared; `query` and `category` are sent exactly under BuildParams's conditions, with their input values, and no other parameter |
| Home.UserSearch.OnDependenciesChanged | project/src/components/pages/Home.js:162-173 | the previous request is cancelled; a new one is issued if and only if the token is truthy, and it is then the only live request, with loading on and the error cleared; without a token no request is live and loading and error are kept; the users and the settled requests never change here |
| Home.UserSearch.CompleteFetch | project/src/components/pages/Home.js:132-158 | each request settles once; a cancelled request sets no error and no users; a live success shows the shuffled filtered list and sets the no-match error when it is empty; a live failure sets the server's message or the fallback; loading ends false |
| Home.UserSearch.CompleteFetchIntended | project/src/components/pages/Home.js:145-158 | as above, but a cancelled request changes nothing, so the spinner stays on while the latest request is pending |
| Home.StaleCompletionHidesSpinner | project/src/components/pages/Home.js:145-158 | two searches in a row: the first one's `finally` turns loading off while the second is still pending |
| Home.StaleCompletionKeepsSpinner | project/src/components/pages/Home.js:145-158 | the same sequence under the intended completion keeps loading on |
| Messages.AcceptIncoming | project/src/components/messages/Messages.js:51-56 | an incoming message is appended if and only if the peer sent it or receives it |
| Messages.ReceiveAllAppendsInvolved | project/src/components/messages/Messages.js:51-56 | over any run of incoming messages, exactly those involving the peer are appended, in arrival order |
| Messages.SendRejected | project/src/components/messages/Messages.js:116 | the send handler's early-return guard; it has no ensures of its own, and Messages.SendButtonMatchesGuard states that it rejects exactly a blank input, a send in flight or a closed socket |
| Messages.SendButtonDisabled | project/src/components/messages/Messages.js:208 | the send button's `disabled` test; it has no ensures of its own, and Messages.SendButtonMatchesGuard states that it equals the handler's guard |
| Messages.SendButtonMatchesGuard | project/src/components/messages/Messages.js:208 | the send button is disabled exactly when the handler's guard (line 116) rejects, and a blank input is one of whitespace only |
| Messages.ChatChannel.constructor | project/src/components/messages/Messages.js:12-18 | no messages, empty input, no recipient, loading, no error, not sending, not connected |
| Messages.ChatChannel.OnConnect | project/src/components/messages/Messages.js:34-38 | connected, error cleared; messages, input, sending flag, recipient, loading and the history load are kept |
| Messages.ChatChannel.OnConnectError | project/src/components/messages/Messages.js:40-44 | not connected, reconnect error set; messages, input, sending flag, recipient, loading and the history load are kept |
| Messages.ChatChannel.OnDisconnect | project/src/components/messages/Messages.js:46-49 | not connected, error kept; messages, input, sending flag, recipient, loading and the history load are kept |
| Messages.ChatChannel.OnSocketError | project/src/components/messages/Messages.js:58-61 | the socket error is set, the connected flag kept; messages, input, sending flag, recipient, loading and the history load are kept |
| Messages.ChatChannel.OnMessage | project/src/components/messages/Messages.js:51-56 | the list becomes the incoming-message update, at any point of a history load, and nothing else changes |
| Messages.ChatChannel.HandleInputChange | project/src/components/messages/Messages.js:196-204 | typing is possible only while connected and not sending (the input's `disabled`); the input takes the typed value; messages, error, the connected and sending flags, recipient, loading and the history load are kept |
| Messages.ChatChannel.BeginSend | project/src/components/messages/Messages.js:113-136 | nothing is sent (and nothing changes) exactly when the input is blank, a send is in flight or the socket is down; otherwise the content is the non-empty trimmed input, sending is on and the error cleared; recipient, loading and the history load are kept |
| Messages.ChatChannel.FinishSend | project/src/components/messages/Messages.js:137-146 | success appends the server's message and clears the input; failure sets the error and keeps the input; sending ends false; recipient, loading and the history load are kept |
| Messages.ChatChannel.BeginLoad | project/src/components/messages/Messages.js:73-78 | without both a token and a peer nothing changes, loading included; otherwise loading starts, the error clears and the recipient request is awaited |
| Messages.ChatChannel.RecipientLoaded | project/src/components/messages/Messages.js:81-101 | a recipient sets the recipient and the history request is awaited; a failure sets the server's message or the fallback and ends loading; the list is kept |
| Messages.ChatChannel.HistoryLoaded | project/src/components/messages/Messages.js:90-101 | success replaces the list with the history, whatever arrived meanwhile; failure keeps the list and sets the error; loading ends false |
| Messages.LiveMessageLostDuringLoad | project/src/components/messages/Messages.js:51-96 | a peer's message received while the history request is pending is shown, then lost when a history without it replaces the list |
| SkillListing.SkillsUrl | project/src/components/pages/SkillListing.js:31-36 | the URL is the endpoint, followed by `/category/<c>` exactly when a category is set |
| SkillListing.IncludesLower | project/src/components/pages/SkillListing.js:53-55 | lower-casing both sides preserves an occurrence |
| SkillListing.SearchIgnoresCase | project/src/components/pages/SkillListing.js:49-57 | a term found in the title, description or category keeps the skill, whatever the case of the term |
| SkillListing.MatchesSearch | project/src/components/pages/SkillListing.js:50-56 | the search test on title, description and category; it has no ensures of its own, and SkillListing.SearchIgnoresCase states that it ignores case |
| SkillListing.Shown | project/src/components/pages/SkillListing.js:41-59 | the reference definition of the filter chain, one filter by every set condition; it has no ensures of its own, and SkillListing.ApplyFilters is proved equal to it |
| SkillListing.ApplyFilters | project/src/components/pages/SkillListing.js:41-59 | the result is exactly the fetched skills passing every set filter, as an order-preserving subsequence; with no filter set it is the fetched list |
| SkillListing.SkillBrowser.constructor | project/src/components/pages/SkillListing.js:8-13 | no skills, all three filters empty, no request issued |
| SkillListing.SkillBrowser.ChangeFilter | project/src/components/pages/SkillListing.js:88-125 | only the named filter changes; skills and requests are kept |
| SkillListing.SkillBrowser.BeginFetchSkills | project/src/components/pages/SkillListing.js:27-36 | a new request is issued under the current filters, which it keeps, and earlier requests stay outstanding; the URL follows the category |
| SkillListing.SkillBrowser.CompleteFetchSkills | project/src/components/pages/SkillListing.js:37-62 | each request settles once; success shows the answer filtered by the request's own filters, as an ordered subsequence, whether or not a newer request exists; a failure keeps the shown skills |
| SkillListing.StaleResponseOverwrites | project/src/components/pages/SkillListing.js:27-62 | an older unfiltered request answering after a newer "Expert" one leaves a beginner skill shown under the "Expert" filter |
| Projects.Step | portfolio/src/components/Projects.js:46 | the next index stays below the length and wraps from the last index to 0 |
| Projects.TicksFromZero | portfolio/src/components/Projects.js:45-47 | after n ticks from 0 the index is n mod len |
| Projects.StepMod | portfolio/src/components/Projects.js:46 | one step from `k mod len` lands on `(k + 1) mod len` |
| Projects.Marks | portfolio/src/components/Projects.js:78-82 | position `i` is marked exactly when it is the current index |
| Projects.ExactlyOneMarked | portfolio/src/components/Projects.js:117-122 | exactly one position is marked when the current index is in range |
| Projects.PortfolioCountsUsable | portfolio/src/components/Projects.js:4-38 | the portfolio lists some projects and every one has images |
| Projects.Carousel.constructor | portfolio/src/components/Projects.js:41-42 | both indices start at 0 |
| Projects.Carousel.OneActiveCardOneImage | portfolio/src/components/Projects.js:75-122 | exactly one card is active and exactly one image has opacity 1 |
| Projects.Carousel.ActiveCards | portfolio/src/components/Projects.js:78-82 | one flag per project, set exactly at the current project |
| Projects.Carousel.VisibleImages | portfolio/src/components/Projects.js:117-122 | one flag per image of the current project, set exactly at the current image |
| Projects.Carousel.ImageTick | portfolio/src/components/Projects.js:45-47 | the image index takes one wrapping step and stays in range |
| Projects.Carousel.CardTick | portfolio/src/components/Projects.js:49-52 | the project index takes one wrapping step and the image index resets to 0 |
| Projects.Carousel.DotClick | portfolio/src/components/Projects.js:60-63 | the project index is the clicked one and the image index resets to 0 |
| Contact.WithInput | portfolio/src/components/Contact.js:11-16 | only the named field changes |
| Contact.ComposeUrl | portfolio/src/components/Contact.js:33 | the compose URL starts with the fixed Gmail prefix and is exactly as long as its parts; Contact.ComposeUrlRoundTrip reads subject and body back |
| Contact.ComposeUrlRoundTrip | portfolio/src/components/Contact.js:29-33 | the encoded subject and body are read back from the compose URL unchanged |
| Contact.ContactForm.constructor | portfolio/src/components/Contact.js:5-9 | the form starts empty |
| Contact.ContactForm.HandleChange | portfolio/src/components/Contact.js:11-16 | only the named input changes |
| Contact.ContactForm.HandleSubmit | portfolio/src/components/Contact.js:18-44 | nothing opens, and the form is kept, exactly when email or message is empty (the name is not checked); otherwise the compose URL of the encoded subject and body opens and the form is cleared |

## Left out

- Network, storage and browser effects are not performed. HTTP calls,
  `localStorage`, `window.location`, `window.open`, `alert` and console
  logging become parameters or fields: request outcomes are inputs,
  storage is a map field, and the redirect and the opened URL are
  recorded values. Alerts are not recorded: the exchange alert's text is
  a function's result, and the contact form's alert is only its `None`
  result.
- All JSX rendering and CSS are left out. So is the choice of which view
  (loading, error, list) is drawn.
- Timers are left out:
  - the 300 ms debounce of the search query, which is an input here;
  - the carousel's 3 s and 9 s intervals, whose callbacks are methods;
  - the dashboard's one-second mock loading delay.
- The random shuffle of search results is left out. `Math.random` comparisons
  are floating point. The shuffled list is an input required to be a
  permutation of the filtered response.
- Timestamps are integers. Date parsing and locale formatting are not
  modelled.
- `encodeURIComponent` is the function parameter `encode` of
  `Contact.ContactForm.HandleSubmit`. The round-trip lemma relies on one
  property of it: its output never holds `&`.
- Strings.Lower: only ASCII letters are lower-cased. Unicode case mapping is
  not modelled.
- Strings.IsWhitespace: `trim` strips ASCII whitespace, no-break space and the
  byte-order mark. The other Unicode space separators and line terminators
  are not modelled.
- The socket.io connection is left out: its options, its reconnection policy
  (five attempts, one-second delay) and its disconnect on cleanup. The
  socket is only created when a token is present. The model does not track
  that, so events are methods anyone may call.
- The server's handling of exchanges, messages and users is left out
  (project/server.js is not part of this model). No reconciliation of a
  locally flipped exchange status is invented.
- Some components are not part of this model:
  - project/src/components/pages/Messages.js, a polling chat that no route
    uses;
  - Conversations.js;
  - Navbar.js;
  - the API endpoint constants;
  - the portfolio's Header.js, which is driven by IntersectionObserver;
  - the static portfolio pages.
- Successful response bodies are assumed to have the shape the code reads.
  A malformed 2xx body makes these lines throw inside `try`, taking the
  failure path with the fallback text or the TypeError's own message:
  `const { token, user } = response.data` (project/src/context/AuthContext.js:75
  and 95), `response.data.recipient.user.name` (project/src/components/pages/Home.js:71-73)
  and `response.data.filter` (project/src/components/pages/Home.js:133).
  `Outcome.Ok` always carries a well-formed value, so that path is not modelled.
- Messages.ChatChannel: the peer is a constant and a history load starts
  only when none is pending. A change of the `:recipientId` route
  parameter under the same mounted page starts a second `fetchData`
  beside a pending one, with neither cancellation nor a staleness check,
  so the slower answer wins. No in-app link goes from one chat to another,
  so only browser-history navigation reaches this, and the model does not
  capture it.
- AuthContext.AuthSession: `login`, `register`, `updateProfile` and the
  user load do nothing before their one await, so each is a single step
  taken when its request settles. Anything that ran while it was pending
  is a method called before it. The user load is taken with the token held
  when it settles. A load still pending when the token changes, say by a
  login, runs beside the load the new token starts, and the model does not
  capture that.
- The success branch of `handleExchangeRequest` only formats an alert from
  the response, so the model stops at the payload sent.
- `handleInitiateExchange` in SkillListing.js is left out. It only alerts a
  fixed text for each outcome.
- The dashboard's mock data is not reproduced. The dashboard state starts
  from any lists.
- The Profile page's inline draft handlers (`setNewOfferedSkill` from the
  inputs) are left out. The drafts are plain fields that callers set.
- Home.UserSearch.CompleteFetch: a request's outcome and the user it filters
  by are passed in when it settles. The captured request configuration and
  headers are not modelled.

## Findings

| source | as written | input that shows it | evidently intended | confidence | as-written member | corrected member |
|---|---|---|---|---|---|---|
| project/src/components/pages/Home.js:145-158 | a cancelled search returns from `catch`, but its `finally` still sets `loading` to false | the query changes while a search is in flight: the old search is cancelled and a new one issued, then the old promise rejects with the cancellation and turns loading off while the new search is pending, so the stale list is drawn without a spinner | a cancelled search leaves all state, `loading` included, to the search that replaced it | medium, not executed | Home.StaleCompletionHidesSpinner | Home.UserSearch.CompleteFetchIntended |
