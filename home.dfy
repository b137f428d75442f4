/** The user search and exchange request of the SkillSwap client
    (project/src/components/pages/Home.js). */
module Home {
  import opened Wrappers
  import opened Domain
  import opened Seqs
  import opened Strings

  // ---------------------------------------------------------------------
  // Exchange requests

  const NotSignedInAlert: string := "Please log in to send an exchange request."
  const NoSkillsAlert: string := "You need to add skills to your profile before requesting an exchange."
  const NoResponseMessage: string := "No response from server. Check your internet connection."
  const UnexpectedMessage: string := "An unexpected error occurred."

  /** The body POSTed to the exchanges endpoint. `providerSkill` is the
      provider's first offered title, absent when the provider offers none. */
  datatype ExchangePayload = ExchangePayload(providerId: string, providerSkill: Option<string>, requesterSkill: string)

  /** What `handleExchangeRequest` does before any request goes out. */
  datatype ExchangeRequest = Refused(alert: string) | Send(payload: ExchangePayload)

  /** The guards and payload of `handleExchangeRequest`: nothing is sent
      without a signed-in user who offers at least one skill, and the
      requester's skill is always the title of their first offered skill. */
  function PrepareExchangeRequest(currentUser: Option<User>, providerId: string, providerSkill: Option<string>): (d: ExchangeRequest)
    ensures d.Send? <==> currentUser.Some? && |currentUser.value.offeredSkills| > 0
    ensures currentUser.None? ==> d == Refused(NotSignedInAlert)
    ensures currentUser.Some? && currentUser.value.offeredSkills == [] ==> d == Refused(NoSkillsAlert)
    ensures d.Send? ==>
      && d.payload.providerId == providerId
      && d.payload.providerSkill == providerSkill
      && d.payload.requesterSkill == currentUser.value.offeredSkills[0].title
  {
    if currentUser.None? then Refused(NotSignedInAlert)
    else if |currentUser.value.offeredSkills| == 0 then Refused(NoSkillsAlert)
    else Send(ExchangePayload(providerId, providerSkill, currentUser.value.offeredSkills[0].title))
  }

  /** The alert shown when the exchange request fails, or `None` when the
      error handler itself throws: it reads `err.response.data.message`
      without an optional chain after `data`, so a response whose body is
      `null` raises a TypeError inside the `catch` and no alert appears. */
  function ExchangeErrorMessage(e: HttpError): (m: Option<string>)
    ensures m.None? <==> e.response.Some? && e.response.value.data.None?
    ensures m.Some? ==> m.value != ""
    ensures m.Some? && e.response.Some? && ServerMessage(e).Some? ==> m.value == ServerMessage(e).value
    ensures m.Some? && e.response.Some? && ServerMessage(e).None? ==>
      m.value == "Server error: " + IntToString(e.response.value.status)
    ensures e.response.None? && e.requestSent ==> m == Some(NoResponseMessage)
    ensures e.response.None? && !e.requestSent && e.message != "" ==> m == Some(e.message)
    ensures e.response.None? && !e.requestSent && e.message == "" ==> m == Some(UnexpectedMessage)
  {
    if e.response.Some? then
      if e.response.value.data.None? then None
      else match ServerMessage(e)
        case Some(msg) => Some(msg)
        case None => Some("Server error: " + IntToString(e.response.value.status))
    else if e.requestSent then Some(NoResponseMessage)
    else if e.message != "" then Some(e.message)
    else Some(UnexpectedMessage)
  }

  /** A status code can be read back from the "Server error" text. */
  lemma ServerErrorNamesStatus(e: HttpError)
    requires e.response.Some? && e.response.value.data.Some? && ServerMessage(e).None?
    requires e.response.value.status >= 0
    ensures var m := ExchangeErrorMessage(e).value;
      m[..14] == "Server error: " && DigitsValue(m[14..]) == e.response.value.status
  {
    var m := ExchangeErrorMessage(e).value;
    assert m[14..] == NatToString(e.response.value.status);
    NatToStringRoundTrip(e.response.value.status);
  }

  // ---------------------------------------------------------------------
  // User search

  const NoUsersFound: string := "No users found matching your search criteria."
  const FetchUsersFailed: string := "Failed to fetch users. Please check your connection."

  /** The query parameters of the search request, built as the source
      builds them: `query` only for a non-empty query, `category` only for
      a non-empty category other than "All". */
  method BuildParams(debouncedQuery: string, selectedCategory: string) returns (params: map<string, string>)
    ensures "query" in params <==> debouncedQuery != ""
    ensures "query" in params ==> params["query"] == debouncedQuery
    ensures "category" in params <==> selectedCategory != "" && selectedCategory != "All"
    ensures "category" in params ==> params["category"] == selectedCategory
    ensures params.Keys <= {"query", "category"}
  {
    params := map[];
    if debouncedQuery != "" {
      params := params["query" := debouncedQuery];
    }
    if selectedCategory != "" && selectedCategory != "All" {
      params := params["category" := selectedCategory];
    }
  }

  /** `u._id !== currentUser?._id`: with nobody signed in, everyone stays. */
  predicate NotSelf(me: Option<string>, u: User)
  {
    me.None? || u.id != me.value
  }

  /** `response.data.filter(u => u._id !== currentUser?._id)`. */
  function ExcludeSelf(users: seq<User>, me: Option<string>): (r: seq<User>)
    ensures |r| <= |users|
    ensures forall u :: u in r <==> u in users && NotSelf(me, u)
  {
    Filter(users, u => NotSelf(me, u))
  }

  /** The filtered list keeps every other user in order and drops every
      entry with the current user's id. */
  lemma ExcludeSelfSpec(users: seq<User>, me: Option<string>)
    ensures IsSubsequence(ExcludeSelf(users, me), users)
    ensures me.Some? ==> forall u :: u in ExcludeSelf(users, me) ==> u.id != me.value
    ensures forall u :: u in users && NotSelf(me, u) ==> u in ExcludeSelf(users, me)
    ensures me.None? ==> ExcludeSelf(users, me) == users
  {
    FilterIsSubsequence(users, u => NotSelf(me, u));
    if me.None? {
      FilterKeepsAll(users, u => NotSelf(me, u));
    }
  }

  /** Any order of the filtered list still omits the current user. */
  lemma ShuffledOmitsSelf(users: seq<User>, me: Option<string>, shown: seq<User>)
    requires multiset(shown) == multiset(ExcludeSelf(users, me))
    requires me.Some?
    ensures forall u :: u in shown ==> u.id != me.value && u in users
  {
    forall u | u in shown ensures u.id != me.value && u in users {
      assert u in multiset(shown);
      assert u in ExcludeSelf(users, me);
    }
  }

  /** The search's state. Each fetch creates a new cancel token; the tokens
      are numbered 1, 2, ... in creation order, `latest` is the number of
      the current one, `cancelled` holds those that were cancelled and
      `settled` those whose promise has settled. */
  class UserSearch {
    var latest: nat
    var cancelled: set<nat>
    var settled: set<nat>
    var loading: bool
    var error: Option<string>
    var users: seq<User>

    /** Every request but the latest has been cancelled, and only issued
        requests are ever cancelled. */
    ghost predicate Valid()
      reads this
    {
      && (forall g: nat :: 1 <= g < latest ==> g in cancelled)
      && (forall g :: g in cancelled ==> 1 <= g <= latest)
    }

    /** A request whose answer would still be applied. */
    predicate Live(g: nat)
      reads this
    {
      1 <= g <= latest && g !in cancelled
    }

    /** The spinner shows while the latest request is live and has not
        settled. */
    ghost predicate SpinnerWhilePending()
      reads this
    {
      Live(latest) && latest !in settled ==> loading
    }

    /** At most one request is live: the latest. */
    lemma OnlyLatestLive(g: nat)
      requires Valid()
      ensures Live(g) ==> g == latest
    {
    }

    constructor ()
      ensures Valid() && SpinnerWhilePending() && latest == 0 && cancelled == {} && settled == {}
      ensures !loading && error == None && users == []
    {
      latest := 0;
      cancelled := {};
      settled := {};
      loading := false;
      error := None;
      users := [];
    }

    /** The effect's cleanup: the current token, if any, is cancelled. */
    method CancelCurrent()
      requires Valid()
      modifies this
      ensures Valid() && SpinnerWhilePending()
      ensures latest == old(latest) && settled == old(settled)
      ensures cancelled == if latest > 0 then old(cancelled) + {latest} else old(cancelled)
      ensures loading == old(loading) && error == old(error) && users == old(users)
    {
      if latest > 0 {
        cancelled := cancelled + {latest};
      }
    }

    /** The synchronous start of `fetchUsers`: the previous request is
        cancelled before a new token is created and the request issued
        with the returned parameters. */
    method BeginFetch(debouncedQuery: string, selectedCategory: string) returns (request: nat, params: map<string, string>)
      requires Valid()
      modifies this
      ensures Valid() && SpinnerWhilePending() && settled == old(settled)
      ensures request == latest == old(latest) + 1
      ensures Live(request) && forall g :: Live(g) ==> g == request
      ensures cancelled == if old(latest) > 0 then old(cancelled) + {old(latest)} else old(cancelled)
      ensures loading && error == None && users == old(users)
      ensures "query" in params <==> debouncedQuery != ""
      ensures "query" in params ==> params["query"] == debouncedQuery
      ensures "category" in params <==> selectedCategory != "" && selectedCategory != "All"
      ensures "category" in params ==> params["category"] == selectedCategory
      ensures params.Keys <= {"query", "category"}
    {
      CancelCurrent();
      latest := latest + 1;
      request := latest;
      loading := true;
      error := None;
      params := BuildParams(debouncedQuery, selectedCategory);
    }

    /** The effect: after the previous run's cleanup, users are fetched
        only when a token is present. */
    method OnDependenciesChanged(token: Option<string>, debouncedQuery: string, selectedCategory: string)
      returns (request: Option<nat>)
      requires Valid()
      modifies this
      ensures Valid() && SpinnerWhilePending() && settled == old(settled) && users == old(users)
      ensures request.Some? <==> Truthy(token)
      ensures request.Some? ==>
        && request.value == latest == old(latest) + 1
        && Live(latest) && (forall g :: Live(g) ==> g == latest)
        && cancelled == (if old(latest) > 0 then old(cancelled) + {old(latest)} else old(cancelled))
        && loading && error == None
      ensures request.None? ==>
        && latest == old(latest) && !Live(latest)
        && cancelled == (if old(latest) > 0 then old(cancelled) + {old(latest)} else old(cancelled))
        && loading == old(loading) && error == old(error)
    {
      CancelCurrent();
      if Truthy(token) {
        var r, _ := BeginFetch(debouncedQuery, selectedCategory);
        request := Some(r);
      } else {
        request := None;
      }
    }

    /** The rest of `fetchUsers` once request `request` settles. A request
        that was cancelled changes nothing but `loading` (its `finally`
        still runs). Otherwise the answer, less the current user (`me`),
        in some shuffled order `shuffled`, becomes the list; an empty
        list sets the no-match error; a failure sets the server's message
        or the fallback and keeps the list. */
    method CompleteFetch(request: nat, outcome: Outcome<seq<User>>, me: Option<string>, shuffled: seq<User>)
      requires Valid() && 1 <= request <= latest && request !in settled
      requires outcome.Ok? ==> multiset(shuffled) == multiset(ExcludeSelf(outcome.value, me))
      modifies this
      ensures Valid() && latest == old(latest) && cancelled == old(cancelled)
      ensures settled == old(settled) + {request}
      ensures !loading
      ensures !old(Live(request)) ==> users == old(users) && error == old(error)
      ensures old(Live(request)) && outcome.Ok? ==>
        users == shuffled && error == (if shuffled == [] then Some(NoUsersFound) else old(error))
      ensures old(Live(request)) && outcome.Failed? ==>
        users == old(users) && error == Some(MessageOr(outcome.error, FetchUsersFailed))
    {
      settled := settled + {request};
      if request in cancelled {
        loading := false;
        return;
      }
      match outcome {
        case Ok(data) =>
          users := shuffled;
          if |shuffled| == 0 {
            error := Some(NoUsersFound);
          }
        case Failed(e) =>
          error := Some(MessageOr(e, FetchUsersFailed));
      }
      loading := false;
    }
  
    /** `CompleteFetch` as evidently intended: a cancelled request leaves
        every field alone, `loading` included, so the spinner of the
        request that replaced it stays on. */
    method CompleteFetchIntended(request: nat, outcome: Outcome<seq<User>>, me: Option<string>, shuffled: seq<User>)
      requires Valid() && SpinnerWhilePending() && 1 <= request <= latest && request !in settled
      requires outcome.Ok? ==> multiset(shuffled) == multiset(ExcludeSelf(outcome.value, me))
      modifies this
      ensures Valid() && SpinnerWhilePending()
      ensures latest == old(latest) && cancelled == old(cancelled)
      ensures settled == old(settled) + {request}
      ensures !old(Live(request)) ==> users == old(users) && error == old(error) && loading == old(loading)
      ensures old(Live(request)) ==> !loading
      ensures old(Live(request)) && outcome.Ok? ==>
        users == shuffled && error == (if shuffled == [] then Some(NoUsersFound) else old(error))
      ensures old(Live(request)) && outcome.Failed? ==>
        users == old(users) && error == Some(MessageOr(outcome.error, FetchUsersFailed))
    {
      settled := settled + {request};
      if request in cancelled {
        return;
      }
      match outcome {
        case Ok(data) =>
          users := shuffled;
          if |shuffled| == 0 {
            error := Some(NoUsersFound);
          }
        case Failed(e) =>
          error := Some(MessageOr(e, FetchUsersFailed));
      }
      loading := false;
    }
  }

  /** Two searches in a row, the first settling after the second started:
      under `CompleteFetch` the first one's `finally` turns the spinner off
      while the second is still pending. */
  method StaleCompletionHidesSpinner() returns (s: UserSearch)
    ensures s.Live(s.latest) && s.latest !in s.settled && !s.loading
  {
    s := new UserSearch();
    var first, _ := s.BeginFetch("", "All");
    var second, _ := s.BeginFetch("guitar", "All");
    s.CompleteFetch(first, Failed(HttpError(None, true, "canceled")), None, []);
  }

  /** The same sequence under `CompleteFetchIntended` keeps the spinner on. */
  method StaleCompletionKeepsSpinner() returns (s: UserSearch)
    ensures s.Live(s.latest) && s.latest !in s.settled && s.loading
  {
    s := new UserSearch();
    var first, _ := s.BeginFetch("", "All");
    var second, _ := s.BeginFetch("guitar", "All");
    s.CompleteFetchIntended(first, Failed(HttpError(None, true, "canceled")), None, []);
  }
}
