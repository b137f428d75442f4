/** The dashboard of the SkillSwap client
    (project/src/components/pages/Dashboard.js): notifications that are
    marked read, exchanges that are accepted or declined, the counts shown
    from both lists and the three most recent notifications. */
module Dashboard {
  import opened Wrappers
  import opened Seqs

  /** A notification; `timestamp` is the parsed date in milliseconds. */
  datatype Notification = Notification(id: int, kind: string, message: string, timestamp: int, read: bool, senderName: string)

  datatype ExchangeStatus = Pending | Active | Rejected

  datatype Exchange = Exchange(id: int, status: ExchangeStatus, skill: string, partnerId: string, startDate: int)

  // ---------------------------------------------------------------------
  // Marking notifications read

  /** `notifications.map(n => n.id === id ? { ...n, read: true } : n)`. */
  function MarkRead(ns: seq<Notification>, id: int): (r: seq<Notification>)
    ensures |r| == |ns|
    ensures forall i :: 0 <= i < |ns| ==> r[i] == ns[i].(read := ns[i].read || ns[i].id == id)
  {
    if ns == [] then []
    else [if ns[0].id == id then ns[0].(read := true) else ns[0]] + MarkRead(ns[1..], id)
  }

  /** Marking the same notification read twice is marking it once. */
  lemma MarkReadIdempotent(ns: seq<Notification>, id: int)
    ensures MarkRead(MarkRead(ns, id), id) == MarkRead(ns, id)
  {
  }

  /** After marking, no notification with that id is unread. */
  lemma MarkReadClears(ns: seq<Notification>, id: int)
    ensures forall n :: n in MarkRead(ns, id) && n.id == id ==> n.read
  {
  }

  predicate IsUnread(n: Notification)
  {
    !n.read
  }

  /** `notifications.filter(n => !n.read).length`. */
  function UnreadCount(ns: seq<Notification>): (c: nat)
    ensures c <= |ns|
  {
    |Filter(ns, IsUnread)|
  }

  /** How many unread notifications carry `id`. */
  function UnreadWithId(ns: seq<Notification>, id: int): nat
  {
    if ns == [] then 0
    else (if !ns[0].read && ns[0].id == id then 1 else 0) + UnreadWithId(ns[1..], id)
  }

  /** Marking a notification read lowers the unread count by exactly the
      number of unread notifications with that id, so it never raises it. */
  lemma {:induction false} UnreadCountAfterMarkRead(ns: seq<Notification>, id: int)
    ensures UnreadCount(MarkRead(ns, id)) == UnreadCount(ns) - UnreadWithId(ns, id)
    ensures UnreadCount(MarkRead(ns, id)) <= UnreadCount(ns)
    decreases |ns|
  {
    if ns != [] {
      UnreadCountAfterMarkRead(ns[1..], id);
      var r := MarkRead(ns, id);
      assert r[1..] == MarkRead(ns[1..], id);
      assert Filter(r, IsUnread) == (if IsUnread(r[0]) then [r[0]] else []) + Filter(r[1..], IsUnread);
      assert Filter(ns, IsUnread) == (if IsUnread(ns[0]) then [ns[0]] else []) + Filter(ns[1..], IsUnread);
    }
  }

  /** The notification badge: shown with the unread count when it is
      positive, absent otherwise. */
  function Badge(ns: seq<Notification>): (b: Option<nat>)
    ensures b.Some? <==> exists n :: n in ns && !n.read
    ensures b.Some? ==> b.value == UnreadCount(ns) && b.value > 0
  {
    var c := UnreadCount(ns);
    if c > 0 then
      assert Filter(ns, IsUnread)[0] in Filter(ns, IsUnread);
      Some(c)
    else
      assert forall n :: n in ns && !n.read ==> n in Filter(ns, IsUnread);
      None
  }

  // ---------------------------------------------------------------------
  // Accepting and declining exchanges

  /** The status an action leaves: `'accept'` activates, anything else rejects. */
  function StatusAfter(action: string): (s: ExchangeStatus)
    ensures s == Active <==> action == "accept"
    ensures s != Pending
  {
    if action == "accept" then Active else Rejected
  }

  /** `exchanges.map(e => e.id === id ? { ...e, status: ... } : e)`. */
  function ApplyAction(exs: seq<Exchange>, id: int, action: string): (r: seq<Exchange>)
    ensures |r| == |exs|
    ensures forall i :: 0 <= i < |exs| ==>
      r[i] == if exs[i].id == id then exs[i].(status := StatusAfter(action)) else exs[i]
  {
    if exs == [] then []
    else [if exs[0].id == id then exs[0].(status := StatusAfter(action)) else exs[0]] + ApplyAction(exs[1..], id, action)
  }

  /** Accept and Decline are offered only on a pending exchange. */
  predicate ActionsOffered(e: Exchange)
  {
    e.status == Pending
  }

  predicate UniqueIds(exs: seq<Exchange>)
  {
    forall i, j :: 0 <= i < j < |exs| ==> exs[i].id != exs[j].id
  }

  /** A button press on exchange `k` moves exactly that exchange out of
      pending, to active or rejected; with distinct ids every exchange that
      is already active or rejected keeps its status, so those two are
      terminal as far as the dashboard can reach. */
  lemma ButtonPressOnlyLeavesPending(exs: seq<Exchange>, k: int, action: string)
    requires UniqueIds(exs)
    requires 0 <= k < |exs| && ActionsOffered(exs[k])
    requires action == "accept" || action == "reject"
    ensures ApplyAction(exs, exs[k].id, action)[k].status == (if action == "accept" then Active else Rejected)
    ensures forall j :: 0 <= j < |exs| && j != k ==> ApplyAction(exs, exs[k].id, action)[j] == exs[j]
    ensures forall j :: 0 <= j < |exs| && !ActionsOffered(exs[j]) ==>
      ApplyAction(exs, exs[k].id, action)[j].status == exs[j].status
  {
  }

  /** With two exchanges under one id, Accept on the pending one also
      flips the other, even when it was already rejected. */
  lemma SharedIdFlipsTerminal()
    ensures var exs := [Exchange(1, Pending, "a", "p", 0), Exchange(1, Rejected, "b", "q", 0)];
      ApplyAction(exs, 1, "accept")[1].status == Active
  {
  }

  predicate IsActive(e: Exchange)
  {
    e.status == Active
  }

  /** The "Active Exchanges" figure. */
  function ActiveCount(exs: seq<Exchange>): (c: nat)
    ensures c <= |exs|
  {
    |Filter(exs, IsActive)|
  }

  /** The figure counts exactly the exchanges whose status is active. */
  lemma ActiveCountSpec(exs: seq<Exchange>)
    ensures ActiveCount(exs) == |set i | 0 <= i < |exs| && exs[i].status == Active|
  {
    FilterLengthCountsIndices(exs, IsActive);
    assert IndicesWhere(exs, IsActive) == set i | 0 <= i < |exs| && exs[i].status == Active;
  }

  // ---------------------------------------------------------------------
  // Recent activity

  predicate SortedByRecency(s: seq<Notification>)
  {
    forall i, j :: 0 <= i < j < |s| ==> s[i].timestamp >= s[j].timestamp
  }

  /** Inserts `n` before the first entry that is not newer than it, so `n`
      goes ahead of entries with its own timestamp. Sorting by inserting
      each head into the sorted tail thus keeps entries with equal
      timestamps in their original order, as the stable `Array.prototype.sort`
      does. */
  function InsertByRecency(n: Notification, s: seq<Notification>): (r: seq<Notification>)
    ensures multiset(r) == multiset(s) + multiset{n}
    ensures |r| == |s| + 1
  {
    if s == [] || n.timestamp >= s[0].timestamp then [n] + s
    else
      assert s == [s[0]] + s[1..];
      [s[0]] + InsertByRecency(n, s[1..])
  }

  lemma {:induction false} InsertKeepsSorted(n: Notification, s: seq<Notification>)
    requires SortedByRecency(s)
    ensures SortedByRecency(InsertByRecency(n, s))
    decreases |s|
  {
    if s == [] || n.timestamp >= s[0].timestamp {
      ConsSorted(n, s);
    } else {
      var rest := InsertByRecency(n, s[1..]);
      InsertKeepsSorted(n, s[1..]);
      forall j | 0 <= j < |rest| ensures rest[j].timestamp <= s[0].timestamp {
        assert rest[j] in multiset(rest);
        if rest[j] != n {
          assert rest[j] in multiset(s[1..]);
          var m :| 0 <= m < |s[1..]| && s[1..][m] == rest[j];
          assert s[m + 1] == rest[j];
        }
      }
      ConsSorted(s[0], rest);
    }
  }

  /** Putting an entry no older than all others in front keeps the order. */
  lemma ConsSorted(x: Notification, s: seq<Notification>)
    requires SortedByRecency(s)
    requires forall j :: 0 <= j < |s| ==> s[j].timestamp <= x.timestamp
    ensures SortedByRecency([x] + s)
  {
    var r := [x] + s;
    forall i, j | 0 <= i < j < |r| ensures r[i].timestamp >= r[j].timestamp {
      assert r[j] == s[j - 1];
      if i > 0 {
        assert r[i] == s[i - 1];
      }
    }
  }

  /** `[...notifications].sort((a, b) => b.timestamp - a.timestamp)`. */
  function SortByRecency(ns: seq<Notification>): (r: seq<Notification>)
    ensures SortedByRecency(r)
    ensures multiset(r) == multiset(ns)
    ensures |r| == |ns|
  {
    if ns == [] then []
    else
      assert ns == [ns[0]] + ns[1..];
      var rest := SortByRecency(ns[1..]);
      InsertKeepsSorted(ns[0], rest);
      InsertByRecency(ns[0], rest)
  }

  function Min(a: int, b: int): int
  {
    if a <= b then a else b
  }

  /** `.slice(0, 3)` of the sorted copy. */
  function RecentActivity(ns: seq<Notification>): (r: seq<Notification>)
    ensures |r| == Min(3, |ns|)
    ensures SortedByRecency(r)
  {
    var sorted := SortByRecency(ns);
    SortedPrefix(sorted, Min(3, |sorted|));
    sorted[..Min(3, |sorted|)]
  }

  /** Recent activity shows min(3, n) notifications, newest first, all
      taken from the list, and every notification left out is no newer than
      any shown. */
  lemma RecentActivitySpec(ns: seq<Notification>)
    ensures |RecentActivity(ns)| == Min(3, |ns|)
    ensures SortedByRecency(RecentActivity(ns))
    ensures multiset(RecentActivity(ns)) <= multiset(ns)
    ensures forall x :: x in ns && x !in RecentActivity(ns) ==> NoNewerThanAll(x, RecentActivity(ns))
  {
    var sorted := SortByRecency(ns);
    var k := Min(3, |sorted|);
    var r := RecentActivity(ns);
    assert r == sorted[..k];
    SortedPrefix(sorted, k);
    forall x | x in ns && x !in r ensures NoNewerThanAll(x, r) {
      assert x in multiset(sorted);
      assert x !in multiset(r);
      assert x in multiset(sorted[k..]);
    }
  }

  predicate NoNewerThanAll(x: Notification, s: seq<Notification>)
  {
    forall i :: 0 <= i < |s| ==> x.timestamp <= s[i].timestamp
  }

  /** A prefix of a list sorted newest first is sorted, and every entry
      after it is no newer than any entry in it. */
  lemma SortedPrefix(sorted: seq<Notification>, k: int)
    requires SortedByRecency(sorted)
    requires 0 <= k <= |sorted|
    ensures SortedByRecency(sorted[..k])
    ensures multiset(sorted) - multiset(sorted[..k]) == multiset(sorted[k..])
    ensures forall x :: x in multiset(sorted[k..]) ==> NoNewerThanAll(x, sorted[..k])
  {
    assert sorted == sorted[..k] + sorted[k..];
    assert multiset(sorted) == multiset(sorted[..k]) + multiset(sorted[k..]);
    forall x | x in multiset(sorted[k..]) ensures NoNewerThanAll(x, sorted[..k]) {
      var j :| 0 <= j < |sorted[k..]| && sorted[k..][j] == x;
      assert sorted[k + j] == x;
    }
  }

  /** The dashboard's list state. */
  class DashboardState {
    var notifications: seq<Notification>
    var exchanges: seq<Exchange>

    constructor (ns: seq<Notification>, exs: seq<Exchange>)
      ensures notifications == ns && exchanges == exs
    {
      notifications := ns;
      exchanges := exs;
    }

    /** `markNotificationAsRead(id)`. */
    method MarkNotificationAsRead(id: int)
      modifies this
      ensures notifications == MarkRead(old(notifications), id)
      ensures exchanges == old(exchanges)
      ensures UnreadCount(notifications) <= UnreadCount(old(notifications))
    {
      UnreadCountAfterMarkRead(notifications, id);
      notifications := MarkRead(notifications, id);
    }

    /** `handleExchangeAction(id, action)`: the local status flips at once;
        nothing is reconciled with the server. */
    method HandleExchangeAction(id: int, action: string)
      modifies this
      ensures exchanges == ApplyAction(old(exchanges), id, action)
      ensures notifications == old(notifications)
    {
      exchanges := ApplyAction(exchanges, id, action);
    }

    /** The overview's figures and recent activity, read from the state
        without changing it. */
    function UnreadBadge(): (b: Option<nat>)
      reads this
      ensures b.Some? <==> exists n :: n in notifications && !n.read
      ensures b.Some? ==> 0 < b.value <= |notifications|
    {
      Badge(notifications)
    }

    function ActiveExchanges(): (n: nat)
      reads this
      ensures n <= |exchanges|
    {
      ActiveCount(exchanges)
    }

    function Recent(): (r: seq<Notification>)
      reads this
      ensures |r| == Min(3, |notifications|) && SortedByRecency(r)
    {
      RecentActivity(notifications)
    }
  }
}
