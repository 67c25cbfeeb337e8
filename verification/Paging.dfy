/** Cursor paging of one monitor's logs of one day. */
module Paging {
  /** Newest first: ids strictly descend and are positive. */
  ghost predicate Descending(ids: seq<nat>) {
    (forall i, j :: 0 <= i < j < |ids| ==> ids[i] > ids[j]) && forall i :: 0 <= i < |ids| ==> ids[i] > 0
  }

  /** The where clause: below the one cursor, not below the other; a cursor of 0 is
      no cursor. */
  predicate Wanted(x: nat, after: nat, before: nat) {
    (after == 0 || x < after) && before <= x
  }

  /** The rows the where clause keeps, in the order of the listing. */
  function Between(ids: seq<nat>, after: nat, before: nat): seq<nat> {
    if ids == [] then []
    else (if Wanted(ids[0], after, before) then [ids[0]] else []) + Between(ids[1..], after, before)
  }

  /** listMonitorLogs: at most `limit` rows between the cursors, 0 for no limit. */
  function ListLogs(ids: seq<nat>, limit: nat, after: nat, before: nat): seq<nat> {
    var rows := Between(ids, after, before);
    if limit > 0 && limit < |rows| then rows[..limit] else rows
  }

  /** A page is never longer than its limit, and shorter only when it is the last. */
  lemma PageSize(ids: seq<nat>, limit: nat, after: nat, before: nat)
    ensures limit > 0 ==> |ListLogs(ids, limit, after, before)| <= limit
    ensures limit > 0 && |ListLogs(ids, limit, after, before)| < limit ==>
              ListLogs(ids, limit, after, before) == ListLogs(ids, 0, after, before)
  {
  }

  lemma DescendingCons(x: nat, rest: seq<nat>)
    requires Descending(rest) && x > 0 && forall y :: y in rest ==> y < x
    ensures Descending([x] + rest)
  {
    forall j | 0 < j < |rest| + 1 ensures ([x] + rest)[j] < x {
      assert ([x] + rest)[j] == rest[j - 1] && rest[j - 1] in rest;
    }
  }

  /** Without a limit the page is what the cursors admit, in the order of the
      listing. */
  lemma {:induction false} PageRows(ids: seq<nat>, after: nat, before: nat)
    requires Descending(ids)
    ensures forall x :: x in ListLogs(ids, 0, after, before) <==> x in ids && before <= x && (after == 0 || x < after)
    ensures Descending(ListLogs(ids, 0, after, before))
  {
    if ids != [] {
      assert ids == [ids[0]] + ids[1..];
      PageRows(ids[1..], after, before);
      forall y | y in Between(ids[1..], after, before) ensures y < ids[0] {
        assert y in ListLogs(ids[1..], 0, after, before);
      }
      DescendingCons(ids[0], Between(ids[1..], after, before));
      assert [] + Between(ids[1..], after, before) == Between(ids[1..], after, before);
    }
  }

  lemma {:induction false} BetweenAll(ids: seq<nat>, after: nat, before: nat)
    requires forall x :: x in ids ==> Wanted(x, after, before)
    ensures Between(ids, after, before) == ids
  {
    if ids != [] {
      forall x | x in ids[1..] ensures x in ids {}
      BetweenAll(ids[1..], after, before);
      assert ids[0] in ids && ids == [ids[0]] + ids[1..];
    }
  }

  lemma {:induction false} BetweenNone(ids: seq<nat>, after: nat, before: nat)
    requires forall x :: x in ids ==> !Wanted(x, after, before)
    ensures Between(ids, after, before) == []
  {
    if ids != [] {
      forall x | x in ids[1..] ensures x in ids {}
      BetweenNone(ids[1..], after, before);
      assert ids[0] in ids;
    }
  }

  lemma {:induction false} BetweenAppend(a: seq<nat>, b: seq<nat>, after: nat, before: nat)
    ensures Between(a + b, after, before) == Between(a, after, before) + Between(b, after, before)
  {
    if a == [] {
      assert a + b == b;
    } else {
      BetweenAppend(a[1..], b, after, before);
      var head := if Wanted(a[0], after, before) then [a[0]] else [];
      assert (a + b)[0] == a[0] && (a + b)[1..] == a[1..] + b;
      assert head + (Between(a[1..], after, before) + Between(b, after, before)) ==
             (head + Between(a[1..], after, before)) + Between(b, after, before);
    }
  }

  /** A descending listing cut at any place: the ids of the front part are above
      those of the back part. */
  lemma CutAt(all: seq<nat>, n: nat)
    requires Descending(all) && n <= |all|
    ensures all == all[..n] + all[n..]
    ensures n > 0 ==> (forall x :: x in all[..n] ==> x >= all[n - 1]) && (forall x :: x in all[n..] ==> x < all[n - 1])
  {
    forall x | x in all[n..] && n > 0 ensures x < all[n - 1] {
      var i :| 0 <= i < |all| - n && all[n..][i] == x;
      assert all[n + i] == x;
    }
  }

  /** Below the last id shown there is exactly what was not shown, however many
      newer logs were appended. */
  lemma OlderIsRest(newer: seq<nat>, day: seq<nat>, k: nat)
    requires Descending(newer + day) && 0 < k <= |day|
    ensures Between(newer + day, day[k - 1], 0) == day[k..]
  {
    var all, n, cursor := newer + day, |newer| + k, day[k - 1];
    assert all[n - 1] == cursor && all[n..] == day[k..];
    CutAt(all, n);
    BetweenAppend(all[..n], all[n..], cursor, 0);
    BetweenNone(all[..n], cursor, 0);
    BetweenAll(all[n..], cursor, 0);
  }

  lemma PollRows(newer: seq<nat>, day: seq<nat>)
    requires Descending(newer + day) && day != []
    ensures Between(newer + day, 0, day[0]) == newer + [day[0]]
  {
    var all, n := newer + day, |newer| + 1;
    assert all[..n] == newer + [day[0]] && all[n - 1] == day[0];
    CutAt(all, n);
    BetweenAppend(all[..n], all[n..], 0, day[0]);
    BetweenAll(all[..n], 0, day[0]);
    BetweenNone(all[n..], 0, day[0]);
  }

  /** The poll asks for everything from the newest row shown on. It gets that row
      again and all newer ones if and only if these fit the limit. */
  lemma PollIsNewer(newer: seq<nat>, day: seq<nat>, limit: nat)
    requires Descending(newer + day) && day != [] && limit >= 1
    ensures ListLogs(newer + day, limit, 0, day[0]) == newer + [day[0]] <==> |newer| < limit
  {
    PollRows(newer, day);
  }

  lemma {:induction false} BetweenWanted(ids: seq<nat>, after: nat, before: nat)
    ensures forall x :: x in Between(ids, after, before) ==> Wanted(x, after, before)
  {
    if ids != [] {
      BetweenWanted(ids[1..], after, before);
    }
  }

  lemma ListedWanted(ids: seq<nat>, limit: nat, after: nat, before: nat)
    ensures forall x :: x in ListLogs(ids, limit, after, before) ==> Wanted(x, after, before)
  {
    BetweenWanted(ids, after, before);
    forall x | x in ListLogs(ids, limit, after, before) ensures x in Between(ids, after, before) {}
  }

  /** If they do not fit, the poll returns the newest of them, and no later poll,
      which asks from the newest row shown then, returns the others. */
  lemma PollSkips(newer: seq<nat>, day: seq<nat>, limit: nat, later: seq<nat>, next: nat, cursor: nat)
    requires Descending(newer + day) && day != [] && 1 <= limit <= |newer|
    requires cursor >= newer[0]
    ensures ListLogs(newer + day, limit, 0, day[0]) == newer[..limit]
    ensures forall x :: x in newer[limit..] ==> x !in ListLogs(later, next, 0, cursor)
  {
    PollRows(newer, day);
    assert (newer + [day[0]])[..limit] == newer[..limit];
    forall x | x in newer[limit..] ensures x < newer[0] {
      var i :| 0 <= i < |newer| - limit && newer[limit..][i] == x;
      assert (newer + day)[limit + i] == x && (newer + day)[0] == newer[0];
    }
    ListedWanted(later, next, 0, cursor);
  }

  function Cursor(day: seq<nat>, k: nat): nat
    requires k <= |day|
  {
    if k == 0 then 0 else day[k - 1]
  }

  lemma OlderThanCursor(newer: seq<nat>, day: seq<nat>, k: nat)
    requires Descending(newer + day) && k <= |day| && (k == 0 ==> newer == [])
    ensures Between(newer + day, Cursor(day, k), 0) == day[k..]
  {
    if k == 0 {
      assert newer + day == day;
      BetweenAll(day, 0, 0);
    } else {
      assert (newer + day)[|newer| + k - 1] == day[k - 1];
      OlderIsRest(newer, day, k);
    }
  }

  /** The page after `k` shown rows is the next stretch of the day, and it is empty
      only at the end. */
  lemma NextPage(newer: seq<nat>, day: seq<nat>, k: nat, limit: nat)
    requires Descending(newer + day) && k <= |day| && limit >= 1 && (k == 0 ==> newer == [])
    ensures var page := ListLogs(newer + day, limit, Cursor(day, k), 0);
            && |page| <= |day| - k && day[..k + |page|] == day[..k] + page
            && (page == [] <==> k == |day|)
            && (page != [] ==> page[|page| - 1] == Cursor(day, k + |page|))
  {
    OlderThanCursor(newer, day, k);
    var rest := day[k..];
    var page := if limit < |rest| then rest[..limit] else rest;
    assert day[..k + |page|] == day[..k] + page;
    assert page != [] ==> page[|page| - 1] == day[k + |page| - 1];
  }

  /** The log view followed page by page until a page is empty. `limit` gives the
      page sizes and `newer` what was appended before each request. The pages
      together are the day as it was at the first request: no gap, no repeat. */
  method FollowPages(day: seq<nat>, limit: nat -> nat, newer: nat -> seq<nat>) returns (shown: seq<nat>, pages: nat)
    requires forall k :: limit(k) >= 1
    requires newer(0) == [] && forall k :: Descending(newer(k) + day)
    ensures shown == day && pages <= |day| + 1
  {
    shown, pages := [], 0;
    var after := 0;
    var more := true;
    while more
      invariant |shown| <= |day| && shown == day[..|shown|]
      invariant pages <= |shown| + (if more then 0 else 1)
      invariant more && shown == [] ==> pages == 0
      invariant after == Cursor(day, |shown|)
      invariant !more ==> |shown| == |day|
      decreases more, |day| - |shown|
    {
      var page := ListLogs(newer(pages) + day, limit(pages), after, 0);
      NextPage(newer(pages), day, |shown|, limit(pages));
      if page == [] {
        more := false;
      } else {
        shown := shown + page;
        after := page[|page| - 1];
      }
      pages := pages + 1;
    }
  }

  /** A cursor of 0, which the view sends after an empty page, asks for the first
      page again and not for the end. */
  lemma ZeroRestarts(ids: seq<nat>, limit: nat)
    ensures ListLogs(ids, limit, 0, 0) == if limit > 0 && limit < |ids| then ids[..limit] else ids
  {
    BetweenAll(ids, 0, 0);
  }
}
