/** prune: expired rows go in batches, one transaction each, while the rest of
    the server keeps inserting. */
module Retention {
  import opened Prelude
  import opened Tables
  import opened Notifications

  /** A table and the rows elsewhere that refer to its rows. */
  datatype Content<R> = Content(rows: map<Id, R>, refs: map<Id, Id>)

  ghost predicate Valid<R>(c: Content<R>) {
    forall m :: m in c.refs ==> c.refs[m] in c.rows
  }

  /** What other goroutines may commit after a batch: insert, change and delete
      rows and references, so long as no row comes to be expired that was not. */
  ghost predicate Admissible<R>(s: Content<R>, t: Content<R>, expired: R -> bool) {
    && Valid(t)
    && forall i :: i in t.rows && expired(t.rows[i]) ==> i in s.rows && s.rows[i] == t.rows[i]
  }

  /** The others leave row `i` alone. */
  ghost predicate SparesRow<R(!new)>(act: (nat, Content<R>) -> Content<R>, i: Id) {
    forall k: nat, s: Content<R> :: i in s.rows ==> i in act(k, s).rows && act(k, s).rows[i] == s.rows[i]
  }

  /** Owner `m` refers to a row that is not expired. */
  predicate Owns<R>(c: Content<R>, expired: R -> bool, m: Id) {
    m in c.refs && c.refs[m] in c.rows && !expired(c.rows[c.refs[m]])
  }

  /** The others may move the reference of `m`, but leave it one. */
  ghost predicate KeepsOwner<R(!new)>(act: (nat, Content<R>) -> Content<R>, expired: R -> bool, m: Id) {
    forall k: nat, s: Content<R> :: Owns(s, expired, m) ==> Owns(act(k, s), expired, m)
  }

  /** The others delete no expired row. */
  ghost predicate SparesExpired<R(!new)>(act: (nat, Content<R>) -> Content<R>, expired: R -> bool) {
    forall k: nat, s: Content<R> :: ExpiredIds(s.rows, expired) <= ExpiredIds(act(k, s).rows, expired)
  }

  function ExpiredIds<R>(rows: map<Id, R>, expired: R -> bool): set<Id> {
    set i | i in rows && expired(rows[i])
  }

  /** delete ... where id in (select id ... limit ?): any `limit` expired rows. */
  method PickExpired<R>(rows: map<Id, R>, expired: R -> bool, limit: nat) returns (ids: set<Id>)
    ensures ids <= ExpiredIds(rows, expired) && |ids| <= limit
    ensures |ids| < limit ==> ids == ExpiredIds(rows, expired)
    ensures forall i :: i in ids ==> i in rows && expired(rows[i])
    ensures |ids| < limit ==> forall i :: i in rows && expired(rows[i]) ==> i in ids
  {
    ids := {};
    var todo := ExpiredIds(rows, expired);
    while todo != {} && |ids| < limit
      invariant ids !! todo && ids + todo == ExpiredIds(rows, expired) && |ids| <= limit
      decreases todo
    {
      var i :| i in todo;
      ids, todo := ids + {i}, todo - {i};
    }
  }

  lemma CountsLeft<R>(rows: map<Id, R>, expired: R -> bool, ids: set<Id>)
    requires ids <= ExpiredIds(rows, expired)
    ensures ExpiredIds(rows - ids, expired) == ExpiredIds(rows, expired) - ids
    ensures |ExpiredIds(rows, expired)| == |ids| + |ExpiredIds(rows - ids, expired)|
  {
    assert ExpiredIds(rows, expired) == ids + (ExpiredIds(rows, expired) - ids);
  }

  lemma FewerExpired<R>(s: Content<R>, t: Content<R>, expired: R -> bool)
    requires Admissible(s, t, expired)
    ensures ExpiredIds(t.rows, expired) <= ExpiredIds(s.rows, expired)
    ensures |ExpiredIds(t.rows, expired)| <= |ExpiredIds(s.rows, expired)|
  {
    SubsetSize(ExpiredIds(t.rows, expired), ExpiredIds(s.rows, expired));
  }

  /** `affected` is what the last of `passes` deleted. */
  predicate Counted(total: nat, passes: nat, batch: nat, affected: int) {
    if affected == batch then total == passes * batch else (passes - 1) * batch <= total < passes * batch
  }

  lemma OneMorePass(total: nat, passes: nat, batch: nat, affected: nat)
    requires affected <= batch && total == passes * batch
    ensures Counted(total + affected, passes + 1, batch, affected)
  {
    assert (passes + 1) * batch == passes * batch + batch;
  }

  function Without<R>(c: Content<R>, ids: set<Id>): Content<R> {
    Content(c.rows - ids, c.refs - set m | m in c.refs && c.refs[m] in ids)
  }

  /** A batch deletes expired rows only, and the references to them. */
  lemma BatchSpares<R>(c: Content<R>, expired: R -> bool, ids: set<Id>)
    requires Valid(c) && ids <= ExpiredIds(c.rows, expired)
    ensures Valid(Without(c, ids))
    ensures forall i :: i in c.rows && !expired(c.rows[i]) ==>
              i in Without(c, ids).rows && Without(c, ids).rows[i] == c.rows[i]
    ensures forall m :: Owns(c, expired, m) ==> Owns(Without(c, ids), expired, m)
  {
  }

  /** Whatever was committed before, what the others commit next is admissible. */
  ghost predicate Bounded<R(!new)>(act: (nat, Content<R>) -> Content<R>, expired: R -> bool) {
    forall k: nat, s: Content<R> {:trigger Admissible(s, act(k, s), expired)} ::
      Valid(s) ==> Admissible(s, act(k, s), expired)
  }

  lemma OthersAct<R(!new)>(act: (nat, Content<R>) -> Content<R>, expired: R -> bool, k: nat, s: Content<R>)
    requires Valid(s) && Bounded(act, expired)
    ensures Valid(act(k, s))
    ensures ExpiredIds(act(k, s).rows, expired) <= ExpiredIds(s.rows, expired)
    ensures |ExpiredIds(act(k, s).rows, expired)| <= |ExpiredIds(s.rows, expired)|
    ensures SparesExpired(act, expired) ==> ExpiredIds(act(k, s).rows, expired) == ExpiredIds(s.rows, expired)
  {
    assert Admissible(s, act(k, s), expired);
    FewerExpired(s, act(k, s), expired);
  }

  /** The table, deleting with cascade. */
  class Archive<R(!new)> {
    var now: Content<R>

    /** One transaction: delete a batch, with its cascade. */
    method DeleteBatch(expired: R -> bool, limit: nat) returns (affected: nat, ghost ids: set<Id>)
      requires Valid(now)
      modifies this
      ensures Valid(now) && now == Without(old(now), ids) && affected == |ids| <= limit
      ensures ids <= ExpiredIds(old(now).rows, expired)
      ensures affected < limit ==> ids == ExpiredIds(old(now).rows, expired)
    {
      var picked := PickExpired(now.rows, expired, limit);
      ids, affected := picked, |picked|;
      now := Without(now, picked);
    }

    /** A batch, and what the others commit after it. */
    method Pass(expired: R -> bool, batch: nat, act: (nat, Content<R>) -> Content<R>, k: nat) returns (affected: nat)
      requires Valid(now) && Bounded(act, expired)
      modifies this
      ensures Valid(now) && affected <= batch
      ensures affected < batch ==> ExpiredIds(now.rows, expired) == {}
      ensures affected + |ExpiredIds(now.rows, expired)| <= |ExpiredIds(old(now).rows, expired)|
      ensures SparesExpired(act, expired) ==>
                affected + |ExpiredIds(now.rows, expired)| == |ExpiredIds(old(now).rows, expired)|
      ensures forall i :: i in old(now).rows && !expired(old(now).rows[i]) && SparesRow(act, i) ==>
                i in now.rows && now.rows[i] == old(now).rows[i]
      ensures forall m :: Owns(old(now), expired, m) && KeepsOwner(act, expired, m) ==> Owns(now, expired, m)
    {
      ghost var was := now;
      ghost var ids;
      affected, ids := DeleteBatch(expired, batch);
      CountsLeft(was.rows, expired, ids);
      BatchSpares(was, expired, ids);
      OthersAct(act, expired, k, now);
      now := act(k, now);
    }

    /** The loop. `act` is what the others commit after each batch. However they
        interfere, the loop ends with no expired row left, in total / batch + 1
        transactions that delete expired rows only: a row that is not expired goes
        only if the others touch it, and an owner that refers to such a row goes on
        referring to one. If the others delete no expired row themselves, the total
        is the number there was. */
    method Prune(expired: R -> bool, batch: nat, act: (nat, Content<R>) -> Content<R>) returns (total: nat, passes: nat)
      requires Valid(now) && batch >= 1 && Bounded(act, expired)
      modifies this
      ensures Valid(now) && ExpiredIds(now.rows, expired) == {}
      ensures forall i :: i in now.rows ==> !expired(now.rows[i])
      ensures (passes - 1) * batch <= total < passes * batch
      ensures total <= |ExpiredIds(old(now).rows, expired)|
      ensures SparesExpired(act, expired) ==> total == |ExpiredIds(old(now).rows, expired)|
      ensures forall i :: i in old(now).rows && !expired(old(now).rows[i]) && SparesRow(act, i) ==>
                i in now.rows && now.rows[i] == old(now).rows[i]
      ensures forall m :: Owns(old(now), expired, m) && KeepsOwner(act, expired, m) ==> Owns(now, expired, m)
    {
      total, passes := 0, 0;
      ghost var before := now;
      var affected := batch;
      while affected == batch
        invariant Valid(now) && 0 <= affected <= batch
        invariant total + |ExpiredIds(now.rows, expired)| <= |ExpiredIds(before.rows, expired)|
        invariant SparesExpired(act, expired) ==>
                    total + |ExpiredIds(now.rows, expired)| == |ExpiredIds(before.rows, expired)|
        invariant Counted(total, passes, batch, affected) && (affected < batch ==> ExpiredIds(now.rows, expired) == {})
        invariant forall i :: i in before.rows && !expired(before.rows[i]) && SparesRow(act, i) ==>
                    i in now.rows && now.rows[i] == before.rows[i]
        invariant forall m :: Owns(before, expired, m) && KeepsOwner(act, expired, m) ==> Owns(now, expired, m)
        decreases |ExpiredIds(now.rows, expired)|, affected
      {
        affected := Pass(expired, batch, act, passes);
        OneMorePass(total, passes, batch, affected);
        total, passes := total + affected, passes + 1;
      }
      forall i | i in now.rows ensures !expired(now.rows[i]) {
        assert i !in ExpiredIds(now.rows, expired);
      }
    }
  }

  // ---- the two tables where it matters ----

  /** alert_notification: only stamped rows expire, so an unsent one is never
      pruned. */
  predicate ExpiredNotice(n: Notice, before: int) {
    n.sent.Some? && n.sent.value < before
  }

  /** The batches of the loop are exactly the prune steps of the queue. */
  lemma PruneIsStep(s: State, before: int, ids: set<Id>)
    ensures ids <= ExpiredIds(s.rows, n => ExpiredNotice(n, before)) <==>
            Next(s, Step.Prune(before, ids), s.(rows := s.rows - ids))
    ensures ids <= ExpiredIds(s.rows, n => ExpiredNotice(n, before)) ==>
              forall i :: i in s.rows && s.rows[i].sent.None? ==> i in s.rows - ids
  {
  }
}
