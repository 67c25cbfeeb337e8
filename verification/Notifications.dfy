/** The queue of alert notifications: publishing, draining, stamping, pruning
    and the cascades that delete rows under it. */
module Notifications {
  import opened Prelude
  import opened Tables

  /** An alert_notification row. `publication` numbers the publish statements, so
      that a notification has an identity that outlives its row id. */
  datatype Notice = Notice(publication: nat, sub: Id, msg: Id, sent: Option<int>)

  datatype Key = Key(publication: nat, sub: Id)

  function KeyOf(n: Notice): Key {
    Key(n.publication, n.sub)
  }

  // ---- one pass over the queue ----

  class Queue {
    var rows: map<Id, Notice>

    /** drainNotificationQueue with nothing else running. `ready` says whether the
        settings were read; `delivers` and `commits` are what the network and the
        database answer for each row. A failure of one row skips only that row. */
    method Drain(now: int, ready: bool, delivers: Id -> bool, commits: Id -> bool)
      modifies this
      ensures rows.Keys == old(rows).Keys
      ensures forall i :: i in rows ==>
                rows[i] == if ready && old(rows)[i].sent.None? && delivers(i) && commits(i)
                           then old(rows)[i].(sent := Some(now)) else old(rows)[i]
    {
      if !ready {
        return;
      }
      ghost var before := rows;
      var todo := set i | i in rows && rows[i].sent.None?;
      while todo != {}
        invariant rows.Keys == before.Keys && todo <= before.Keys
        invariant forall i :: i in todo ==> before[i].sent.None?
        invariant forall i :: i in rows ==>
                    rows[i] == if before[i].sent.None? && i !in todo && delivers(i) && commits(i)
                               then before[i].(sent := Some(now)) else before[i]
        decreases todo
      {
        var i :| i in todo;
        if delivers(i) && commits(i) {
          rows := rows[i := rows[i].(sent := Some(now))];
        }
        todo := todo - {i};
      }
    }
  }

  // ---- interleaved with everything else ----

  /** A listed row, with the notification it was when the pass began. */
  datatype Item = Item(id: Id, key: Key)

  datatype Drain = Resting | Pending(items: seq<Item>) | Delivered(item: Item, items: seq<Item>)

  /** `published` counts publish statements, `listedAt` is what it was when the
      last pass listed the queue, and `delivered` holds every notification that
      ever reached its destination. */
  datatype State = State(rows: map<Id, Notice>, subs: map<Id, bool>, msgs: set<Id>, drain: Drain,
                         published: nat, listedAt: nat, delivered: set<Key>)

  datatype Step =
    | Publish(msg: Id, added: map<Id, Notice>)
    | BeginDrain(listing: seq<Item>)
    | Deliver
    | DeliveryFails
    | StampRow(now: int)
    | StampFails
    | EndDrain
    | Prune(before: int, removed: set<Id>)
    | DeleteSubs(gone: set<Id>)
    | DeleteMsgs(gone: set<Id>)
    | SetSub(sub: Id, active: bool)
    | AddMsg(msg: Id)

  /** insert into alert_notification ... select from the active subscriptions.
      SQLite gives each new row an id above every id in use, so ids of deleted
      rows come back. */
  ghost predicate Publishes(s: State, msg: Id, added: map<Id, Notice>) {
    && msg in s.msgs
    && (forall i :: i in added ==>
          added[i].publication == s.published && added[i].msg == msg && added[i].sent.None?
          && added[i].sub in s.subs && s.subs[added[i].sub])
    && (forall i, j :: i in added && j in added && added[i].sub == added[j].sub ==> i == j)
    && (forall u :: u in s.subs && s.subs[u] ==> exists i :: i in added && added[i].sub == u)
    && (forall i, j :: i in added && j in s.rows ==> j.n < i.n)
  }

  ghost predicate Lists(s: State, listing: seq<Item>) {
    && (forall k :: 0 <= k < |listing| ==>
          listing[k].id in s.rows && s.rows[listing[k].id].sent.None? && KeyOf(s.rows[listing[k].id]) == listing[k].key)
    && (forall i :: i in s.rows && s.rows[i].sent.None? ==> exists k :: 0 <= k < |listing| && listing[k].id == i)
  }

  /** update alert_notification set sent_at = ? where id = ? */
  function Stamped(rows: map<Id, Notice>, id: Id, now: int): map<Id, Notice> {
    if id in rows then rows[id := rows[id].(sent := Some(now))] else rows
  }

  ghost predicate Next(s: State, step: Step, t: State) {
    match step
    case Publish(msg, added) =>
      Publishes(s, msg, added) && t == s.(rows := s.rows + added, published := s.published + 1)
    case BeginDrain(listing) =>
      s.drain.Resting? && Lists(s, listing) && t == s.(drain := Pending(listing), listedAt := s.published)
    case Deliver =>
      && s.drain.Pending? && s.drain.items != []
      && t == s.(drain := Delivered(s.drain.items[0], s.drain.items[1..]),
                 delivered := s.delivered + {s.drain.items[0].key})
    case DeliveryFails => s.drain.Pending? && s.drain.items != [] && t == s.(drain := Pending(s.drain.items[1..]))
    case StampRow(now) =>
      s.drain.Delivered? && t == s.(rows := Stamped(s.rows, s.drain.item.id, now), drain := Pending(s.drain.items))
    case StampFails => s.drain.Delivered? && t == s.(drain := Pending(s.drain.items))
    case EndDrain => t == s.(drain := Resting)
    case Prune(before, removed) =>
      && (forall i :: i in removed ==> i in s.rows && s.rows[i].sent.Some? && s.rows[i].sent.value < before)
      && t == s.(rows := s.rows - removed)
    case DeleteSubs(gone) =>
      t == s.(subs := s.subs - gone, rows := s.rows - set i | i in s.rows && s.rows[i].sub in gone)
    case DeleteMsgs(gone) =>
      t == s.(msgs := s.msgs - gone, rows := s.rows - set i | i in s.rows && s.rows[i].msg in gone)
    case SetSub(sub, active) => t == s.(subs := s.subs[sub := active])
    case AddMsg(msg) => t == s.(msgs := s.msgs + {msg})
  }

  ghost predicate Start(s: State) {
    s.rows == map[] && s.drain == Resting && s.published == 0 && s.listedAt == 0 && s.delivered == {}
  }

  ghost predicate StepAt(states: seq<State>, steps: seq<Step>, i: nat)
    requires |states| == |steps| + 1 && i < |steps|
  {
    Next(states[i], steps[i], states[i + 1])
  }

  ghost predicate Run(states: seq<State>, steps: seq<Step>) {
    && |states| == |steps| + 1 && Start(states[0])
    && forall i :: 0 <= i < |steps| ==> StepAt(states, steps, i)
  }

  // ---- nothing is lost ----

  /** Rows are numbered by publications that happened, and a notification has one
      row. */
  ghost predicate Wf(s: State) {
    && (forall i :: i in s.rows ==> s.rows[i].publication < s.published)
    && (forall i, j :: i in s.rows && j in s.rows && KeyOf(s.rows[i]) == KeyOf(s.rows[j]) ==> i == j)
  }

  lemma StepKeepsWf(s: State, step: Step, t: State)
    requires Wf(s) && Next(s, step, t)
    ensures Wf(t)
  {
    match step
    case Publish(msg, added) =>
    case StampRow(now) =>
    case _ => assert forall i :: i in t.rows ==> i in s.rows && t.rows[i] == s.rows[i];
  }

  lemma {:induction false} RunWf(states: seq<State>, steps: seq<Step>, n: nat)
    requires Run(states, steps) && n < |states|
    ensures Wf(states[n])
  {
    if n > 0 {
      RunWf(states, steps, n - 1);
      assert StepAt(states, steps, n - 1);
      StepKeepsWf(states[n - 1], steps[n - 1], states[n]);
    }
  }

  /** Why a step may remove a notification. */
  predicate Removes(step: Step, n: Notice) {
    match step
    case Prune(before, _) => n.sent.Some? && n.sent.value < before
    case DeleteSubs(gone) => n.sub in gone
    case DeleteMsgs(gone) => n.msg in gone
    case _ => false
  }

  ghost predicate HasRow(s: State, n: Notice) {
    exists i :: i in s.rows && s.rows[i] == n
  }

  /** Every active subscriber gets an unsent row. */
  lemma PublishReachesAll(s: State, msg: Id, added: map<Id, Notice>, t: State, sub: Id)
    requires Next(s, Publish(msg, added), t) && sub in s.subs && s.subs[sub]
    ensures HasRow(t, Notice(s.published, sub, msg, None))
  {
  }

  /** `b` is the row of `a` in a later state: the same notification, stamped if
      `a` was. */
  predicate SameNotice(a: Notice, b: Notice) {
    b == a.(sent := b.sent) && (a.sent.Some? ==> b.sent.Some?)
  }

  ghost predicate Kept(s: State, t: State, id: Id) {
    id in s.rows && id in t.rows && SameNotice(s.rows[id], t.rows[id])
  }

  /** No lost notification: a row that was ever queued is still there, sent or
      not, unless a later step pruned it after it was stamped, or deleted its
      subscription or its message. */
  lemma {:induction false} NothingLost(states: seq<State>, steps: seq<Step>, i: nat, j: nat, id: Id)
    requires Run(states, steps) && i <= j < |states| && id in states[i].rows
    ensures Kept(states[i], states[j], id) || RemovedBetween(states, steps, i, j, id)
  {
    if i < j {
      NothingLost(states, steps, i, j - 1, id);
      var k := KeyOf(states[i].rows[id]);
      if RemovedBetween(states, steps, i, j - 1, id) {
        var l :| i <= l < j - 1 && RemovedAt(states, steps, l, id, k);
        assert RemovedAt(states, steps, l, id, k);
      } else {
        KeptOrRemoved(states, steps, j - 1, id);
        assert KeyOf(states[j - 1].rows[id]) == k;
      }
    }
  }

  lemma KeptOrRemoved(states: seq<State>, steps: seq<Step>, l: nat, id: Id)
    requires Run(states, steps) && l < |steps| && id in states[l].rows
    ensures Kept(states[l], states[l + 1], id) || RemovedAt(states, steps, l, id, KeyOf(states[l].rows[id]))
  {
    assert StepAt(states, steps, l);
  }

  ghost predicate RemovedAt(states: seq<State>, steps: seq<Step>, l: nat, id: Id, k: Key)
    requires l < |steps| && l < |states|
  {
    id in states[l].rows && KeyOf(states[l].rows[id]) == k && Removes(steps[l], states[l].rows[id])
  }

  ghost predicate RemovedBetween(states: seq<State>, steps: seq<Step>, i: nat, j: nat, id: Id)
    requires |states| == |steps| + 1 && i <= j < |states| && id in states[i].rows
  {
    exists l :: i <= l < j && RemovedAt(states, steps, l, id, KeyOf(states[i].rows[id]))
  }

  /** The notification `k` is in the queue, sent or not. */
  ghost predicate Queued(s: State, k: Key) {
    exists id :: id in s.rows && KeyOf(s.rows[id]) == k
  }

  ghost predicate RemovedAfter(states: seq<State>, steps: seq<Step>, i: nat, j: nat, k: Key)
    requires |states| == |steps| + 1 && i <= j < |states|
  {
    exists l, id :: i <= l < j && RemovedAt(states, steps, l, id, k)
  }

  /** From the publish on: each subscriber active then has a notification that in
      every later state is in the queue, unsent or stamped, or was pruned after
      its stamp, or went with its subscription or its message. */
  lemma PublishedAccounted(states: seq<State>, steps: seq<Step>, i: nat, j: nat, sub: Id)
    requires Run(states, steps) && i < j < |states| && steps[i].Publish?
    requires sub in states[i].subs && states[i].subs[sub]
    ensures HasRow(states[i + 1], Notice(states[i].published, sub, steps[i].msg, None))
    ensures var k := Key(states[i].published, sub);
            Queued(states[j], k) || RemovedAfter(states, steps, i + 1, j, k)
  {
    assert StepAt(states, steps, i);
    PublishReachesAll(states[i], steps[i].msg, steps[i].added, states[i + 1], sub);
    var id :| id in states[i + 1].rows
              && states[i + 1].rows[id] == Notice(states[i].published, sub, steps[i].msg, None);
    NothingLost(states, steps, i + 1, j, id);
    if RemovedBetween(states, steps, i + 1, j, id) {
      var l :| i + 1 <= l < j && RemovedAt(states, steps, l, id, KeyOf(states[i + 1].rows[id]));
    }
  }

  /** The foreign keys: no row outlives its subscription or its message. */
  lemma {:induction false} KeysHold(states: seq<State>, steps: seq<Step>, n: nat)
    requires Run(states, steps) && n < |states|
    ensures forall i :: i in states[n].rows ==>
              states[n].rows[i].sub in states[n].subs && states[n].rows[i].msg in states[n].msgs
  {
    if n > 0 {
      KeysHold(states, steps, n - 1);
      assert StepAt(states, steps, n - 1);
    }
  }

  // ---- only what was published to a subscriber ----

  /** Step `l` published this notification to a subscription that was active then. */
  ghost predicate PublishedAt(states: seq<State>, steps: seq<Step>, l: nat, n: Notice)
    requires l < |steps| && l < |states|
  {
    && steps[l].Publish? && steps[l].msg == n.msg && states[l].published == n.publication
    && n.sub in states[l].subs && states[l].subs[n.sub]
  }

  /** Every row was published, to a subscription that was active at that time. */
  lemma {:induction false} RowsPublished(states: seq<State>, steps: seq<Step>, n: nat, id: Id) returns (l: nat)
    requires Run(states, steps) && n < |states| && id in states[n].rows
    ensures l < n && PublishedAt(states, steps, l, states[n].rows[id])
  {
    assert n > 0;
    var s := states[n - 1];
    assert StepAt(states, steps, n - 1);
    if id in s.rows && KeyOf(s.rows[id]) == KeyOf(states[n].rows[id]) && s.rows[id].msg == states[n].rows[id].msg {
      l := RowsPublished(states, steps, n - 1, id);
    } else {
      l := n - 1;
    }
  }

  /** Step `l` tries to deliver the item. */
  ghost predicate TriedAt(states: seq<State>, steps: seq<Step>, l: nat, x: Item)
    requires l < |steps| && l < |states|
  {
    (steps[l].Deliver? || steps[l].DeliveryFails?)
    && states[l].drain.Pending? && states[l].drain.items != [] && states[l].drain.items[0] == x
  }

  lemma {:induction false} ItemAhead(states: seq<State>, steps: seq<Step>, i: nat, n: nat, x: Item)
    requires Run(states, steps) && i < n <= |steps| && steps[i].BeginDrain? && x in steps[i].listing
    requires forall l :: i < l < n ==> !steps[l].EndDrain?
    ensures || (exists l :: i < l < n && TriedAt(states, steps, l, x))
            || (!states[n].drain.Resting? && x in states[n].drain.items)
  {
    assert StepAt(states, steps, n - 1);
    if n > i + 1 {
      ItemAhead(states, steps, i, n - 1, x);
      if l :| i < l < n - 1 && TriedAt(states, steps, l, x) {
        assert TriedAt(states, steps, l, x);
      } else {
        var d := states[n - 1].drain;
        if (steps[n - 1].Deliver? || steps[n - 1].DeliveryFails?) && d.items[0] == x {
          assert TriedAt(states, steps, n - 1, x);
        } else if steps[n - 1].Deliver? || steps[n - 1].DeliveryFails? {
          assert d.items == [d.items[0]] + d.items[1..];
        }
      }
    }
  }

  /** A pass that goes through its whole listing tries every notification that was
      unsent when it began, whatever becomes of the others. */
  lemma PassCovers(states: seq<State>, steps: seq<Step>, i: nat, j: nat, id: Id) returns (l: nat)
    requires Run(states, steps) && i < j <= |steps| && steps[i].BeginDrain? && states[j].drain == Pending([])
    requires forall l :: i < l < j ==> !steps[l].EndDrain?
    requires id in states[i].rows && states[i].rows[id].sent.None?
    ensures i < l < j && TriedAt(states, steps, l, Item(id, KeyOf(states[i].rows[id])))
  {
    assert StepAt(states, steps, i);
    var k :| 0 <= k < |steps[i].listing| && steps[i].listing[k].id == id;
    ItemAhead(states, steps, i, j, steps[i].listing[k]);
    l :| i < l < j && TriedAt(states, steps, l, steps[i].listing[k]);
  }

  // ---- no stamp without a delivery ----

  function Items(d: Drain): seq<Item> {
    match d
    case Resting => []
    case Pending(items) => items
    case Delivered(item, items) => [item] + items
  }

  /** The listed notification is still the one under its id, if any is. */
  predicate Current(rows: map<Id, Notice>, item: Item) {
    item.id in rows ==> KeyOf(rows[item.id]) == item.key
  }

  /** Every stamped notification reached its destination. */
  ghost predicate Honest(s: State) {
    forall i :: i in s.rows && s.rows[i].sent.Some? ==> KeyOf(s.rows[i]) in s.delivered
  }

  /** What was delivered, or is about to be, was listed; a row published before
      the listing sits under a listed id only if it is the one listed. */
  ghost predicate Traced(s: State) {
    && s.listedAt <= s.published
    && (forall k :: k in s.delivered ==> k.publication < s.listedAt)
    && (forall x :: x in Items(s.drain) ==> x.key.publication < s.listedAt)
    && (forall x :: x in Items(s.drain) && x.id in s.rows && s.rows[x.id].publication < s.listedAt ==>
          Current(s.rows, x))
    && (s.drain.Delivered? ==> s.drain.item.key in s.delivered)
  }

  lemma TracedStays(s: State, t: State)
    requires Traced(s) && t.listedAt == s.listedAt && s.published <= t.published
    requires forall k :: k in t.delivered ==> k in s.delivered || exists x :: x in Items(s.drain) && x.key == k
    requires forall x :: x in Items(t.drain) ==> x in Items(s.drain)
    requires t.drain.Delivered? ==> t.drain.item.key in t.delivered
    requires forall i :: i in t.rows ==>
               (i in s.rows && KeyOf(t.rows[i]) == KeyOf(s.rows[i])) || s.published <= t.rows[i].publication
    ensures Traced(t)
  {
  }

  lemma DeliverItems(s: State, t: State)
    requires Next(s, Deliver, t)
    ensures forall x :: x in Items(t.drain) ==> x in Items(s.drain)
    ensures forall k :: k in t.delivered ==> k in s.delivered || exists x :: x in Items(s.drain) && x.key == k
  {
  }

  lemma ListingTraced(s: State, listing: seq<Item>, t: State)
    requires Wf(s) && Traced(s) && Next(s, BeginDrain(listing), t)
    ensures Traced(t)
  {
  }

  lemma StepKeepsTraced(s: State, step: Step, t: State)
    requires Wf(s) && Traced(s) && Next(s, step, t)
    ensures Traced(t)
  {
    match step
    case BeginDrain(listing) => ListingTraced(s, listing, t);
    case Deliver =>
      DeliverItems(s, t);
      TracedStays(s, t);
    case _ => TracedStays(s, t);
  }

  lemma {:induction false} RunTraced(states: seq<State>, steps: seq<Step>, n: nat)
    requires Run(states, steps) && n < |states|
    ensures Wf(states[n]) && Traced(states[n])
  {
    RunWf(states, steps, n);
    if n > 0 {
      RunTraced(states, steps, n - 1);
      assert StepAt(states, steps, n - 1);
      StepKeepsTraced(states[n - 1], steps[n - 1], states[n]);
    }
  }

  predicate StampsListed(s: State, step: Step) {
    step.StampRow? && s.drain.Delivered? ==> Current(s.rows, s.drain.item)
  }

  /** A stamp keeps the queue honest exactly when no notification published since
      the listing has taken the row id; every other step always does. */
  lemma HonestStep(s: State, step: Step, t: State)
    requires Wf(s) && Traced(s) && Honest(s) && Next(s, step, t)
    ensures Honest(t) <==> StampsListed(s, step)
  {
    match step
    case StampRow(now) =>
      var x := s.drain.item;
      assert x in Items(s.drain);
      if x.id in s.rows {
        assert t.rows[x.id] == s.rows[x.id].(sent := Some(now));
      }
    case Publish(msg, added) =>
    case _ => assert forall i :: i in t.rows ==> i in s.rows && t.rows[i] == s.rows[i];
  }

  /** No stamp without a delivery, in every state of a run, if and only if every
      stamp of the run finds the listed notification, or nothing, under its id. */
  lemma HonestRun(states: seq<State>, steps: seq<Step>)
    requires Run(states, steps)
    ensures (forall n :: 0 <= n < |states| ==> Honest(states[n])) <==>
            (forall i :: 0 <= i < |steps| ==> StampsListed(states[i], steps[i]))
  {
    if forall n :: 0 <= n < |states| ==> Honest(states[n]) {
      forall i | 0 <= i < |steps| ensures StampsListed(states[i], steps[i]) {
        RunTraced(states, steps, i);
        assert StepAt(states, steps, i);
        HonestStep(states[i], steps[i], states[i + 1]);
      }
    }
    if forall i :: 0 <= i < |steps| ==> StampsListed(states[i], steps[i]) {
      forall n | 0 <= n < |states| ensures Honest(states[n]) {
        HonestUpTo(states, steps, n);
      }
    }
  }

  lemma {:induction false} HonestUpTo(states: seq<State>, steps: seq<Step>, n: nat)
    requires Run(states, steps) && n < |states|
    requires forall i :: 0 <= i < |steps| ==> StampsListed(states[i], steps[i])
    ensures Honest(states[n])
  {
    if n > 0 {
      HonestUpTo(states, steps, n - 1);
      RunTraced(states, steps, n - 1);
      assert StepAt(states, steps, n - 1);
      HonestStep(states[n - 1], steps[n - 1], states[n]);
    }
  }

  /** A publish takes no listed id as long as some row at or above it is left:
      only deleting the newest rows during a pass frees an id for reuse. */
  lemma NoReuse(s: State, msg: Id, added: map<Id, Notice>, x: Item)
    requires Publishes(s, msg, added) && exists j :: j in s.rows && x.id.n <= j.n
    ensures x.id !in added
  {
  }

  // ---- a notification that is never delivered ----

  const ONE := Id(1)
  const TWO := Id(2)

  /** Message 1 is published and listed; it is deleted while its delivery is under
      way; message 2 is published under the freed id and stamped in its place. */
  function LostStates(): seq<State> {
    var first, second := Notice(0, ONE, ONE, None), Notice(1, ONE, TWO, None);
    var subs, item := map[ONE := true], Item(ONE, Key(0, ONE));
    [ State(map[], subs, {ONE, TWO}, Resting, 0, 0, {}),
      State(map[ONE := first], subs, {ONE, TWO}, Resting, 1, 0, {}),
      State(map[ONE := first], subs, {ONE, TWO}, Pending([item]), 1, 1, {}),
      State(map[], subs, {TWO}, Pending([item]), 1, 1, {}),
      State(map[ONE := second], subs, {TWO}, Pending([item]), 2, 1, {}),
      State(map[ONE := second], subs, {TWO}, Delivered(item, []), 2, 1, {Key(0, ONE)}),
      State(map[ONE := second.(sent := Some(5))], subs, {TWO}, Pending([]), 2, 1, {Key(0, ONE)}) ]
  }

  function LostSteps(): seq<Step> {
    [ Publish(ONE, map[ONE := Notice(0, ONE, ONE, None)]), BeginDrain([Item(ONE, Key(0, ONE))]), DeleteMsgs({ONE}),
      Publish(TWO, map[ONE := Notice(1, ONE, TWO, None)]), Deliver, StampRow(5) ]
  }

  lemma LostStep(i: nat)
    requires i < 6
    ensures Next(LostStates()[i], LostSteps()[i], LostStates()[i + 1])
  {
    var s, t := LostStates()[i], LostStates()[i + 1];
    if i == 0 {
      var added := LostSteps()[0].added;
      assert added[ONE].sub == ONE;
      assert Publishes(s, ONE, added);
      assert s.rows + added == t.rows;
    } else if i == 1 {
      var listing := LostSteps()[1].listing;
      assert listing[0].id == ONE;
      assert Lists(s, listing);
    } else if i == 2 {
      assert s.rows - (set x | x in s.rows && s.rows[x].msg in {ONE}) == t.rows;
    } else if i == 3 {
      var added := LostSteps()[3].added;
      assert added[ONE].sub == ONE;
      assert Publishes(s, TWO, added);
      assert s.rows + added == t.rows;
    } else if i == 4 {
      assert s.drain.items[1..] == [];
    }
  }

  /** Each of these steps is one the server takes, and the second notification
      ends up stamped although it was never delivered; the queue never lists it
      again. */
  lemma LostNotification()
    ensures Run(LostStates(), LostSteps())
    ensures var end := LostStates()[6];
            end.rows[ONE].sent.Some? && KeyOf(end.rows[ONE]) !in end.delivered && !Honest(end)
  {
    forall i | 0 <= i < 6 ensures Next(LostStates()[i], LostSteps()[i], LostStates()[i + 1]) {
      LostStep(i);
    }
  }
}
