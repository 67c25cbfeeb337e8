/** SQL tables with a unique slug column, as maps from row id to row, and the
    relation that one "edit or create" pass of the reconciler establishes. */
module Tables {
  import opened Prelude

  datatype SqlError = Unique | ForeignKey | Check

  /** An integer primary key. */
  datatype Id = Id(n: int)

  datatype Row<F> = Row(slug: string, f: F)

  type Table<F> = map<Id, Row<F>>

  /** Ids are positive and slug is UNIQUE. */
  ghost predicate Wf<F>(t: Table<F>) {
    && (forall i :: i in t ==> i.n > 0)
    && (forall i, j :: i in t && j in t && t[i].slug == t[j].slug ==> i == j)
  }

  function Slugs<F>(t: Table<F>): set<string> {
    set i | i in t :: t[i].slug
  }

  /** The table as a reader who knows only slugs sees it. */
  ghost function View<F>(t: Table<F>): (v: map<string, F>)
    requires Wf(t)
    ensures v.Keys == Slugs(t)
    ensures forall i :: i in t ==> t[i].slug in v && v[t[i].slug] == t[i].f
  {
    map s | s in Slugs(t) :: t[IdOf(t, s)].f
  }

  ghost function IdOf<F>(t: Table<F>, slug: string): (id: Id)
    requires slug in Slugs(t)
    ensures id in t && t[id].slug == slug
  {
    var id :| id in t && t[id].slug == slug;
    id
  }

  function Keep<F>(t: Table<F>, keys: set<string>): Table<F> {
    map i | i in t && t[i].slug in keys :: t[i]
  }

  /** `index` is the slug-to-id map built from a listing of `t`. */
  ghost predicate Indexes<F>(index: map<string, Id>, t: Table<F>) {
    && (forall s :: s in index ==> index[s] in t && t[index[s]].slug == s)
    && (forall i :: i in t ==> t[i].slug in index)
  }

  // ---- statements ----

  /** The id SQLite gives a new row: greater than every id in use, so the id of
      a deleted row can come back. */
  method NextRowId(ids: set<Id>) returns (id: Id)
    ensures id.n > 0 && id !in ids && forall k :: k in ids ==> k.n < id.n
  {
    id := Id(1);
    var todo := ids;
    while todo != {}
      invariant id.n > 0 && forall k :: k in ids && k !in todo ==> k.n < id.n
      decreases todo
    {
      var k :| k in todo;
      if id.n <= k.n {
        id := Id(k.n + 1);
      }
      todo := todo - {k};
    }
  }

  method Insert<F>(t: Table<F>, slug: string, f: F) returns (err: Option<SqlError>, t': Table<F>, id: Id)
    ensures slug in Slugs(t) ==> err == Some(Unique) && t' == t
    ensures slug !in Slugs(t) ==> err == None && id.n > 0 && id !in t && t' == t[id := Row(slug, f)]
  {
    err, t', id := None, t, Id(0);
    if slug in Slugs(t) {
      err := Some(Unique);
    } else {
      id := NextRowId(t.Keys);
      t' := t[id := Row(slug, f)];
    }
  }

  /** update ... set <columns> where id = ?: the slug is not among the columns. */
  function EditRow<F>(t: Table<F>, id: Id, f: F): Table<F> {
    if id in t then t[id := Row(t[id].slug, f)] else t
  }

  datatype SlugUpdate<F> = NoRows | Taken | Moved(t: Table<F>)

  /** update ... set slug = dst where slug = src returning id */
  function MoveSlug<F>(t: Table<F>, src: string, dst: string): SlugUpdate<F> {
    if src !in Slugs(t) then NoRows
    else if dst != src && dst in Slugs(t) then Taken
    else Moved(map i | i in t :: if t[i].slug == src then Row(dst, t[i].f) else t[i])
  }

  // ---- the delete-by-omission pass ----

  /** The table while rows in `todo` are still to be looked at. */
  function KeepOrTodo<F>(t: Table<F>, keys: set<string>, todo: set<Id>): Table<F> {
    map i | i in t && (i in todo || t[i].slug in keys) :: t[i]
  }

  /** `index` covers the kept rows that were looked at. */
  ghost predicate IndexesSeen<F>(index: map<string, Id>, t: Table<F>, keys: set<string>, todo: set<Id>) {
    && (forall s :: s in index ==> index[s] in t && t[index[s]].slug == s && s in keys)
    && (forall i :: i in t && i !in todo && t[i].slug in keys ==> t[i].slug in index)
  }

  lemma DropStart<F>(t: Table<F>, keys: set<string>)
    ensures KeepOrTodo(t, keys, t.Keys) == t && IndexesSeen(map[], t, keys, t.Keys)
  {
  }

  lemma DropStep<F>(t: Table<F>, keys: set<string>, todo: set<Id>, index: map<string, Id>, i: Id)
    requires IndexesSeen(index, t, keys, todo) && i in todo && i in t
    ensures t[i].slug in keys ==>
              && KeepOrTodo(t, keys, todo - {i}) == KeepOrTodo(t, keys, todo)
              && IndexesSeen(index[t[i].slug := i], t, keys, todo - {i})
    ensures t[i].slug !in keys ==>
              && KeepOrTodo(t, keys, todo - {i}) == KeepOrTodo(t, keys, todo) - {i}
              && IndexesSeen(index, t, keys, todo - {i})
  {
  }

  lemma DropDone<F>(t: Table<F>, keys: set<string>, index: map<string, Id>)
    requires IndexesSeen(index, t, keys, {})
    ensures KeepOrTodo(t, keys, {}) == Keep(t, keys) && Indexes(index, Keep(t, keys))
  {
  }

  /** The slug-to-id map of a whole listing. */
  method IndexOf<F>(t: Table<F>) returns (index: map<string, Id>)
    ensures Indexes(index, t)
  {
    index := map[];
    var todo := t.Keys;
    while todo != {}
      invariant todo <= t.Keys
      invariant forall s :: s in index ==> index[s] in t && t[index[s]].slug == s
      invariant forall i :: i in t && i !in todo ==> t[i].slug in index
      decreases todo
    {
      var i :| i in todo;
      index := index[t[i].slug := i];
      todo := todo - {i};
    }
  }

  // ---- the edit-or-create pass ----

  function Edited<F>(row: Row<F>, target: map<string, F>, done: set<string>): Row<F> {
    if row.slug in target && row.slug in done then Row(row.slug, target[row.slug]) else row
  }

  /** `t` is `t0` after the slugs in `done` were visited: a row of `t0` whose slug
      has a target is edited in place, a missing target slug is created under an
      unused id, everything else is untouched. */
  ghost predicate Upserted<F>(t0: Table<F>, t: Table<F>, target: map<string, F>, done: set<string>) {
    && Wf(t)
    && (forall i :: i in t0 ==> i in t && t[i] == Edited(t0[i], target, done))
    && (forall i :: i in t && i !in t0 ==>
                  t[i].slug in done && t[i].slug in target && t[i].slug !in Slugs(t0) && t[i].f == target[t[i].slug])
    && (forall s :: s in done && s in target ==> s in Slugs(t))
  }

  ghost predicate Settled<F>(t0: Table<F>, t: Table<F>, target: map<string, F>) {
    Upserted(t0, t, target, target.Keys)
  }

  lemma EditStep<F>(t0: Table<F>, t: Table<F>, target: map<string, F>, done: set<string>, id: Id)
    requires Upserted(t0, t, target, done) && Wf(t0)
    requires id in t0 && t0[id].slug in target && t0[id].slug !in done
    ensures Upserted(t0, EditRow(t, id, target[t0[id].slug]), target, done + {t0[id].slug})
  {
    var slug := t0[id].slug;
    var t' := EditRow(t, id, target[slug]);
    assert t[id].slug == slug;
    forall s | s in done + {slug} && s in target ensures s in Slugs(t') {
      if s in done {
        var i :| i in t && t[i].slug == s;
        assert t'[i].slug == s;
      } else {
        assert t'[id].slug == s;
      }
    }
  }

  lemma StillAbsent<F>(t0: Table<F>, t: Table<F>, target: map<string, F>, done: set<string>, slug: string)
    requires Upserted(t0, t, target, done)
    requires slug !in done && slug !in Slugs(t0)
    ensures slug !in Slugs(t)
  {
  }

  lemma InsertSlugs<F>(t: Table<F>, slug: string, f: F, id: Id)
    requires id !in t
    ensures Slugs(t[id := Row(slug, f)]) == Slugs(t) + {slug}
  {
    var t' := t[id := Row(slug, f)];
    assert t'[id].slug == slug;
    forall i | i in t ensures t[i].slug in Slugs(t') {
      assert t'[i] == t[i];
    }
    forall i | i in t' ensures t'[i].slug in Slugs(t) + {slug} {
      assert i in t ==> t'[i] == t[i];
    }
  }

  lemma InsertStep<F>(t0: Table<F>, t: Table<F>, target: map<string, F>, done: set<string>, slug: string, id: Id)
    requires Upserted(t0, t, target, done)
    requires slug in target && slug !in done && slug !in Slugs(t0)
    requires id.n > 0 && id !in t
    ensures Upserted(t0, t[id := Row(slug, target[slug])], target, done + {slug})
  {
    StillAbsent(t0, t, target, done, slug);
    InsertSlugs(t, slug, target[slug], id);
    var t', done' := t[id := Row(slug, target[slug])], done + {slug};
    forall i | i in t0 ensures i in t' && t'[i] == Edited(t0[i], target, done') {
      assert t0[i].slug in Slugs(t0);
    }
    forall i | i in t ensures t[i].slug != slug {
      assert t[i].slug in Slugs(t);
    }
  }

  lemma UpsertStart<F>(t0: Table<F>, target: map<string, F>)
    requires Wf(t0)
    ensures Upserted(t0, t0, target, {})
  {
  }

  /** A slug that gets no target changes nothing. */
  lemma SkipStep<F>(t0: Table<F>, t: Table<F>, target: map<string, F>, done: set<string>, slug: string)
    requires Upserted(t0, t, target, done) && slug !in target
    ensures Upserted(t0, t, target, done + {slug})
  {
  }

  lemma UpsertDone<F>(t0: Table<F>, t: Table<F>, target: map<string, F>, done: set<string>)
    requires Upserted(t0, t, target, done) && target.Keys <= done
    ensures Settled(t0, t, target)
  {
  }

  lemma KeepWf<F>(t: Table<F>, keys: set<string>)
    requires Wf(t)
    ensures Wf(Keep(t, keys)) && Slugs(Keep(t, keys)) == Slugs(t) * keys
  {
    forall s | s in Slugs(t) && s in keys ensures s in Slugs(Keep(t, keys)) {
      var i :| i in t && t[i].slug == s;
      assert i in Keep(t, keys);
    }
  }

  /** The edit-or-create branch shared by the stages: `edited` goes into the
      indexed row, or `created` into a new one. No constraint is violated. */
  method Upsert<F>(ghost t0: Table<F>, t: Table<F>, index: map<string, Id>, slug: string, edited: F, created: F,
                   ghost target: map<string, F>, ghost done: set<string>)
    returns (err: Option<SqlError>, t': Table<F>, id: Id)
    requires Wf(t0) && Indexes(index, t0) && Upserted(t0, t, target, done)
    requires slug in target && slug !in done
    requires target[slug] == if slug in Slugs(t0) then edited else created
    ensures err == None && Upserted(t0, t', target, done + {slug})
    ensures t' == t[id := Row(slug, target[slug])]
    ensures id in t ==> id in t0 && t[id].slug == slug
  {
    if slug in index {
      assert slug == t0[index[slug]].slug;
      EditStep(t0, t, target, done, index[slug]);
      err, t', id := None, EditRow(t, index[slug], edited), index[slug];
    } else {
      assert slug !in Slugs(t0);
      StillAbsent(t0, t, target, done, slug);
      err, t', id := Insert(t, slug, created);
      InsertStep(t0, t, target, done, slug, id);
    }
  }

  // ---- what a settled table is ----

  /** By slug, the outcome is the old view overridden by the targets. */
  lemma SettledView<F>(t0: Table<F>, t: Table<F>, target: map<string, F>)
    requires Wf(t0) && Settled(t0, t, target)
    ensures forall s :: s in Slugs(t) <==> s in Slugs(t0) || s in target
    ensures forall s :: s in Slugs(t) ==> View(t)[s] == if s in target then target[s] else View(t0)[s]
  {
  }

  lemma SettledSlugs<F>(t0: Table<F>, t: Table<F>, target: map<string, F>)
    requires Wf(t0) && Settled(t0, t, target)
    ensures Slugs(t) == Slugs(t0) + target.Keys
  {
  }

  /** A table that already shows its targets is left exactly as it is. */
  lemma SettledFixpoint<F>(t0: Table<F>, t: Table<F>, target: map<string, F>)
    requires Wf(t0) && Settled(t0, t, target)
    requires forall s :: s in target ==> s in View(t0) && View(t0)[s] == target[s]
    ensures t == t0
  {
  }

  /** When every old slug has a target, the outcome shows the targets alone,
      whatever the rows were. */
  lemma SettledConverges<F>(t0: Table<F>, t: Table<F>, target: map<string, F>)
    requires Wf(t0) && Settled(t0, t, target) && Slugs(t0) <= target.Keys
    ensures View(t) == target
  {
  }

  /** Deleting omitted rows after the edit-or-create pass, as the monitors stage
      does, settles the same table as deleting them before it. */
  lemma KeepAfterSettling<F>(t0: Table<F>, t: Table<F>, target: map<string, F>, keys: set<string>)
    requires Wf(t0) && Settled(t0, t, target) && target.Keys <= keys
    ensures Settled(Keep(t0, keys), Keep(t, keys), target)
  {
    var k0, k := Keep(t0, keys), Keep(t, keys);
    KeepWf(t0, keys);
    KeepWf(t, keys);
    forall i | i in k && i !in k0
      ensures k[i].slug in target && k[i].slug !in Slugs(k0) && k[i].f == target[k[i].slug]
    {
      assert i !in t0;
    }
  }
}
