/** The key grammar of the config file and the slugs the web UI derives from
    names (configapply.go, db.go). */
module SlugGrammar {
  import opened Prelude

  predicate SlugChar(lib: Lib, c: char) {
    lib.isLower(c) || IsDigit(c) || c == '-'
  }

  /** slugPattern.MatchString: a leading dash, a trailing dash or a forbidden
      character. The empty string does not match. */
  predicate PatternMatches(lib: Lib, s: string) {
    s != "" && (s[0] == '-' || s[|s| - 1] == '-' || exists c :: c in s && !SlugChar(lib, c))
  }

  predicate Legal(lib: Lib, s: string) {
    s != "" && !PatternMatches(lib, s)
  }

  predicate WordChar(lib: Lib, c: char) {
    lib.isLetter(c) || IsDigit(c)
  }

  /** ReplaceAllString with [^\p{L}\d]+ and "-": each run of other characters
      becomes one dash. */
  function Collapse(lib: Lib, s: string, inRun: bool): string {
    if s == "" then ""
    else if WordChar(lib, s[0]) then [s[0]] + Collapse(lib, s[1..], false)
    else (if inRun then "" else "-") + Collapse(lib, s[1..], true)
  }

  function TrimLeft(s: string): string {
    if s != "" && s[0] == '-' then TrimLeft(s[1..]) else s
  }

  function TrimRight(s: string): string {
    if s != "" && s[|s| - 1] == '-' then TrimRight(s[..|s| - 1]) else s
  }

  function Base(lib: Lib, name: string): string {
    TrimRight(TrimLeft(Collapse(lib, lib.lower(name), false)))
  }

  /** The slug tried on attempt `n`. */
  function Candidate(lib: Lib, name: string, n: nat): string {
    var base := Base(lib, name);
    if base == "" then Itoa(n)
    else if n > 0 then base + "-" + Itoa(n)
    else base
  }

  // ---- a slug is the words of the name ----

  /** The maximal runs of letters and digits of `word + s`; `word` is one being read. */
  function Words(lib: Lib, s: string, word: string): seq<string> {
    if s == "" then (if word == "" then [] else [word])
    else if lib.isLetter(s[0]) || '0' <= s[0] <= '9' then Words(lib, s[1..], word + [s[0]])
    else (if word == "" then [] else [word]) + Words(lib, s[1..], "")
  }

  function Dashed(words: seq<string>): string {
    if words == [] then "" else if |words| == 1 then words[0] else words[0] + "-" + Dashed(words[1..])
  }

  lemma {:induction false} WordRead(lib: Lib, s: string, word: string)
    requires word != ""
    ensures Words(lib, s, word) != []
  {
    if s != "" && WordChar(lib, s[0]) {
      WordRead(lib, s[1..], word + [s[0]]);
    }
  }

  /** What follows a word that is being read, after any prefix. */
  lemma {:induction false} TrimmedWord(lib: Lib, p: string, word: string, s: string)
    requires !lib.isLetter('-') && word != "" && word[|word| - 1] != '-'
    ensures TrimRight(p + word + Collapse(lib, s, false)) == p + Dashed(Words(lib, s, word))
    decreases |s|, 1
  {
    if s == "" {
      assert p + word + "" == p + word;
    } else if WordChar(lib, s[0]) {
      assert p + word + ([s[0]] + Collapse(lib, s[1..], false)) == p + (word + [s[0]]) + Collapse(lib, s[1..], false);
      TrimmedWord(lib, p, word + [s[0]], s[1..]);
    } else {
      assert p + word + ("-" + Collapse(lib, s[1..], true)) == p + word + "-" + Collapse(lib, s[1..], true);
      TrimmedRun(lib, p, word, s[1..]);
    }
  }

  /** What follows the dash after a word. */
  lemma {:induction false} TrimmedRun(lib: Lib, p: string, word: string, s: string)
    requires !lib.isLetter('-') && word != "" && word[|word| - 1] != '-'
    ensures TrimRight(p + word + "-" + Collapse(lib, s, true)) == p + Dashed([word] + Words(lib, s, ""))
    decreases |s|, 0
  {
    if s == "" {
      assert p + word + "-" + "" == p + word + "-" && (p + word + "-")[..|p + word|] == p + word;
    } else if WordChar(lib, s[0]) {
      var words := Words(lib, s[1..], [s[0]]);
      assert "" + [s[0]] == [s[0]];
      assert p + word + "-" + ([s[0]] + Collapse(lib, s[1..], false)) ==
             (p + word + "-") + [s[0]] + Collapse(lib, s[1..], false);
      TrimmedWord(lib, p + word + "-", [s[0]], s[1..]);
      WordRead(lib, s[1..], [s[0]]);
      assert ([word] + words)[1..] == words;
      assert p + word + "-" + Dashed(words) == p + (word + "-" + Dashed(words));
    } else {
      assert "" + Collapse(lib, s[1..], true) == Collapse(lib, s[1..], true);
      assert [] + Words(lib, s[1..], "") == Words(lib, s[1..], "");
      TrimmedRun(lib, p, word, s[1..]);
    }
  }

  lemma {:induction false} TrimmedStart(lib: Lib, s: string, inRun: bool)
    requires !lib.isLetter('-')
    ensures TrimRight(TrimLeft(Collapse(lib, s, inRun))) == Dashed(Words(lib, s, ""))
  {
    if s != "" {
      if WordChar(lib, s[0]) {
        assert "" + [s[0]] == [s[0]];
        assert [s[0]] + Collapse(lib, s[1..], false) == "" + [s[0]] + Collapse(lib, s[1..], false);
        TrimmedWord(lib, "", [s[0]], s[1..]);
        assert "" + Dashed(Words(lib, s[1..], [s[0]])) == Dashed(Words(lib, s[1..], [s[0]]));
      } else {
        var rest := Collapse(lib, s[1..], true);
        assert "" + rest == rest && ("-" + rest)[1..] == rest;
        assert [] + Words(lib, s[1..], "") == Words(lib, s[1..], "");
        TrimmedStart(lib, s[1..], true);
      }
    }
  }

  /** The first slug tried is the words of the lower-cased name, joined by dashes;
      the later ones append the attempt. A name without words gives numbers. */
  lemma CandidateIsWords(lib: Lib, name: string, n: nat)
    requires !lib.isLetter('-')
    ensures var words := Dashed(Words(lib, lib.lower(name), ""));
            Candidate(lib, name, n) == if words == "" then Itoa(n) else if n == 0 then words else words + "-" + Itoa(n)
  {
    TrimmedStart(lib, lib.lower(name), false);
  }

  lemma CandidatesDiffer(lib: Lib, name: string, m: nat, n: nat)
    requires m < n
    ensures Candidate(lib, name, m) != Candidate(lib, name, n)
  {
    var base := Base(lib, name);
    if Candidate(lib, name, m) == Candidate(lib, name, n) {
      if base == "" {
        ItoaInjective(m, n);
      } else if m > 0 {
        var k := |base| + 1;
        assert Candidate(lib, name, m)[k..] == Itoa(m);
        assert Candidate(lib, name, n)[k..] == Itoa(n);
        ItoaInjective(m, n);
      }
    }
  }

  /** Word characters survive collapsing and trimming, nothing but dashes is
      added, and no dash is left at either end. */
  lemma {:induction false} CollapseKeeps(lib: Lib, s: string, inRun: bool)
    ensures forall c :: c in Collapse(lib, s, inRun) ==> c == '-' || (WordChar(lib, c) && c in s)
    ensures forall c :: c in s && WordChar(lib, c) ==> c in Collapse(lib, s, inRun)
  {
    if s != "" {
      CollapseKeeps(lib, s[1..], !WordChar(lib, s[0]));
      assert s == [s[0]] + s[1..];
    }
  }

  lemma {:induction false} TrimLeftKeeps(s: string)
    ensures forall c :: c in TrimLeft(s) ==> c in s
    ensures forall c :: c in s && c != '-' ==> c in TrimLeft(s)
    ensures TrimLeft(s) == "" || TrimLeft(s)[0] != '-'
  {
    if s != "" && s[0] == '-' {
      TrimLeftKeeps(s[1..]);
      assert s == [s[0]] + s[1..];
    }
  }

  lemma {:induction false} TrimRightKeeps(s: string)
    ensures forall c :: c in TrimRight(s) ==> c in s
    ensures forall c :: c in s && c != '-' ==> c in TrimRight(s)
    ensures TrimRight(s) == "" || TrimRight(s)[|TrimRight(s)| - 1] != '-'
    ensures TrimRight(s) <= s
  {
    if s != "" && s[|s| - 1] == '-' {
      TrimRightKeeps(s[..|s| - 1]);
      assert s == s[..|s| - 1] + [s[|s| - 1]];
    }
  }

  lemma BaseShape(lib: Lib, name: string)
    requires !lib.isLetter('-')
    ensures var b := Base(lib, name);
            && (b == "" || (b[0] != '-' && b[|b| - 1] != '-'))
            && (forall c :: c in b ==> c == '-' || (WordChar(lib, c) && c in lib.lower(name)))
            && (forall c :: c in lib.lower(name) && WordChar(lib, c) ==> c in b)
  {
    var low := lib.lower(name);
    var collapsed := Collapse(lib, low, false);
    CollapseKeeps(lib, low, false);
    TrimLeftKeeps(collapsed);
    TrimRightKeeps(TrimLeft(collapsed));
  }

  /** A generated slug is a legal config key exactly when every letter of the
      lower-cased name is in category Ll. A name in a script without case
      yields a slug that the config file refuses. */
  lemma GeneratedSlugLegal(lib: Lib, name: string, n: nat)
    requires !lib.isLetter('-')
    ensures Legal(lib, Candidate(lib, name, n)) <==>
            forall c :: c in lib.lower(name) && lib.isLetter(c) ==> lib.isLower(c) || IsDigit(c)
  {
    var b, s := Base(lib, name), Candidate(lib, name, n);
    BaseShape(lib, name);
    forall c ensures c in s ==> c in b || c == '-' || IsDigit(c) {}
    forall c ensures c in b ==> c in s {}
    assert s != "" && s[0] != '-' && s[|s| - 1] != '-' by {
      if n > 0 && b != "" {
        assert s[|s| - 1] == Itoa(n)[|Itoa(n)| - 1];
      }
      if b == "" {
        assert s[0] in s && s[|s| - 1] in s;
      }
    }
  }

  /** generateSlug: the first candidate that is not taken, found within
      |slugs| + 1 attempts. */
  method GenerateSlug(lib: Lib, name: string, slugs: set<string>) returns (slug: string, ghost attempts: nat)
    ensures slug !in slugs
    ensures slug == Candidate(lib, name, attempts) && attempts <= |slugs|
    ensures forall m: nat :: m < attempts ==> Candidate(lib, name, m) in slugs
  {
    var attempt: nat := 0;
    ghost var tried: set<string> := {};
    while true
      invariant |tried| == attempt && tried <= slugs && attempt <= |slugs|
      invariant forall m: nat :: m < attempt ==> Candidate(lib, name, m) in tried
      invariant forall s :: s in tried ==> exists m: nat :: m < attempt && s == Candidate(lib, name, m)
      decreases |slugs| - attempt
    {
      slug := Candidate(lib, name, attempt);
      if slug !in slugs {
        attempts := attempt;
        return;
      }
      forall s | s in tried ensures s != slug {
        var m: nat :| m < attempt && s == Candidate(lib, name, m);
        CandidatesDiffer(lib, name, m, attempt);
      }
      tried := tried + {slug};
      SubsetSize(tried, slugs);
      attempt := attempt + 1;
    }
  }

  /** `slug` is a candidate of `name`, and every earlier one went to a smaller id. */
  ghost predicate FirstFree(lib: Lib, name: string, slug: string, id: int, slugToId: map<string, int>) {
    exists n: nat :: slug == Candidate(lib, name, n) && forall m: nat :: m < n ==>
                       Before(Candidate(lib, name, m), id, slugToId)
  }

  predicate Before(slug: string, id: int, slugToId: map<string, int>) {
    slug in slugToId && slugToId[slug] < id
  }

  lemma FirstFreeGrows(lib: Lib, name: string, slug: string, id: int, a: map<string, int>, b: map<string, int>)
    requires FirstFree(lib, name, slug, id, a) && forall s :: s in a ==> s in b && b[s] == a[s]
    ensures FirstFree(lib, name, slug, id, b)
  {
    var n: nat :| slug == Candidate(lib, name, n) && forall m: nat :: m < n ==> Before(Candidate(lib, name, m), id, a);
    forall m: nat | m < n ensures Before(Candidate(lib, name, m), id, b) {
      assert Before(Candidate(lib, name, m), id, a);
    }
  }

  ghost predicate Ascending(ids: seq<int>) {
    forall i, j :: 0 <= i < j < |ids| ==> ids[i] < ids[j]
  }

  /** Every id of `ids` has exactly one slug, its first free candidate. */
  ghost predicate Backfilled(lib: Lib, ids: seq<int>, names: map<int, string>, slugToId: map<string, int>) {
    && (forall id :: id in ids ==> Assigned(slugToId, id))
    && (forall s, t :: s in slugToId && t in slugToId && slugToId[s] == slugToId[t] ==> s == t)
    && (forall s :: s in slugToId ==> slugToId[s] in ids && slugToId[s] in names
                                      && FirstFree(lib, names[slugToId[s]], s, slugToId[s], slugToId))
  }

  /** The assignment loop of generateSlugBackfillCte: ids in ascending order, each
      takes its first free candidate. */
  method BackfillSlugs(lib: Lib, ids: seq<int>, names: map<int, string>) returns (slugToId: map<string, int>)
    requires Ascending(ids) && Elems(ids) <= names.Keys
    ensures Backfilled(lib, ids, names, slugToId)
  {
    slugToId := map[];
    var i := 0;
    while i < |ids|
      invariant 0 <= i <= |ids| && Backfilled(lib, ids[..i], names, slugToId)
    {
      assert ids[i] in Elems(ids);
      var slug, n := GenerateSlug(lib, names[ids[i]], slugToId.Keys);
      BackfillStep(lib, ids, names, slugToId, i, slug, n);
      slugToId := slugToId[slug := ids[i]];
      i := i + 1;
    }
    assert ids[..i] == ids;
  }

  lemma BackfillStep(lib: Lib, ids: seq<int>, names: map<int, string>, a: map<string, int>, i: nat,
                     slug: string, n: nat)
    requires i < |ids| && Ascending(ids) && ids[i] in names && Backfilled(lib, ids[..i], names, a)
    requires slug !in a && slug == Candidate(lib, names[ids[i]], n)
    requires forall m: nat :: m < n ==> Candidate(lib, names[ids[i]], m) in a
    ensures Backfilled(lib, ids[..i + 1], names, a[slug := ids[i]])
  {
    var b := a[slug := ids[i]];
    assert ids[..i + 1] == ids[..i] + [ids[i]];
    SmallerBefore(a, ids, i);
    FreshIsFirst(lib, names[ids[i]], slug, n, ids[i], a, b);
    forall s | s in a ensures FirstFree(lib, names[a[s]], s, a[s], b) {
      FirstFreeGrows(lib, names[a[s]], s, a[s], a, b);
    }
    forall id | id in ids[..i + 1] ensures Assigned(b, id) {
      AssignedGrows(a, slug, ids[i], id);
    }
  }

  lemma AssignedGrows(a: map<string, int>, slug: string, added: int, id: int)
    requires slug !in a && (id == added || Assigned(a, id))
    ensures Assigned(a[slug := added], id)
  {
    var b := a[slug := added];
    if id == added {
      assert b[slug] == id;
    } else {
      var s :| s in a && a[s] == id;
      assert b[s] == id;
    }
  }

  lemma SmallerBefore(before: map<string, int>, ids: seq<int>, i: nat)
    requires i < |ids| && Ascending(ids) && forall s :: s in before ==> before[s] in ids[..i]
    ensures forall s :: s in before ==> before[s] < ids[i]
  {
  }

  lemma FreshIsFirst(lib: Lib, name: string, slug: string, n: nat, id: int, a: map<string, int>, b: map<string, int>)
    requires slug !in a && b == a[slug := id] && slug == Candidate(lib, name, n)
    requires forall m: nat :: m < n ==> Candidate(lib, name, m) in a
    requires forall s :: s in a ==> a[s] < id
    ensures FirstFree(lib, name, slug, id, b)
  {
    forall m: nat | m < n ensures Before(Candidate(lib, name, m), id, b) {
      assert Candidate(lib, name, m) in a;
    }
  }
}
