/** The attention list (src/server/activity-attention-query.ts): pages in the order of (since, id) with a
    cursor that freezes the upper bound of `since`, over facts that come and go between the pages. */
module AttentionPaging {
  import opened Wrappers

  datatype Kind = Question | ReportDelivery | StoppedWorker | Acceptance | RemoteConnection

  /** Ids are compared as numbers here; only their order matters. */
  datatype Fact = Fact(since: nat, id: nat, kind: Kind)

  /** The facts at one moment, in the order of the query. */
  type Snapshot = seq<Fact>

  predicate Less(a: Fact, b: Fact) {
    a.since < b.since || (a.since == b.since && a.id < b.id)
  }

  predicate Sorted(s: seq<Fact>) {
    forall i, j :: 0 <= i < j < |s| ==> Less(s[i], s[j])
  }

  datatype Position = Start | Past(since: nat, id: nat) | End

  predicate Beyond(f: Fact, p: Position) {
    match p
    case Start => true
    case Past(since, id) => f.since > since || (f.since == since && f.id > id)
    case End => false
  }

  /** `None` is the filter `all`. */
  predicate Admitted(f: Fact, until: nat, filter: Option<Kind>) {
    f.since <= until && (filter.None? || f.kind == filter.value)
  }

  /** The rows the query could return from a position. */
  function Rows(s: Snapshot, p: Position, until: nat, filter: Option<Kind>): (r: seq<Fact>)
    ensures forall f :: f in r <==> f in s && Admitted(f, until, filter) && Beyond(f, p)
    ensures Sorted(s) ==> Sorted(r)
  {
    if s == [] then []
    else
      var rest, last := s[..|s| - 1], s[|s| - 1];
      assert s == rest + [last];
      var before := Rows(rest, p, until, filter);
      assert Sorted(s) ==> forall f :: f in before ==> f in rest && Less(f, last);
      if Admitted(last, until, filter) && Beyond(last, p) then before + [last] else before
  }

  datatype Page = Page(items: seq<Fact>, next: Position)

  /** `page`: one row more than the limit is read to know whether there is a next page. */
  function PageAt(s: Snapshot, p: Position, until: nat, filter: Option<Kind>, limit: nat): Page
    requires limit > 0
  {
    var rows := Rows(s, p, until, filter);
    if |rows| > limit then Page(rows[..limit], Past(rows[limit - 1].since, rows[limit - 1].id)) else Page(rows, End)
  }

  // ---- A walk ----

  datatype Look = Look(facts: Snapshot, limit: nat)
  datatype Walked = Walked(visited: seq<Fact>, position: Position)

  function Walk(looks: seq<Look>, until: nat, filter: Option<Kind>): Walked
    requires forall i :: 0 <= i < |looks| ==> looks[i].limit > 0
  {
    if looks == [] then Walked([], Start)
    else
      var before := Walk(looks[..|looks| - 1], until, filter);
      if before.position == End then before
      else
        var page := PageAt(looks[|looks| - 1].facts, before.position, until, filter, looks[|looks| - 1].limit);
        Walked(before.visited + page.items, page.next)
  }

  predicate Proper(looks: seq<Look>) {
    forall i :: 0 <= i < |looks| ==> looks[i].limit > 0 && Sorted(looks[i].facts)
  }

  /** Facts up to the position have been passed, the others have not. */
  predicate Passed(f: Fact, p: Position) { !Beyond(f, p) }

  lemma PageSplits(s: Snapshot, p: Position, until: nat, filter: Option<Kind>, limit: nat)
    requires limit > 0 && Sorted(s) && p != End
    ensures var page := PageAt(s, p, until, filter, limit);
      && Sorted(page.items) && (page.next != End ==> |page.items| == limit)
      && (forall f :: f in page.items ==> f in s && Admitted(f, until, filter) && Beyond(f, p) && Passed(f, page.next))
      && (forall f :: f in s && Admitted(f, until, filter) && Beyond(f, p) && Passed(f, page.next) ==> f in page.items)
      && (forall f: Fact :: Passed(f, p) ==> Passed(f, page.next))
  {
    var rows := Rows(s, p, until, filter);
    if |rows| > limit {
      var last := rows[limit - 1];
      assert last in rows;
      forall i | limit <= i < |rows| ensures Beyond(rows[i], Past(last.since, last.id)) {
        assert Less(rows[limit - 1], rows[i]);
      }
      forall f | f in rows && Passed(f, Past(last.since, last.id)) ensures f in rows[..limit] {
        var i :| 0 <= i < |rows| && rows[i] == f;
        assert rows[..limit][i] == f;
      }
      forall f | f in rows[..limit] ensures Passed(f, Past(last.since, last.id)) {
        var i :| 0 <= i < limit && rows[i] == f;
        if i < limit - 1 { assert Less(rows[i], last); }
      }
    }
  }

  lemma JoinSorted(a: seq<Fact>, b: seq<Fact>, p: Position)
    requires Sorted(a) && Sorted(b) && (forall f :: f in a ==> Passed(f, p)) && (forall f :: f in b ==> Beyond(f, p)) && p != End
    ensures Sorted(a + b)
  {
    forall i, j | 0 <= i < j < |a + b| ensures Less((a + b)[i], (a + b)[j]) {
      if i < |a| <= j { assert a[i] in a && b[j - |a|] in b; }
    }
  }

  /** The list stays in strict order, so nothing is visited twice; and a fact that is there at every page and
      satisfies filter and bound is visited exactly when the walk has passed its place: always, once it ends. */
  lemma {:induction false} WalkVisitsWhatPersists(looks: seq<Look>, until: nat, filter: Option<Kind>)
    requires Proper(looks)
    ensures var w := Walk(looks, until, filter);
      && Sorted(w.visited)
      && (forall f :: f in w.visited ==> Admitted(f, until, filter) && Passed(f, w.position))
      && (forall f :: Persists(f, looks) && Admitted(f, until, filter) ==>
            (f in w.visited <==> Passed(f, w.position)))
  {
    if looks != [] {
      var rest, look := looks[..|looks| - 1], looks[|looks| - 1];
      WalkVisitsWhatPersists(rest, until, filter);
      var before := Walk(rest, until, filter);
      forall f | Persists(f, looks) ensures Persists(f, rest) && f in look.facts {
        forall i | 0 <= i < |rest| ensures f in rest[i].facts { assert f in looks[i].facts; }
        assert f in looks[|looks| - 1].facts;
      }
      if before.position != End {
        PageSplits(look.facts, before.position, until, filter, look.limit);
        var page := PageAt(look.facts, before.position, until, filter, look.limit);
        JoinSorted(before.visited, page.items, before.position);
      }
    }
  }

  predicate Persists(f: Fact, looks: seq<Look>) {
    forall i :: 0 <= i < |looks| ==> f in looks[i].facts
  }

  /** The end of a walk. */
  lemma {:induction false} FinishedWalkIsComplete(looks: seq<Look>, until: nat, filter: Option<Kind>, f: Fact)
    requires Proper(looks) && looks != [] && Walk(looks, until, filter).position == End
    requires Persists(f, looks) && Admitted(f, until, filter)
    ensures multiset(Walk(looks, until, filter).visited)[f] == 1
  {
    WalkVisitsWhatPersists(looks, until, filter);
    SortedOnce(Walk(looks, until, filter).visited, f);
  }

  lemma {:induction false} SortedOnce(s: seq<Fact>, f: Fact)
    requires Sorted(s) && f in s
    ensures multiset(s)[f] == 1
  {
    var rest, last := s[..|s| - 1], s[|s| - 1];
    assert s == rest + [last];
    if f in rest {
      SortedOnce(rest, f);
      assert Less(f, last);
    }
  }

  /** Each page that is not the last is full, so a walk over facts that no longer change ends. */
  lemma {:induction false} WalkEnds(looks: seq<Look>, facts: Snapshot, until: nat, filter: Option<Kind>)
    requires Proper(looks) && forall i :: 0 <= i < |looks| ==> looks[i].facts == facts
    ensures var w := Walk(looks, until, filter); w.position != End ==> |w.visited| >= |looks|
    ensures forall f :: f in Walk(looks, until, filter).visited ==> f in facts
    ensures |looks| > |facts| ==> Walk(looks, until, filter).position == End
  {
    if looks != [] {
      var rest, look := looks[..|looks| - 1], looks[|looks| - 1];
      WalkEnds(rest, facts, until, filter);
      var before := Walk(rest, until, filter);
      if before.position != End { PageSplits(look.facts, before.position, until, filter, look.limit); }
    }
    WalkVisitsWhatPersists(looks, until, filter);
    SortedFits(Walk(looks, until, filter).visited, facts);
  }

  lemma {:induction false} SortedFits(s: seq<Fact>, all: seq<Fact>)
    requires Sorted(s) && forall f :: f in s ==> f in all
    ensures |s| <= |all|
  {
    if s != [] {
      var rest, last := s[..|s| - 1], s[|s| - 1];
      assert last in s;
      var k :| 0 <= k < |all| && all[k] == last;
      var fewer := all[..k] + all[k + 1..];
      forall f | f in rest ensures f in fewer {
        assert f in s && Less(f, last);
        var i :| 0 <= i < |all| && all[i] == f;
        assert fewer[if i < k then i else i - 1] == f;
      }
      SortedFits(rest, fewer);
    }
  }

  // ---- Counts ----

  lemma NoRows(until: nat)
    ensures forall filter :: Rows([], Start, until, filter) == []
  {}

  lemma OneMoreFact(s: Snapshot, i: nat, until: nat)
    requires i < |s|
    ensures forall filter :: |Rows(s[..i + 1], Start, until, filter)| ==
              |Rows(s[..i], Start, until, filter)| + if s[i].since <= until && (filter.None? || filter.value == s[i].kind) then 1 else 0
  {
    assert s[..i + 1][..i] == s[..i];
  }

  /** The counts of `page`: `filtered_total` is the number of items a walk over unchanged facts visits. */
  method Totals(s: Snapshot, until: nat, filter: Option<Kind>) returns (counts: map<Kind, nat>, total: nat, filtered: nat)
    ensures forall k: Kind :: k in counts && counts[k] == |Rows(s, Start, until, Some(k))|
    ensures total == |Rows(s, Start, until, None)| && filtered == |Rows(s, Start, until, filter)|
  {
    hide Rows;
    NoRows(until);
    counts := map[Question := 0, ReportDelivery := 0, StoppedWorker := 0, Acceptance := 0, RemoteConnection := 0];
    total := 0;
    var i := 0;
    forall k: Kind ensures k in counts && counts[k] == 0 {
      if k == Question || k == ReportDelivery || k == StoppedWorker || k == Acceptance {} else { assert k == RemoteConnection; }
    }
    assert s[..0] == [];
    while i < |s|
      invariant 0 <= i <= |s|
      invariant forall k: Kind :: k in counts && counts[k] == |Rows(s[..i], Start, until, Some(k))|
      invariant total == |Rows(s[..i], Start, until, None)|
    {
      OneMoreFact(s, i, until);
      if s[i].since <= until {
        counts := counts[s[i].kind := counts[s[i].kind] + 1];
        total := total + 1;
      }
      i := i + 1;
    }
    assert s[..i] == s;
    filtered := if filter.None? then total else counts[filter.value];
  }
}
