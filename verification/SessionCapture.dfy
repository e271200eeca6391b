/** Handing out native session ids to the waiters of one project (src/server/claude-session-coordinator.ts).

    Projects are independent of each other, so a state is that of one project. A waiter's filter is what
    both callers pass: it keeps the ids that satisfy a test, in the order of the listing. */
module SessionCapture {
  import opened Wrappers

  type SessionId = nat

  datatype Waiter = Waiter(number: nat, known: set<SessionId>)

  /** What one flush sees: the listing, or that it throws; for each waiter the test of its filter, or that the filter
      throws; and whether its `onCapture` succeeds. */
  datatype Look = Look(
    listing: seq<SessionId>, listingThrows: bool, allowed: (nat, SessionId) -> bool, filterThrows: nat -> bool,
    accepts: (nat, SessionId) -> bool
  )

  /** A successful capture, with the listing it was taken from. */
  datatype Claim = Claim(waiter: Waiter, id: SessionId, listing: seq<SessionId>)

  /** `claims` are the captures since the project was last idle; `next` numbers the waiters. */
  datatype World = World(poller: bool, claimed: Option<set<SessionId>>, waiters: seq<Waiter>, claims: seq<Claim>, next: nat)

  const IDLE := World(false, None, [], [], 0)

  // ---- One flush ----

  /** `stopped`: a filter has thrown, which ends the loop. */
  datatype Progress = Progress(
    available: seq<SessionId>, claimed: set<SessionId>, remaining: seq<Waiter>, claims: seq<Claim>, stopped: bool
  )

  /** A filter is called only with ids to choose from. */
  predicate Throws(p: Progress, w: Waiter, look: Look) {
    look.filterThrows(w.number) && exists id :: id in p.available && id !in w.known
  }

  predicate Eligible(w: Waiter, look: Look, id: SessionId) {
    id !in w.known && look.allowed(w.number, id)
  }

  /** The first id of `ids` that waiter `w` may take. */
  function First(w: Waiter, look: Look, ids: seq<SessionId>): (r: Option<nat>)
    ensures r.Some? ==> r.value < |ids| && Eligible(w, look, ids[r.value])
    ensures r.Some? ==> forall j :: 0 <= j < r.value ==> !Eligible(w, look, ids[j])
    ensures r.None? ==> forall j :: 0 <= j < |ids| ==> !Eligible(w, look, ids[j])
  {
    if ids == [] then None
    else
      var before := First(w, look, ids[..|ids| - 1]);
      if before.Some? then before else if Eligible(w, look, ids[|ids| - 1]) then Some(|ids| - 1) else None
  }

  function Unclaimed(listing: seq<SessionId>, claimed: set<SessionId>): (ids: seq<SessionId>)
    ensures forall id :: id in ids <==> id in listing && id !in claimed
    ensures Distinct(listing) ==> Distinct(ids)
  {
    if listing == [] then []
    else
      var rest, last := listing[..|listing| - 1], listing[|listing| - 1];
      assert listing == rest + [last];
      assert Distinct(listing) ==> last !in rest && Distinct(rest);
      if last in claimed then Unclaimed(rest, claimed) else Unclaimed(rest, claimed) + [last]
  }

  predicate Distinct(ids: seq<SessionId>) {
    forall i, j :: 0 <= i < j < |ids| ==> ids[i] != ids[j]
  }

  /** One waiter of the loop. A capture that throws drops the waiter and claims nothing. */
  function Serve(p: Progress, w: Waiter, look: Look): Progress {
    var found := First(w, look, p.available);
    if p.stopped || Throws(p, w, look) then p.(stopped := true)
    else if found.None? then p.(remaining := p.remaining + [w])
    else
      var id := p.available[found.value];
      if look.accepts(w.number, id)
      then Progress(p.available[..found.value] + p.available[found.value + 1..], p.claimed + {id}, p.remaining,
                    p.claims + [Claim(w, id, look.listing)], false)
      else p
  }

  function ServeAll(p: Progress, waiters: seq<Waiter>, look: Look): Progress {
    if waiters == [] then p else Serve(ServeAll(p, waiters[..|waiters| - 1], look), waiters[|waiters| - 1], look)
  }

  function Claimed(w: World): set<SessionId> { if w.claimed.Some? then w.claimed.value else {} }

  /** `clearPollerIfIdle`. */
  function ClearIfIdle(w: World): World {
    if w.waiters != [] then w else w.(poller := false, claimed := None, claims := [])
  }

  function Served(w: World, look: Look): Progress {
    ServeAll(Progress(Unclaimed(look.listing, Claimed(w)), Claimed(w), [], w.claims, false), w.waiters, look)
  }

  /** The flush throws: to the caller of a capture, out of the timer, or out of the abort listener. */
  predicate FlushThrows(w: World, look: Look) {
    w.waiters != [] && (look.listingThrows || Served(w, look).stopped)
  }

  /** What was captured in front of a throw stays captured, but nobody leaves the list. */
  function Flush(w: World, look: Look): World {
    if w.waiters == [] then ClearIfIdle(w)
    else if look.listingThrows then w.(claimed := Some(Claimed(w)))
    else
      var p := Served(w, look);
      var captured := w.(claimed := Some(p.claimed), claims := p.claims);
      if p.stopped then captured else ClearIfIdle(captured.(waiters := p.remaining))
  }

  // ---- All actions ----

  datatype Action = Capture(known: set<SessionId>, look: Look) | Tick(look: Look) | TimeOut(number: nat) | Abort(number: nat, look: Look)

  function Without(waiters: seq<Waiter>, number: nat): (r: seq<Waiter>)
    ensures forall x :: x in r <==> x in waiters && x.number != number
  {
    if waiters == [] then []
    else
      var rest, last := waiters[..|waiters| - 1], waiters[|waiters| - 1];
      assert waiters == rest + [last];
      if last.number == number then Without(rest, number) else Without(rest, number) + [last]
  }

  function Remove(w: World, number: nat): World {
    ClearIfIdle(w.(waiters := Without(w.waiters, number)))
  }

  function Joined(w: World, known: set<SessionId>): World {
    w.(waiters := w.waiters + [Waiter(w.next, known)], poller := true, next := w.next + 1)
  }

  /** The poller ticks only while it exists. */
  function After(w: World, a: Action): World {
    match a
    case Capture(known, look) => Flush(Joined(w, known), look)
    case Tick(look) => if w.poller then Flush(w, look) else w
    case TimeOut(number) => Remove(w, number)
    case Abort(number, look) => if FlushThrows(w, look) then Flush(w, look) else Remove(Flush(w, look), number)
  }

  function Run(actions: seq<Action>): World {
    if actions == [] then IDLE else After(Run(actions[..|actions| - 1]), actions[|actions| - 1])
  }

  // ---- The invariant ----

  predicate ClaimsDistinct(claims: seq<Claim>) {
    forall i, j :: 0 <= i < j < |claims| ==> claims[i].id != claims[j].id
  }

  predicate ClaimsSound(claims: seq<Claim>) {
    forall c :: c in claims ==> c.id in c.listing && c.id !in c.waiter.known
  }

  predicate ClaimsAre(claims: seq<Claim>, claimed: set<SessionId>) {
    (forall c :: c in claims ==> c.id in claimed) && (forall id :: id in claimed ==> ClaimedBy(claims, id))
  }

  predicate ClaimedBy(claims: seq<Claim>, id: SessionId) {
    exists i :: 0 <= i < |claims| && claims[i].id == id
  }

  predicate Ok(w: World) {
    && (w.poller <==> w.waiters != [])
    && (w.claimed.None? ==> w.claims == [])
    && (w.waiters == [] ==> w.claimed.None?)
    && ClaimsDistinct(w.claims) && ClaimsSound(w.claims) && ClaimsAre(w.claims, Claimed(w))
  }

  /** What holds during the loop over the waiters; `listing` has no duplicates. */
  ghost predicate Midway(p: Progress, look: Look) {
    && Distinct(p.available)
    && (forall id :: id in p.available <==> id in look.listing && id !in p.claimed)
    && ClaimsDistinct(p.claims) && ClaimsSound(p.claims) && ClaimsAre(p.claims, p.claimed)
    && (forall w :: w in p.remaining ==> Satisfied(w, look, p.claimed))
  }

  /** Every listed id that the waiter may take is claimed. */
  predicate Satisfied(w: Waiter, look: Look, claimed: set<SessionId>) {
    forall id :: id in look.listing && Eligible(w, look, id) ==> id in claimed
  }

  lemma TakeOut(ids: seq<SessionId>, k: nat)
    requires k < |ids| && Distinct(ids)
    ensures var r := ids[..k] + ids[k + 1..];
      Distinct(r) && forall id :: id in r <==> id in ids && id != ids[k]
  {
    var r := ids[..k] + ids[k + 1..];
    forall i | 0 <= i < |r| ensures r[i] == ids[if i < k then i else i + 1] {}
    forall id | id in ids && id != ids[k] ensures id in r {
      var i :| 0 <= i < |ids| && ids[i] == id;
      assert r[if i < k then i else i - 1] == id;
    }
  }

  lemma ClaimAdds(claims: seq<Claim>, claimed: set<SessionId>, c: Claim)
    requires ClaimsDistinct(claims) && ClaimsSound(claims) && ClaimsAre(claims, claimed)
    requires c.id !in claimed && c.id in c.listing && c.id !in c.waiter.known
    ensures ClaimsDistinct(claims + [c]) && ClaimsSound(claims + [c]) && ClaimsAre(claims + [c], claimed + {c.id})
  {
    var all := claims + [c];
    forall i | 0 <= i < |claims| ensures all[i].id != c.id { assert claims[i] in claims; }
    forall id | id in claimed + {c.id} ensures ClaimedBy(all, id) {
      if id == c.id { assert all[|claims|].id == id; }
      else {
        var i :| 0 <= i < |claims| && claims[i].id == id;
        assert all[i].id == id;
      }
    }
  }

  lemma ServeKeeps(p: Progress, w: Waiter, look: Look)
    requires Midway(p, look)
    ensures Midway(Serve(p, w, look), look)
  {
    var found := First(w, look, p.available);
    if p.stopped || Throws(p, w, look) {
    } else if found.Some? {
      var id := p.available[found.value];
      assert id in p.available;
      TakeOut(p.available, found.value);
      ClaimAdds(p.claims, p.claimed, Claim(w, id, look.listing));
      forall x | x in p.remaining ensures Satisfied(x, look, p.claimed + {id}) { assert Satisfied(x, look, p.claimed); }
    } else {
      forall id | id in look.listing && Eligible(w, look, id) ensures id in p.claimed {
        assert id in p.available || id in p.claimed;
      }
    }
  }

  lemma {:induction false} ServeAllKeeps(p: Progress, waiters: seq<Waiter>, look: Look)
    requires Midway(p, look)
    ensures Midway(ServeAll(p, waiters, look), look)
  {
    if waiters != [] {
      ServeAllKeeps(p, waiters[..|waiters| - 1], look);
      ServeKeeps(ServeAll(p, waiters[..|waiters| - 1], look), waiters[|waiters| - 1], look);
    }
  }

  /** Behind a throw the loop does nothing more. */
  lemma {:induction false} StoppedStays(p: Progress, waiters: seq<Waiter>, look: Look, n: nat)
    requires n <= |waiters| && ServeAll(p, waiters[..n], look).stopped
    ensures ServeAll(p, waiters, look) == ServeAll(p, waiters[..n], look)
  {
    if n < |waiters| {
      var front := waiters[..|waiters| - 1];
      assert front[..n] == waiters[..n];
      StoppedStays(p, front, look, n);
    } else {
      assert waiters[..n] == waiters;
    }
  }

  /** After a flush no waiter is left that could take a listed id nobody has claimed. */
  predicate NobodyCouldTake(w: World, look: Look) {
    forall x :: x in w.waiters ==> Satisfied(x, look, Claimed(w))
  }

  lemma FlushKeeps(w: World, look: Look)
    requires Ok(w.(poller := w.waiters != [])) && Distinct(look.listing) && w.poller == (w.waiters != [])
    ensures Ok(Flush(w, look)) && (FlushThrows(w, look) || NobodyCouldTake(Flush(w, look), look))
  {
    if w.waiters != [] {
      ServeAllKeeps(Progress(Unclaimed(look.listing, Claimed(w)), Claimed(w), [], w.claims, false), w.waiters, look);
    }
  }

  predicate NoDuplicates(a: Action) { !a.TimeOut? ==> Distinct(a.look.listing) }

  lemma RemoveKeeps(w: World, number: nat)
    requires Ok(w)
    ensures Ok(Remove(w, number))
  {
    if Without(w.waiters, number) != [] {
      assert Without(w.waiters, number)[0] in w.waiters;
    }
  }

  lemma AfterKeeps(w: World, a: Action)
    requires Ok(w) && NoDuplicates(a)
    ensures Ok(After(w, a))
  {
    match a
    case Capture(known, look) =>
      FlushKeeps(Joined(w, known), look);
    case Tick(look) => FlushKeeps(w, look);
    case TimeOut(number) => RemoveKeeps(w, number);
    case Abort(number, look) =>
      FlushKeeps(w, look);
      RemoveKeeps(Flush(w, look), number);
  }

  lemma {:induction false} RunKeeps(actions: seq<Action>)
    requires forall k :: 0 <= k < |actions| ==> NoDuplicates(actions[k])
    ensures Ok(Run(actions))
  {
    if actions != [] {
      RunKeeps(actions[..|actions| - 1]);
      AfterKeeps(Run(actions[..|actions| - 1]), actions[|actions| - 1]);
    }
  }

  // ---- Whole-run theorems ----

  /** Since the project was last idle no session id has been captured twice, every captured id had been listed
      and was unknown to its waiter, and the poller exists exactly while there are waiters. */
  lemma {:induction false} CapturesAreExclusive(actions: seq<Action>)
    requires forall k :: 0 <= k < |actions| ==> NoDuplicates(actions[k])
    ensures var w := Run(actions);
      && ClaimsDistinct(w.claims) && ClaimsSound(w.claims)
      && (w.poller <==> w.waiters != [])
      && (w.waiters == [] ==> w.claimed.None?)
  {
    RunKeeps(actions);
  }

  /** The list of waiters a flush works on. */
  function Flushed(w: World, a: Action): World { if a.Capture? then Joined(w, a.known) else w }

  predicate ActionThrows(w: World, a: Action) { !a.TimeOut? && FlushThrows(Flushed(w, a), a.look) }

  /** After any capture request, tick or abort that does not throw, no waiter is left waiting while an id it may take is
      listed and unclaimed. */
  lemma {:induction false} NobodyWaitsInVain(actions: seq<Action>, a: Action)
    requires (forall k :: 0 <= k < |actions| ==> NoDuplicates(actions[k])) && NoDuplicates(a) && !a.TimeOut?
    requires (a.Tick? ==> Run(actions).poller) && !ActionThrows(Run(actions), a)
    ensures NobodyCouldTake(After(Run(actions), a), a.look)
  {
    RunKeeps(actions);
    var w := Run(actions);
    if a.Capture? { FlushKeeps(Joined(w, a.known), a.look); }
    else {
      FlushKeeps(w, a.look);
      if a.Abort? {
        var v := Remove(Flush(w, a.look), a.number);
        forall x | x in v.waiters ensures Satisfied(x, a.look, Claimed(v)) {
          assert x in Flush(w, a.look).waiters;
        }
      }
    }
  }

  /** One that throws removes nobody: not the waiters it has served, nor the one that was aborted. */
  lemma ThrowingKeepsWaiters(w: World, a: Action)
    requires ActionThrows(w, a)
    ensures After(w, a).waiters == Flushed(w, a).waiters
  {}

  lemma {:induction false} ServeAllGoesOn(p: Progress, waiters: seq<Waiter>, look: Look)
    requires !p.stopped && forall w, id :: w in waiters && look.filterThrows(w.number) && id in p.available ==> id in w.known
    ensures !ServeAll(p, waiters, look).stopped && forall id :: id in ServeAll(p, waiters, look).available ==> id in p.available
  {
    if waiters != [] {
      var front, last := waiters[..|waiters| - 1], waiters[|waiters| - 1];
      assert front + [last] == waiters;
      ServeAllGoesOn(p, front, look);
      var before := ServeAll(p, front, look);
      assert !Throws(before, last, look);
      assert forall id :: id in Serve(before, last, look).available ==> id in before.available;
    }
  }

  /** A flush throws only if there is somebody to serve, and the listing throws or the filter of one who is offered an id
      that is new to it. */
  lemma ThrowsOnlyIf(w: World, look: Look)
    requires FlushThrows(w, look)
    ensures w.waiters != []
    ensures look.listingThrows
            || exists x, id :: x in w.waiters && look.filterThrows(x.number) && id in look.listing && id !in Claimed(w) && id !in x.known
  {
    var start := Progress(Unclaimed(look.listing, Claimed(w)), Claimed(w), [], w.claims, false);
    if forall x, id :: x in w.waiters && look.filterThrows(x.number) && id in start.available ==> id in x.known {
      ServeAllGoesOn(start, w.waiters, look);
    }
  }

  // ---- Who is served first ----

  /** In the order in which they asked. */
  predicate InOrder(waiters: seq<Waiter>) {
    forall i, j :: 0 <= i < j < |waiters| ==> waiters[i].number < waiters[j].number
  }

  /** The id was unknown to its waiter, passed its filter, and was taken by it. */
  predicate Rightful(c: Claim, look: Look) {
    c.id !in c.waiter.known && look.allowed(c.waiter.number, c.id) && look.accepts(c.waiter.number, c.id)
  }

  /** Since the first `base` claims nobody was passed over in favour of a later waiter, and nobody who is left could take
      what is left. */
  ghost predicate Fair(p: Progress, served: seq<Waiter>, base: nat, look: Look) {
    && base <= |p.claims| && InOrder(p.remaining) && (forall x :: x in p.remaining ==> x in served)
    && (forall x, id :: x in p.remaining && id in p.available ==> !Eligible(x, look, id))
    && (forall k, x :: base <= k < |p.claims| && x in p.remaining && x.number < p.claims[k].waiter.number ==> !Eligible(x, look, p.claims[k].id))
    && (forall k :: base <= k < |p.claims| ==> p.claims[k].waiter in served && Rightful(p.claims[k], look))
  }

  lemma ServeFair(p: Progress, served: seq<Waiter>, w: Waiter, base: nat, look: Look)
    requires Fair(p, served, base, look) && InOrder(served + [w])
    ensures Fair(Serve(p, w, look), served + [w], base, look)
  {
    forall x | x in served ensures x.number < w.number {
      var i :| 0 <= i < |served| && served[i] == x;
      assert (served + [w])[i] == x && (served + [w])[|served|] == w;
    }
    var v := Serve(p, w, look);
    forall x | x in v.remaining ensures x in served + [w] {}
    assert forall id :: id in v.available ==> id in p.available;
    hide First, Throws;
    assert p.remaining != v.remaining ==> v.remaining == p.remaining + [w];
  }

  lemma {:induction false} ServeAllFair(p: Progress, waiters: seq<Waiter>, look: Look)
    requires p.remaining == [] && InOrder(waiters)
    ensures Fair(ServeAll(p, waiters, look), waiters, |p.claims|, look)
  {
    if waiters != [] {
      var front, last := waiters[..|waiters| - 1], waiters[|waiters| - 1];
      ServeAllFair(p, front, look);
      assert front + [last] == waiters;
      ServeFair(ServeAll(p, front, look), front, last, |p.claims|, look);
    }
  }

  lemma {:induction false} WithoutInOrder(waiters: seq<Waiter>, number: nat)
    requires InOrder(waiters)
    ensures InOrder(Without(waiters, number))
  {
    if waiters != [] {
      var front, last := waiters[..|waiters| - 1], waiters[|waiters| - 1];
      WithoutInOrder(front, number);
      forall x | x in Without(front, number) ensures x.number < last.number {
        var i :| 0 <= i < |front| && front[i] == x;
        assert waiters[i] == x;
      }
    }
  }

  predicate Numbered(w: World) { InOrder(w.waiters) && forall x :: x in w.waiters ==> x.number < w.next }

  lemma FlushNumbered(w: World, look: Look)
    requires Numbered(w)
    ensures Numbered(Flush(w, look))
  {
    ServeAllFair(Progress(Unclaimed(look.listing, Claimed(w)), Claimed(w), [], w.claims, false), w.waiters, look);
    hide ServeAll;
  }

  lemma {:induction false} RunNumbered(actions: seq<Action>)
    ensures Numbered(Run(actions))
  {
    if actions != [] {
      var w, a := Run(actions[..|actions| - 1]), actions[|actions| - 1];
      RunNumbered(actions[..|actions| - 1]);
      hide Flush;
      match a
      case Capture(known, look) => FlushNumbered(Joined(w, known), look);
      case Tick(look) => FlushNumbered(w, look);
      case TimeOut(number) => WithoutInOrder(w.waiters, number);
      case Abort(number, look) =>
        FlushNumbered(w, look);
        WithoutInOrder(Flush(w, look).waiters, number);
    }
  }

  /** In every run the waiters stand in the order in which they asked, and a flush gives no id to a later one that an earlier
      one who is left waiting could have taken. */
  lemma {:induction false} EarlierFirst(actions: seq<Action>, look: Look)
    requires !FlushThrows(Run(actions), look)
    ensures var w, v := Run(actions), Flush(Run(actions), look);
      && InOrder(w.waiters) && InOrder(v.waiters)
      && (v.waiters != [] ==>
            && |w.claims| <= |v.claims| && (forall k :: |w.claims| <= k < |v.claims| ==> Rightful(v.claims[k], look))
            && forall k, x :: |w.claims| <= k < |v.claims| && x in v.waiters && x.number < v.claims[k].waiter.number ==>
                 !Eligible(x, look, v.claims[k].id))
  {
    RunNumbered(actions);
    var w := Run(actions);
    FlushNumbered(w, look);
    ServeAllFair(Progress(Unclaimed(look.listing, Claimed(w)), Claimed(w), [], w.claims, false), w.waiters, look);
    hide ServeAll, Run;
  }

  lemma TakeFirst(p: Progress, w: Waiter, look: Look, id: SessionId, rest: seq<SessionId>)
    requires p.available == [id] + rest && Eligible(w, look, id) && look.accepts(w.number, id) && !look.filterThrows(w.number) && !p.stopped
    ensures Serve(p, w, look) == Progress(rest, p.claimed + {id}, p.remaining, p.claims + [Claim(w, id, look.listing)], false)
  {
    assert p.available[0] == id;
    assert First(w, look, p.available) == Some(0);
    assert p.available[..0] + p.available[1..] == rest;
  }

  lemma UnclaimedPair(id: SessionId)
    ensures Unclaimed([id, id], {}) == [id, id]
  {
    assert [id, id][..1] == [id] && [id][..0] == [];
    assert Unclaimed([id], {}) == [] + [id];
  }

  lemma ServePair(p: Progress, a: Waiter, b: Waiter, look: Look)
    ensures ServeAll(p, [a, b], look) == Serve(Serve(p, a, look), b, look)
  {
    assert [a, b][..1] == [a] && [a][..0] == [];
    assert ServeAll(p, [a], look) == Serve(p, a, look);
  }

  lemma BothTake(p: Progress, id: SessionId, a: Waiter, b: Waiter, look: Look)
    requires p.available == [id] + [id] && !p.stopped && Eligible(a, look, id) && Eligible(b, look, id) && look.accepts(a.number, id) && look.accepts(b.number, id)
    requires !look.filterThrows(a.number) && !look.filterThrows(b.number)
    ensures Serve(Serve(p, a, look), b, look).claims == p.claims + [Claim(a, id, look.listing)] + [Claim(b, id, look.listing)]
  {
    TakeFirst(p, a, look, id, [id]);
    TakeFirst(Serve(p, a, look), b, look, id, []);
  }

  /** The listing must not repeat an id: `splice` takes one copy away, and the next waiter captures the other. */
  lemma RepeatedListingCapturesTwice(id: SessionId, a: Waiter, b: Waiter, look: Look)
    requires look.listing == [id, id] && Eligible(a, look, id) && Eligible(b, look, id) && look.accepts(a.number, id) && look.accepts(b.number, id)
    requires !look.filterThrows(a.number) && !look.filterThrows(b.number)
    ensures ServeAll(Progress(Unclaimed([id, id], {}), {}, [], [], false), [a, b], look).claims == [Claim(a, id, look.listing), Claim(b, id, look.listing)]
  {
    hide ServeAll, Unclaimed, Serve, First, Distinct;
    var start := Progress([id, id], {}, [], [], false);
    BothTake(start, id, a, b, look);
    ServePair(start, a, b, look);
    UnclaimedPair(id);
  }

  const PAIR := Look([1, 2], false, (n, id) => true, n => n == 1, (n, id) => true)
  const FIRST := Waiter(0, {})
  const SECOND := Waiter(1, {})

  lemma StoppedFlush(w: World)
    requires w.waiters == [FIRST, SECOND] && Claimed(w) == {} && w.claims == []
    ensures Flush(w, PAIR) == w.(claimed := Some({1}), claims := [Claim(FIRST, 1, [1, 2])])
  {
    hide ServeAll, Unclaimed, First, Serve;
    UnclaimedTwo({});
    var start := Progress([1] + [2], {}, [], [], false);
    assert [1] + [2] == [1, 2];
    TakeFirst(start, FIRST, PAIR, 1, [2]);
    ServePair(start, FIRST, SECOND, PAIR);
    var p := Progress([2], {1}, [], [Claim(FIRST, 1, [1, 2])], false);
    assert Serve(start, FIRST, PAIR) == p;
    StopsHere(p, 2);
    assert Served(w, PAIR) == p.(stopped := true);
  }

  lemma StopsHere(p: Progress, id: SessionId)
    requires p.available == [id]
    ensures Serve(p, SECOND, PAIR) == p.(stopped := true)
  {
    assert id in p.available;
  }

  lemma NextFlush(w: World)
    requires w.waiters == [FIRST, SECOND] && Claimed(w) == {1} && w.claims == [Claim(FIRST, 1, [1, 2])]
    ensures Flush(w, PAIR).claims == [Claim(FIRST, 1, [1, 2]), Claim(FIRST, 2, [1, 2])]
  {
    hide ServeAll, Unclaimed, First;
    UnclaimedTwo({1});
    var start := Progress([2] + [], {1}, [], w.claims, false);
    assert [2] + [] == [2];
    TakeFirst(start, FIRST, PAIR, 2, []);
    ServePair(start, FIRST, SECOND, PAIR);
    var p := Serve(start, FIRST, PAIR);
    assert p.available == [] && p.claims == [Claim(FIRST, 1, [1, 2]), Claim(FIRST, 2, [1, 2])];
    assert First(SECOND, PAIR, []).None?;
  }

  lemma UnclaimedTwo(claimed: set<SessionId>)
    requires 2 !in claimed
    ensures Unclaimed([1, 2], claimed) == if 1 in claimed then [2] else [1, 2]
  {
    assert [1, 2][..1] == [1] && [1][..0] == [];
    assert Unclaimed([1], claimed) == if 1 in claimed then [] else [] + [1];
  }

  /** So a waiter served in front of a throw is served again, with another id, by a later flush. */
  lemma ServedTwiceExample()
    ensures Run([Capture({}, PAIR.(listing := []))] + [Capture({}, PAIR)] + [Tick(PAIR)]).claims
         == [Claim(FIRST, 1, [1, 2]), Claim(FIRST, 2, [1, 2])]
  {
    hide Flush, Run;
    var one := Capture({}, PAIR.(listing := []));
    RunNext([], one);
    RunNext([one], Capture({}, PAIR));
    RunNext([one] + [Capture({}, PAIR)], Tick(PAIR));
    assert [] + [one] == [one];
    NothingListed();
    var w := Joined(Run([one]), {});
    assert w.waiters == [FIRST, SECOND];
    StoppedFlush(w);
    NextFlush(Flush(w, PAIR));
  }

  lemma RunNext(actions: seq<Action>, a: Action)
    ensures Run(actions + [a]) == After(Run(actions), a)
  {
    assert (actions + [a])[..|actions|] == actions;
  }

  lemma NothingListed()
    ensures After(Run([]), Capture({}, PAIR.(listing := []))) == World(true, Some({}), [FIRST], [], 1)
  {
    var look := PAIR.(listing := []);
    var w := Joined(IDLE, {});
    assert w.waiters == [FIRST];
    NothingTaken(look);
    hide ServeAll;
    assert Flush(w, look) == w.(claimed := Some({}));
  }

  lemma NothingTaken(look: Look)
    ensures var start := Progress([], {}, [], [], false); ServeAll(start, [FIRST], look) == start.(remaining := [FIRST])
  {
    var start := Progress([], {}, [], [], false);
    assert [] + [FIRST] == [FIRST] && [FIRST][..0] == [];
    assert ServeAll(start, [FIRST][..0], look) == start;
  }

  // ---- The code ----

  class Coordinator {
    var claimedByProjectKey: map<nat, set<SessionId>>
    var pollersByProjectKey: set<nat>
    var waitersByProjectKey: map<nat, seq<Waiter>>
    ghost var claims: map<nat, seq<Claim>>
    var next: nat

    function WaitersOf(key: nat): seq<Waiter>
      reads this
    {
      if key in waitersByProjectKey then waitersByProjectKey[key] else []
    }

    ghost function ClaimsOf(key: nat): seq<Claim>
      reads this
    {
      if key in claims then claims[key] else []
    }

    ghost function Value(key: nat): World
      reads this
    {
      World(key in pollersByProjectKey, if key in claimedByProjectKey then Some(claimedByProjectKey[key]) else None,
            WaitersOf(key), ClaimsOf(key), next)
    }

    method ClearPollerIfIdle(key: nat)
      modifies this
      ensures Value(key) == ClearIfIdle(old(Value(key)))
      ensures forall k :: k != key ==> Value(k) == old(Value(k))
    {
      if |WaitersOf(key)| > 0 { return; }
      pollersByProjectKey := pollersByProjectKey - {key};
      claimedByProjectKey := claimedByProjectKey - {key};
      claims := claims - {key};
    }

    method FlushWaiters(key: nat, look: Look) returns (threw: bool)
      modifies this
      ensures Value(key) == Flush(old(Value(key)), look) && threw == FlushThrows(old(Value(key)), look)
      ensures forall k :: k != key ==> Value(k) == old(Value(k))
    {
      hide ServeAll, Unclaimed;
      var waiters := WaitersOf(key);
      if waiters == [] {
        ClearPollerIfIdle(key);
        return false;
      }
      var claimed := if key in claimedByProjectKey then claimedByProjectKey[key] else {};
      StoreClaims(key, claimed, ClaimsOf(key));
      if look.listingThrows {
        return true;
      }
      var available := Unclaimed(look.listing, claimed);
      ghost var captured;
      var remaining;
      claimed, remaining, captured, threw := ServeWaiters(waiters, available, claimed, ClaimsOf(key), look);
      StoreClaims(key, claimed, captured);
      if !threw {
        StoreWaiters(key, remaining);
        ClearPollerIfIdle(key);
      }
    }

    method StoreWaiters(key: nat, waiters: seq<Waiter>)
      modifies this
      ensures Value(key) == old(Value(key)).(waiters := waiters)
      ensures forall k :: k != key ==> Value(k) == old(Value(k))
    {
      waitersByProjectKey := waitersByProjectKey[key := waiters];
    }

    /** The set of the project is updated in place while the loop runs. */
    method StoreClaims(key: nat, claimed: set<SessionId>, ghost captured: seq<Claim>)
      modifies this
      ensures Value(key) == old(Value(key)).(claimed := Some(claimed), claims := captured)
      ensures forall k :: k != key ==> Value(k) == old(Value(k))
    {
      claimedByProjectKey := claimedByProjectKey[key := claimed];
      claims := claims[key := captured];
    }

    /** The loop of `flushWaiters`. */
    static method ServeWaiters(waiters: seq<Waiter>, ids: seq<SessionId>, taken: set<SessionId>, ghost before: seq<Claim>, look: Look)
      returns (claimed: set<SessionId>, remaining: seq<Waiter>, ghost captured: seq<Claim>, threw: bool)
      ensures var p := ServeAll(Progress(ids, taken, [], before, false), waiters, look);
        claimed == p.claimed && threw == p.stopped && captured == p.claims && (threw || remaining == p.remaining)
    {
      var available, i := ids, 0;
      claimed, remaining, captured, threw := taken, [], before, false;
      ghost var start := Progress(ids, taken, [], before, false);
      while i < |waiters|
        invariant 0 <= i <= |waiters|
        invariant ServeAll(start, waiters[..i], look) == Progress(available, claimed, remaining, captured, false)
      {
        assert waiters[..i + 1][..i] == waiters[..i];
        var waiter := waiters[i];
        if look.filterThrows(waiter.number) && exists id :: id in available && id !in waiter.known {
          StoppedStays(start, waiters, look, i + 1);
          return claimed, remaining, captured, true;
        }
        var found := First(waiter, look, available);
        if found.None? {
          remaining := remaining + [waiter];
        } else {
          var id := available[found.value];
          if look.accepts(waiter.number, id) {
            claimed := claimed + {id};
            available := available[..found.value] + available[found.value + 1..];
            captured := captured + [Claim(waiter, id, look.listing)];
          }
        }
        i := i + 1;
      }
      assert waiters[..i] == waiters;
    }

    method RemoveWaiter(key: nat, number: nat)
      modifies this
      ensures Value(key) == Remove(old(Value(key)), number)
      ensures forall k :: k != key ==> Value(k) == old(Value(k))
    {
      waitersByProjectKey := waitersByProjectKey[key := Without(WaitersOf(key), number)];
      ClearPollerIfIdle(key);
    }

    method AddWaiter(key: nat, known: set<SessionId>)
      modifies this
      ensures Value(key) == Joined(old(Value(key)), known)
      ensures forall k :: k != key ==> Value(k) == old(Value(k)).(next := old(next) + 1)
    {
      waitersByProjectKey := waitersByProjectKey[key := WaitersOf(key) + [Waiter(next, known)]];
      next := next + 1;
      if key !in pollersByProjectKey { pollersByProjectKey := pollersByProjectKey + {key}; }
    }

    /** `captureSessionIdWithCoordinator` up to its first flush. */
    method CaptureSessionId(key: nat, known: set<SessionId>, look: Look) returns (threw: bool)
      modifies this
      ensures Value(key) == After(old(Value(key)), Capture(known, look))
      ensures forall k :: k != key ==> Value(k) == old(Value(k)).(next := old(next) + 1)
    {
      hide Flush, Joined;
      AddWaiter(key, known);
      threw := FlushWaiters(key, look);
    }

    method AbortWaiter(key: nat, number: nat, look: Look) returns (threw: bool)
      modifies this
      ensures Value(key) == After(old(Value(key)), Abort(number, look))
      ensures forall k :: k != key ==> Value(k) == old(Value(k))
    {
      threw := FlushWaiters(key, look);
      if !threw {
        RemoveWaiter(key, number);
      }
    }
  }
}
