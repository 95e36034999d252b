/** The wallet cooldown. The SQL form takes the latest claim by stored text, the in-memory form
    the latest by time; serial runs keep claims far enough apart for the two to agree. */
module Cooldown {
  import opened Domain
  import opened Text
  import opened TimeText
  import opened StoreSpec

  /** An empty token id stands for any token. */
  predicate Same(c: Claim, address: string, tokenId: string) {
    c.address == address && (tokenId == "" || c.tokenId == tokenId)
  }

  /** SELECT ... WHERE address AND token_id ORDER BY created_at DESC LIMIT 1: any row it may return. */
  predicate IsLastByText(rows: seq<Claim>, address: string, tokenId: string, i: nat) {
    && i < |rows| && Same(rows[i], address, tokenId)
    && forall j :: 0 <= j < |rows| && Same(rows[j], address, tokenId) ==> CreatedNotAfter(rows[j], rows[i])
  }

  predicate Unknown(rows: seq<Claim>, address: string, tokenId: string) {
    forall j :: 0 <= j < |rows| ==> !Same(rows[j], address, tokenId)
  }

  /** Whole seconds left until `last + cooldown`, rounded up. */
  function Remaining(last: nat, cooldown: int, now: nat): nat {
    var left := last + cooldown * SECOND - now;
    if left <= 0 then 0 else (left + SECOND - 1) / SECOND
  }

  /** The cooldown check of one call, given the row its query returned (None when there is none). */
  function Check(rows: seq<Claim>, cooldown: int, last: Option<nat>, now: nat): nat
    requires last.Some? ==> last.value < |rows|
  {
    if cooldown <= 0 || last.None? then 0 else Remaining(rows[last.value].createdAt, cooldown, now)
  }

  // ---- The in-memory form ----

  predicate IsLatest(rows: seq<Claim>, address: string, tokenId: string, i: nat) {
    && i < |rows| && Same(rows[i], address, tokenId)
    && forall j :: 0 <= j < |rows| && Same(rows[j], address, tokenId) ==> rows[j].createdAt <= rows[i].createdAt
  }

  method InMemoryCooldown(rows: seq<Claim>, cooldown: int, address: string, tokenId: string, now: nat)
    returns (remaining: nat)
    ensures cooldown <= 0 || Unknown(rows, address, tokenId) ==> remaining == 0
    ensures cooldown > 0 && !Unknown(rows, address, tokenId) ==>
              exists i :: IsLatest(rows, address, tokenId, i) && remaining == Check(rows, cooldown, Some(i), now)
  {
    if cooldown <= 0 {
      return 0;
    }
    var best: Option<nat> := None;
    for i := 0 to |rows|
      invariant best.None? <==> Unknown(rows[..i], address, tokenId)
      invariant best.Some? ==> IsLatest(rows[..i], address, tokenId, best.value)
    {
      assert forall j :: 0 <= j < i ==> rows[..i + 1][j] == rows[..i][j];
      if Same(rows[i], address, tokenId) && (best.None? || rows[i].createdAt > rows[best.value].createdAt) {
        best := Some(i);
      }
      assert rows[..i + 1][i] == rows[i];
    }
    assert rows[..|rows|] == rows;
    remaining := if best.None? then 0 else Remaining(rows[best.value].createdAt, cooldown, now);
    assert best.Some? ==> remaining == Check(rows, cooldown, Some(best.value), now);
  }

  /** Claims of one address and token are at least the cooldown apart. */
  predicate Spaced(rows: seq<Claim>, cooldown: int) {
    forall i, j :: 0 <= i < j < |rows| && Same(rows[i], rows[j].address, rows[j].tokenId) ==>
      rows[i].createdAt + cooldown * SECOND <= rows[j].createdAt
  }

  /** On a spaced table the latest claim by stored text is the latest claim. */
  lemma LastByTextIsLatest(rows: seq<Claim>, cooldown: int, address: string, tokenId: string, i: nat)
    requires cooldown >= 1 && Spaced(rows, cooldown) && DatesInRange(rows) && tokenId != ""
    requires IsLastByText(rows, address, tokenId, i)
    ensures IsLatest(rows, address, tokenId, i)
  {
    hide StampedNotAfter;
    forall j | 0 <= j < |rows| && Same(rows[j], address, tokenId)
      ensures rows[j].createdAt <= rows[i].createdAt
    {
      SpacedNotAfter(rows[i], rows[j]);
      assert Same(rows[i], rows[j].address, rows[j].tokenId);
    }
  }

  lemma SpacedNotAfter(a: Claim, b: Claim)
    requires InRange(b.createdAt)
    ensures a.createdAt + SECOND <= b.createdAt ==> !CreatedNotAfter(b, a)
  {
    if a.createdAt + SECOND <= b.createdAt {
      TextOrderOfSpaced(a.createdAt, b.createdAt);
    }
  }

  lemma RemainingZero(last: nat, cooldown: int, now: nat)
    ensures Remaining(last, cooldown, now) == 0 <==> last + cooldown * SECOND <= now
  {
    RemainingLeast(last, cooldown, now);
  }

  /** What is reported is the least number of whole seconds after which the cooldown is over. */
  lemma RemainingLeast(last: nat, cooldown: int, now: nat)
    ensures var n := Remaining(last, cooldown, now);
            && last + cooldown * SECOND <= now + n * SECOND
            && (n > 0 ==> now + (n - 1) * SECOND < last + cooldown * SECOND)
  {
    var left := last + cooldown * SECOND - now;
    if left > 0 {
      var n := (left + SECOND - 1) / SECOND;
      assert n * SECOND <= left + SECOND - 1 < n * SECOND + SECOND;
    }
  }

  // ---- Interleaved calls ----

  /** What a call does around its cooldown: it checks, and later inserts its claim. */
  datatype Event = Checks(call: nat) | Inserts(call: nat)

  /** Call k checks at position c and inserts later, at position i. */
  predicate Spans(order: seq<Event>, k: nat, c: nat, i: nat) {
    c < i < |order| && order[c] == Checks(k) && order[i] == Inserts(k)
  }

  /** What a schedule does not fix: when each event happens, the CreatedAt that each insert writes,
      which row each query returns, and which calls every other check lets through. */
  datatype World = World(clock: seq<nat>, created: seq<nat>, answers: seq<Option<nat>>, admitted: set<nat>)

  predicate Fits(order: seq<Event>, w: World) {
    |w.clock| == |w.created| == |w.answers| == |order|
  }

  /** The clock does not run back, and a call reads its CreatedAt between its check and its insert. */
  ghost predicate Possible(order: seq<Event>, w: World) {
    && Fits(order, w)
    && (forall k: nat, c: nat, i: nat :: Spans(order, k, c, i) ==> w.clock[c] <= w.created[i] <= w.clock[i])
    && (forall i :: 0 <= i < |order| ==> InRange(w.clock[i]))
    && (forall i, j :: 0 <= i < j < |order| ==> w.clock[i] <= w.clock[j])
  }

  /** The query answered with a row it may return. */
  predicate Answered(rows: seq<Claim>, c: Claim, last: Option<nat>) {
    match last
    case None => Unknown(rows, c.address, c.tokenId)
    case Some(i) => IsLastByText(rows, c.address, c.tokenId, i)
  }

  /** The stored claims, and the calls that passed their check and have not inserted yet. */
  datatype Progress = Progress(rows: seq<Claim>, passed: set<nat>)

  predicate Passes(claims: seq<Claim>, cooldown: int, rows: seq<Claim>, k: nat, at: nat, last: Option<nat>) {
    k < |claims| && Answered(rows, claims[k], last) && Check(rows, cooldown, last, at) == 0
  }

  function Happen(claims: seq<Claim>, cooldown: int, p: Progress, e: Event, at: nat, created: nat, last: Option<nat>,
                  admitted: set<nat>): Progress
  {
    match e
    case Checks(k) => if k in admitted && Passes(claims, cooldown, p.rows, k, at, last) then p.(passed := p.passed + {k}) else p
    case Inserts(k) =>
      if k in p.passed && k < |claims| then Progress(p.rows + [claims[k].(createdAt := created)], p.passed - {k}) else p
  }

  /** The state after the first n events. */
  function After(claims: seq<Claim>, cooldown: int, order: seq<Event>, w: World, n: nat): Progress
    requires Fits(order, w) && n <= |order|
  {
    if n == 0 then Progress([], {})
    else Happen(claims, cooldown, After(claims, cooldown, order, w, n - 1), order[n - 1],
                w.clock[n - 1], w.created[n - 1], w.answers[n - 1], w.admitted)
  }

  function Stored(claims: seq<Claim>, cooldown: int, order: seq<Event>, w: World): seq<Claim>
    requires Fits(order, w)
  {
    After(claims, cooldown, order, w, |order|).rows
  }

  /** Each call checks and inserts at most once, and every claim names its token. */
  predicate WellFormed(claims: seq<Claim>, order: seq<Event>) {
    && (forall i, j :: 0 <= i < j < |order| ==> order[i] != order[j])
    && (forall k :: 0 <= k < |claims| ==> claims[k].tokenId != "")
  }

  predicate SameWallet(claims: seq<Claim>, j: nat, k: nat) {
    j < |claims| && k < |claims| && claims[j].address == claims[k].address && claims[j].tokenId == claims[k].tokenId
  }

  predicate OverlapAt(claims: seq<Claim>, order: seq<Event>, j: nat, cj: nat, ij: nat, k: nat, ck: nat, ik: nat) {
    j != k && SameWallet(claims, j, k) && Spans(order, j, cj, ij) && Spans(order, k, ck, ik) && cj < ik && ck < ij
  }

  /** Two calls of one wallet both check before either of them inserts. */
  ghost predicate Overlap(claims: seq<Claim>, order: seq<Event>) {
    exists j, cj, ij, k, ck, ik :: OverlapAt(claims, order, j, cj, ij, k, ck, ik)
  }

  // ---- Without overlap claims stay apart ----

  /** Every stored claim of call k's wallet lies a cooldown before `at`. */
  predicate Clear(claims: seq<Claim>, cooldown: int, rows: seq<Claim>, k: nat, at: nat)
    requires k < |claims|
  {
    forall r :: 0 <= r < |rows| && Same(rows[r], claims[k].address, claims[k].tokenId) ==>
      rows[r].createdAt + cooldown * SECOND <= at
  }

  predicate CheckedBefore(order: seq<Event>, k: nat, n: nat) {
    exists c :: 0 <= c < n && c < |order| && order[c] == Checks(k)
  }

  /** Whoever has passed and will insert finds its wallet clear by then. */
  ghost predicate Apart(claims: seq<Claim>, cooldown: int, order: seq<Event>, w: World, n: nat, p: Progress)
    requires Possible(order, w) && n <= |order|
  {
    && Spaced(p.rows, cooldown) && DatesInRange(p.rows)
    && (forall k :: k in p.passed ==> k < |claims| && CheckedBefore(order, k, n))
    && (forall k, i :: k in p.passed && k < |claims| && n <= i < |order| && order[i] == Inserts(k) ==>
          Clear(claims, cooldown, p.rows, k, w.created[i]))
  }

  lemma PassedIsClear(claims: seq<Claim>, cooldown: int, rows: seq<Claim>, k: nat, at: nat, last: Option<nat>)
    requires cooldown >= 1 && Spaced(rows, cooldown) && DatesInRange(rows)
    requires k < |claims| && claims[k].tokenId != "" && Passes(claims, cooldown, rows, k, at, last)
    ensures Clear(claims, cooldown, rows, k, at)
  {
    hide StampedNotAfter;
    if last.Some? {
      LastByTextIsLatest(rows, cooldown, claims[k].address, claims[k].tokenId, last.value);
      RemainingZero(rows[last.value].createdAt, cooldown, at);
    }
  }

  lemma CheckKeepsApart(claims: seq<Claim>, cooldown: int, order: seq<Event>, w: World, n: nat, p: Progress)
    requires cooldown >= 1 && WellFormed(claims, order) && Possible(order, w) && n < |order|
    requires Apart(claims, cooldown, order, w, n, p) && order[n].Checks?
    ensures Apart(claims, cooldown, order, w, n + 1,
                  Happen(claims, cooldown, p, order[n], w.clock[n], w.created[n], w.answers[n], w.admitted))
  {
    hide Passes, Spaced, DatesInRange;
    var k := order[n].call;
    if k in w.admitted && Passes(claims, cooldown, p.rows, k, w.clock[n], w.answers[n]) {
      InCalls(claims, cooldown, p.rows, k, w.clock[n], w.answers[n]);
      PassedIsClear(claims, cooldown, p.rows, k, w.clock[n], w.answers[n]);
      assert forall i :: n < i < |order| && order[i] == Inserts(k) ==> Spans(order, k, n, i);
    }
    assert forall x :: CheckedBefore(order, x, n) ==> CheckedBefore(order, x, n + 1);
    assert CheckedBefore(order, k, n + 1);
  }

  lemma InCalls(claims: seq<Claim>, cooldown: int, rows: seq<Claim>, k: nat, at: nat, last: Option<nat>)
    requires Passes(claims, cooldown, rows, k, at, last)
    ensures k < |claims|
  {
  }

  lemma InsertKeepsApart(claims: seq<Claim>, cooldown: int, order: seq<Event>, w: World, n: nat, p: Progress)
    requires cooldown >= 1 && WellFormed(claims, order) && Possible(order, w) && n < |order| && !Overlap(claims, order)
    requires Apart(claims, cooldown, order, w, n, p) && order[n].Inserts?
    ensures Apart(claims, cooldown, order, w, n + 1,
                  Happen(claims, cooldown, p, order[n], w.clock[n], w.created[n], w.answers[n], w.admitted))
  {
    hide Overlap;
    var j := order[n].call;
    var p' := Happen(claims, cooldown, p, order[n], w.clock[n], w.created[n], w.answers[n], w.admitted);
    assert forall x :: CheckedBefore(order, x, n) ==> CheckedBefore(order, x, n + 1);
    if j in p.passed {
      assert Clear(claims, cooldown, p.rows, j, w.created[n]);
      var c :| 0 <= c < n && order[c] == Checks(j);
      assert Spans(order, j, c, n);
      forall k, i | k in p'.passed && n < i < |order| && order[i] == Inserts(k)
        ensures Clear(claims, cooldown, p'.rows, k, w.created[i])
      {
        assert Clear(claims, cooldown, p.rows, k, w.created[i]);
        NoOverlapHere(claims, order, j, k, n, i);
      }
    }
  }

  lemma NoOverlapHere(claims: seq<Claim>, order: seq<Event>, j: nat, k: nat, n: nat, i: nat)
    requires !Overlap(claims, order) && n < i < |order| && order[n] == Inserts(j) && order[i] == Inserts(k) && j != k
    requires CheckedBefore(order, j, n) && CheckedBefore(order, k, n)
    ensures !SameWallet(claims, j, k)
  {
    var cj :| 0 <= cj < n && order[cj] == Checks(j);
    var ck :| 0 <= ck < n && order[ck] == Checks(k);
    assert SameWallet(claims, j, k) ==> OverlapAt(claims, order, j, cj, n, k, ck, i);
  }

  lemma {:induction false} StaysApart(claims: seq<Claim>, cooldown: int, order: seq<Event>, w: World, n: nat)
    requires cooldown >= 1 && WellFormed(claims, order) && Possible(order, w) && n <= |order| && !Overlap(claims, order)
    ensures Apart(claims, cooldown, order, w, n, After(claims, cooldown, order, w, n))
  {
    hide Overlap, Happen;
    if n > 0 {
      StaysApart(claims, cooldown, order, w, n - 1);
      var p := After(claims, cooldown, order, w, n - 1);
      if order[n - 1].Checks? {
        CheckKeepsApart(claims, cooldown, order, w, n - 1, p);
      } else {
        InsertKeepsApart(claims, cooldown, order, w, n - 1, p);
      }
    }
  }

  // ---- With overlap they need not ----

  /** Everything happens at one moment, and only these two calls are let through. */
  function AtOnce(order: seq<Event>, j: nat, k: nat): World {
    World(seq(|order|, _ => 0), seq(|order|, _ => 0), seq(|order|, _ => None), {j, k})
  }

  lemma AtOncePossible(order: seq<Event>, j: nat, k: nat)
    ensures Possible(order, AtOnce(order, j, k))
  {
  }

  /** How far the two calls are after n events, j inserting first. */
  predicate Both(claims: seq<Claim>, p: Progress, n: nat, j: nat, cj: nat, ij: nat, k: nat, ck: nat, ik: nat)
    requires j < |claims| && k < |claims|
  {
    var a, b := claims[j].(createdAt := 0), claims[k].(createdAt := 0);
    && p.passed <= {j, k}
    && p.rows == (if n <= ij then [] else if n <= ik then [a] else [a, b])
    && (cj < n <= ij ==> j in p.passed) && (ij < n ==> j !in p.passed)
    && (ck < n <= ik ==> k in p.passed) && (ik < n ==> k !in p.passed)
  }

  lemma {:induction false} BothGetThrough(claims: seq<Claim>, cooldown: int, order: seq<Event>, n: nat,
                                          j: nat, cj: nat, ij: nat, k: nat, ck: nat, ik: nat)
    requires WellFormed(claims, order) && OverlapAt(claims, order, j, cj, ij, k, ck, ik) && ij < ik && n <= |order|
    ensures var w := AtOnce(order, j, k);
            Both(claims, After(claims, cooldown, order, w, n), n, j, cj, ij, k, ck, ik)
  {
    hide After, Happen, WellFormed;
    AtOnceStep(claims, cooldown, order, n, j, k);
    if n > 0 {
      BothGetThrough(claims, cooldown, order, n - 1, j, cj, ij, k, ck, ik);
      BothStep(claims, cooldown, order, n - 1, After(claims, cooldown, order, AtOnce(order, j, k), n - 1), j, cj, ij, k, ck, ik);
    }
  }

  lemma AtOnceStep(claims: seq<Claim>, cooldown: int, order: seq<Event>, n: nat, j: nat, k: nat)
    requires n <= |order|
    ensures var w := AtOnce(order, j, k);
            After(claims, cooldown, order, w, n) ==
            if n == 0 then Progress([], {})
            else Happen(claims, cooldown, After(claims, cooldown, order, w, n - 1), order[n - 1], 0, 0, None, {j, k})
  {
    hide Happen;
  }

  lemma BothStep(claims: seq<Claim>, cooldown: int, order: seq<Event>, n: nat, p: Progress,
                 j: nat, cj: nat, ij: nat, k: nat, ck: nat, ik: nat)
    requires WellFormed(claims, order) && OverlapAt(claims, order, j, cj, ij, k, ck, ik) && ij < ik && n < |order|
    requires Both(claims, p, n, j, cj, ij, k, ck, ik)
    ensures Both(claims, Happen(claims, cooldown, p, order[n], 0, 0, None, {j, k}), n + 1, j, cj, ij, k, ck, ik)
  {
    hide StampedNotAfter, IsLastByText;
    assert order[n] == Checks(j) ==> n == cj;
    assert order[n] == Checks(k) ==> n == ck;
    assert order[n] == Inserts(j) ==> n == ij;
    assert order[n] == Inserts(k) ==> n == ik;
  }

  /** Two overlapping calls of one wallet: a run in which both check before either inserts, and
      their claims are stored at the same moment. */
  lemma OverlapBreaksSpacing(claims: seq<Claim>, cooldown: int, order: seq<Event>) returns (w: World)
    requires cooldown >= 1 && WellFormed(claims, order) && Overlap(claims, order)
    ensures Possible(order, w) && !Spaced(Stored(claims, cooldown, order, w), cooldown)
  {
    hide Possible;
    var j, cj, ij, k, ck, ik :| OverlapAt(claims, order, j, cj, ij, k, ck, ik);
    if ij > ik {
      j, cj, ij, k, ck, ik := k, ck, ik, j, cj, ij;
    }
    w := AtOnce(order, j, k);
    AtOncePossible(order, j, k);
    BothGetThrough(claims, cooldown, order, |order|, j, cj, ij, k, ck, ik);
    var rows := Stored(claims, cooldown, order, w);
    assert Same(rows[0], rows[1].address, rows[1].tokenId);
  }

  ghost predicate AlwaysSpaced(claims: seq<Claim>, cooldown: int, order: seq<Event>) {
    forall w :: Possible(order, w) ==> Spaced(Stored(claims, cooldown, order, w), cooldown)
  }

  /** A schedule keeps claims of one wallet and token a cooldown apart, for every clock that does
      not run back, exactly when no two calls of one wallet overlap between check and insert. */
  lemma SpacingExactly(claims: seq<Claim>, cooldown: int, order: seq<Event>)
    requires cooldown >= 1 && WellFormed(claims, order)
    ensures AlwaysSpaced(claims, cooldown, order) <==> !Overlap(claims, order)
  {
    hide Overlap, Spaced;
    if Overlap(claims, order) {
      var w := OverlapBreaksSpacing(claims, cooldown, order);
    } else {
      forall w | Possible(order, w)
        ensures Spaced(Stored(claims, cooldown, order, w), cooldown)
      {
        StaysApart(claims, cooldown, order, w, |order|);
      }
    }
  }

  /** The shortest such schedule: two calls check, then both insert. */
  lemma ConcurrentCallsBreakSpacing(a: Claim, b: Claim, cooldown: int)
    requires cooldown >= 1 && a.address == b.address && a.tokenId == b.tokenId != ""
    ensures !AlwaysSpaced([a, b], cooldown, [Checks(0), Checks(1), Inserts(0), Inserts(1)])
  {
    hide AlwaysSpaced;
    var order := [Checks(0), Checks(1), Inserts(0), Inserts(1)];
    assert OverlapAt([a, b], order, 0, 0, 2, 1, 1, 3);
    SpacingExactly([a, b], cooldown, order);
  }

  /** One call after the other. */
  function Serial(n: nat): seq<Event> {
    seq(2 * n, (i: nat) => if i % 2 == 0 then Checks(i / 2) else Inserts(i / 2))
  }

  lemma SerialHasNoOverlap(claims: seq<Claim>)
    requires forall k :: 0 <= k < |claims| ==> claims[k].tokenId != ""
    ensures WellFormed(claims, Serial(|claims|)) && !Overlap(claims, Serial(|claims|))
  {
    forall k, c, i | Spans(Serial(|claims|), k, c, i)
      ensures c == 2 * k && i == 2 * k + 1
    {
    }
  }

  /** So in every serial run two stored claims of one address and token are at least the cooldown
      apart. */
  lemma CooldownSpacing(claims: seq<Claim>, cooldown: int, w: World)
    requires cooldown >= 1 && Possible(Serial(|claims|), w)
    requires forall k :: 0 <= k < |claims| ==> claims[k].tokenId != ""
    ensures Spaced(Stored(claims, cooldown, Serial(|claims|), w), cooldown)
  {
    hide Spaced, Overlap;
    SerialHasNoOverlap(claims);
    SpacingExactly(claims, cooldown, Serial(|claims|));
  }

  /** And wherever no calls overlap, the SQL cooldown and the in-memory cooldown are the same number. */
  lemma SqlCooldownIsInMemoryCooldown(claims: seq<Claim>, cooldown: int, order: seq<Event>, w: World,
                                      address: string, tokenId: string, i: nat, j: nat, now: nat)
    requires cooldown >= 1 && WellFormed(claims, order) && Possible(order, w) && !Overlap(claims, order) && tokenId != ""
    requires IsLastByText(Stored(claims, cooldown, order, w), address, tokenId, i)
    requires IsLatest(Stored(claims, cooldown, order, w), address, tokenId, j)
    ensures var rows := Stored(claims, cooldown, order, w);
            Check(rows, cooldown, Some(i), now) == Check(rows, cooldown, Some(j), now)
  {
    hide Overlap, Spaced, StampedNotAfter, After;
    StaysApart(claims, cooldown, order, w, |order|);
    LastByTextIsLatest(Stored(claims, cooldown, order, w), cooldown, address, tokenId, i);
  }
}
