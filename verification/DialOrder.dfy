/** Held candidates: each flush dials the strongest, and they drain. */
module DialOrder {
  import opened Options
  import opened Dialer
  import opened DialTimers
  import opened DialBackoff

  // ─── the order ──────────────────────────────────────────────────────────

  ghost predicate Sorted(held: seq<Found>) {
    forall i, j | 0 <= i < j < |held| :: Rank(held[i]) >= Rank(held[j])
  }

  /** The candidates of one rank, in order. */
  function OfRank(held: seq<Found>, rank: int): seq<Found> {
    if held == [] then []
    else (if Rank(held[0]) == rank then [held[0]] else []) + OfRank(held[1..], rank)
  }

  lemma Regroup<T>(a: seq<T>, b: seq<T>, c: seq<T>)
    ensures a + b + c == a + (b + c)
  {}

  lemma {:induction false} OfRankConcat(a: seq<Found>, b: seq<Found>, rank: int)
    ensures OfRank(a + b, rank) == OfRank(a, rank) + OfRank(b, rank)
  {
    if a == [] {
      assert a + b == b;
    } else {
      OfRankConcat(a[1..], b, rank);
      assert (a + b)[1..] == a[1..] + b && (a + b)[0] == a[0];
      if Rank(a[0]) == rank {
        Regroup([a[0]], OfRank(a[1..], rank), OfRank(b, rank));
      }
    }
  }

  lemma {:induction false} InsertKeeps(sorted: seq<Found>, f: Found)
    ensures multiset(InsertRanked(sorted, f)) == multiset(sorted) + multiset{f}
  {
    if sorted != [] {
      assert sorted == [sorted[0]] + sorted[1..];
      if Rank(sorted[0]) >= Rank(f) {
        InsertKeeps(sorted[1..], f);
      }
    }
  }

  lemma {:induction false} InsertSorted(sorted: seq<Found>, f: Found)
    requires Sorted(sorted)
    ensures Sorted(InsertRanked(sorted, f))
  {
    if sorted != [] && Rank(sorted[0]) >= Rank(f) {
      InsertSorted(sorted[1..], f);
      InsertKeeps(sorted[1..], f);
      assert sorted == [sorted[0]] + sorted[1..];
      HeadFirst(sorted[0], sorted[1..], f, InsertRanked(sorted[1..], f));
    }
  }

  lemma HeadFirst(head: Found, rest: seq<Found>, f: Found, all: seq<Found>)
    requires Sorted([head] + rest) && Rank(head) >= Rank(f)
    requires multiset(all) == multiset(rest) + multiset{f} && Sorted(all)
    ensures Sorted([head] + all)
  {
    forall c | c in rest
      ensures Rank(head) >= Rank(c)
    {
      var i :| 0 <= i < |rest| && rest[i] == c;
      assert ([head] + rest)[i + 1] == c && ([head] + rest)[0] == head;
    }
    forall j | 0 <= j < |all|
      ensures Rank(head) >= Rank(all[j])
    {
      assert all[j] in multiset(all);
      assert all[j] in multiset(rest) || all[j] == f;
    }
  }

  lemma {:induction false} InsertStable(sorted: seq<Found>, f: Found, rank: int)
    requires Sorted(sorted)
    ensures OfRank(InsertRanked(sorted, f), rank) == OfRank(sorted, rank) + OfRank([f], rank)
  {
    if sorted != [] && Rank(sorted[0]) >= Rank(f) {
      InsertStable(sorted[1..], f, rank);
    } else if sorted != [] {
      NoneOfRank(sorted, Rank(f));
    }
  }

  lemma {:induction false} NoneOfRank(held: seq<Found>, rank: int)
    requires forall c | c in held :: Rank(c) < rank
    ensures OfRank(held, rank) == []
  {
    if held != [] {
      NoneOfRank(held[1..], rank);
    }
  }

  /** Strongest first, nothing added or lost, equals in the order they were held. */
  lemma {:induction false} SortStrongestSorts(held: seq<Found>)
    ensures Sorted(SortStrongest(held)) && multiset(SortStrongest(held)) == multiset(held)
    ensures forall rank :: OfRank(SortStrongest(held), rank) == OfRank(held, rank)
  {
    if held != [] {
      var n := |held| - 1;
      SortStrongestSorts(held[..n]);
      InsertSorted(SortStrongest(held[..n]), held[n]);
      InsertKeeps(SortStrongest(held[..n]), held[n]);
      assert held == held[..n] + [held[n]];
      forall rank
        ensures OfRank(SortStrongest(held), rank) == OfRank(held, rank)
      {
        InsertStable(SortStrongest(held[..n]), held[n], rank);
        OfRankConcat(held[..n], [held[n]], rank);
      }
    }
  }

  lemma SortKeepsUnique(held: seq<Found>)
    requires UniqueIds(held)
    ensures UniqueIds(SortStrongest(held))
  {
    SortStrongestSorts(held);
    UniqueMultiset(held, SortStrongest(held));
  }

  lemma UniqueMultiset(held: seq<Found>, other: seq<Found>)
    requires UniqueIds(held) && multiset(other) == multiset(held)
    ensures UniqueIds(other)
  {
    forall i, j | 0 <= i < j < |other|
      ensures other[i].id != other[j].id
    {
      if other[i].id == other[j].id {
        assert other[i] in multiset(held) && other[j] in multiset(held);
        assert other[i] == other[j];
        Twice(other, i, j);
        Once(held, other[i]);
      }
    }
  }

  lemma Twice(held: seq<Found>, i: nat, j: nat)
    requires i < j < |held| && held[i] == held[j]
    ensures multiset(held)[held[i]] >= 2
  {
    assert held == held[..j] + [held[j]] + held[j + 1..];
    assert held[..j][i] in multiset(held[..j]);
  }

  lemma {:induction false} Once(held: seq<Found>, f: Found)
    requires UniqueIds(held)
    ensures multiset(held)[f] <= 1
  {
    if held != [] {
      Once(held[1..], f);
      assert held == [held[0]] + held[1..];
      assert held[0] == f ==> f !in held[1..];
    }
  }

  // ─── one flush ──────────────────────────────────────────────────────────

  /** The candidates a flush does not drop, in the order given. */
  function Fit(max: nat, s: State, held: seq<Found>): seq<Found> {
    if held == [] then []
    else (if Eligible(max, s, held[0].id) then [held[0]] else []) + Fit(max, s, held[1..])
  }

  lemma {:induction false} FitIn(max: nat, s: State, held: seq<Found>)
    ensures forall c :: c in Fit(max, s, held) <==> c in held && Eligible(max, s, c.id)
    ensures |Fit(max, s, held)| <= |held|
  {
    if held != [] {
      FitIn(max, s, held[1..]);
    }
  }

  lemma {:induction false} FitSorted(max: nat, s: State, held: seq<Found>)
    requires Sorted(held)
    ensures Sorted(Fit(max, s, held))
  {
    if held != [] {
      FitSorted(max, s, held[1..]);
      FitIn(max, s, held[1..]);
    }
  }

  lemma {:induction false} FitUnique(max: nat, s: State, held: seq<Found>)
    requires UniqueIds(held)
    ensures UniqueIds(Fit(max, s, held))
  {
    if held != [] {
      FitUnique(max, s, held[1..]);
      FitIn(max, s, held[1..]);
    }
  }

  /** As far as these candidates go, `r` judges as `s` does. */
  ghost predicate Agree(max: nat, s: State, r: State, held: seq<Found>) {
    forall c | c in held :: Eligible(max, s, c.id) == Eligible(max, r, c.id)
  }

  lemma {:induction false} FitAgrees(max: nat, s: State, r: State, held: seq<Found>)
    requires Agree(max, s, r, held)
    ensures Fit(max, s, held) == Fit(max, r, held)
  {
    if held != [] {
      assert held[0] in held;
      FitAgrees(max, s, r, held[1..]);
    }
  }

  lemma {:induction false} SetNewCandidate(held: seq<Found>, f: Found)
    requires forall c | c in held :: c.id != f.id
    ensures SetCandidate(held, f) == held + [f]
  {
    if held != [] {
      assert held[0] in held;
      SetNewCandidate(held[1..], f);
      assert held == [held[0]] + held[1..];
    }
  }

  lemma HoldSame(s: State, f: Found)
    ensures var r := Hold(s, f);
            && r.candidates == SetCandidate(s.candidates, f)
            && r.devices == s.devices && r.lastDial == s.lastDial && r.connects == s.connects && r.now == s.now
  {
    FlushTimerSame(s.(candidates := SetCandidate(s.candidates, f)));
  }

  lemma Associate<T>(a: seq<T>, f: T, b: seq<T>)
    ensures a + [f] + b == a + ([f] + b)
  {}

  lemma SplitHead(a: seq<Found>, held: seq<Found>)
    requires held != [] && UniqueIds(a + held)
    ensures UniqueIds(a + ([held[0]] + held[1..]))
  {
    assert held == [held[0]] + held[1..];
  }

  /** With the window closed, a flush holds again exactly the eligible ones, in order. */
  lemma {:induction false} HoldsAgain(max: nat, s: State, held: seq<Found>, throws: bool)
    requires !WindowOpen(s) && UniqueIds(s.candidates + held)
    ensures var r := DiscoverAll(max, s, held, throws);
            r.candidates == s.candidates + Fit(max, s, held) && r.connects == s.connects && r.devices == s.devices
    decreases |held|
  {
    if held != [] {
      var f := held[0];
      SplitHead(s.candidates, held);
      if Eligible(max, s, f.id) {
        NewId(s.candidates, f, held[1..]);
        SetNewCandidate(s.candidates, f);
        HoldSame(s, f);
        assert Agree(max, s, Hold(s, f), held[1..]);
        FitAgrees(max, s, Hold(s, f), held[1..]);
        HoldsAgain(max, Hold(s, f), held[1..], throws);
        Associate(s.candidates, f, Fit(max, s, held[1..]));
      } else {
        DropId(s.candidates, f, held[1..]);
        HoldsAgain(max, s, held[1..], throws);
      }
    }
  }

  lemma NewId(a: seq<Found>, f: Found, b: seq<Found>)
    requires UniqueIds(a + ([f] + b)) || UniqueIds(a + [f] + b)
    ensures UniqueIds(a + [f] + b) && (forall c | c in a :: c.id != f.id) && (forall c | c in b :: c.id != f.id)
  {
    Associate(a, f, b);
    var all := a + [f] + b;
    assert all[|a|] == f;
    forall c | c in a
      ensures c.id != f.id
    {
      var i :| 0 <= i < |a| && a[i] == c;
      assert all[i] == c;
    }
    forall c | c in b
      ensures c.id != f.id
    {
      var i :| 0 <= i < |b| && b[i] == c;
      assert all[|a| + 1 + i] == c;
    }
  }

  lemma DropId(a: seq<Found>, f: Found, b: seq<Found>)
    requires UniqueIds(a + ([f] + b))
    ensures UniqueIds(a + b)
  {
    var all := a + ([f] + b);
    forall i, j | 0 <= i < j < |a + b|
      ensures (a + b)[i].id != (a + b)[j].id
    {
      var p, q := if i < |a| then i else i + 1, if j < |a| then j else j + 1;
      assert all[p] == (a + b)[i] && all[q] == (a + b)[j];
    }
  }

  /** A dial leaves the other candidates as eligible as they were, and closes the window. */
  lemma DialSpares(max: nat, s: State, f: Found, throws: bool, held: seq<Found>)
    requires forall c | c in held :: c.id != f.id
    ensures Agree(max, s, Dial(s, f, throws), held)
  {
    forall c | c in held
      ensures Eligible(max, s, c.id) == Eligible(max, Dial(s, f, throws), c.id)
    {
      DialSparesOne(max, s, f, throws, c.id);
    }
  }

  lemma DialSparesOne(max: nat, s: State, f: Found, throws: bool, id: nat)
    requires id != f.id
    ensures Eligible(max, s, id) == Eligible(max, Dial(s, f, throws), id)
  {
    if throws {
      AbortSpares(Dialled(s, f), f.id, id);
    }
  }

  lemma DialSame(s: State, f: Found, throws: bool)
    ensures var r := Dial(s, f, throws);
            && r.candidates == s.candidates && r.dialTimer == s.dialTimer
            && !WindowOpen(r) && r.connects == s.connects + [Connect(f, s.now)]
  {
    if throws {
      AbortSame(Dialled(s, f), f.id);
    }
  }

  predicate DeviceKept(s: State, r: State, id: nat) {
    (id in r.devices <==> id in s.devices) && (id in s.devices ==> r.devices[id] == s.devices[id])
  }

  lemma AbortSpares(s: State, id: nat, other: nat)
    requires other != id
    ensures DeviceKept(s, AbortDial(s, id), other)
  {
    StartScanSame(ClearDial(Fail(s, id), id));
  }

  lemma AbortSame(s: State, id: nat)
    ensures Untouched(s, AbortDial(s, id))
  {
    StartScanSame(ClearDial(Fail(s, id), id));
  }

  lemma DialThenHold(max: nat, s: State, f: Found, rest: seq<Found>, throws: bool)
    requires s.candidates == [] && UniqueIds([f] + rest)
    ensures var r := DiscoverAll(max, Dial(s, f, throws), rest, throws);
            && r.candidates == Fit(max, s, rest) && r.connects == s.connects + [Connect(f, s.now)]
            && r.devices == Dial(s, f, throws).devices
  {
    HeadId(f, rest);
    var m := Dial(s, f, throws);
    DialSpares(max, s, f, throws, rest);
    DialSame(s, f, throws);
    FitAgrees(max, s, m, rest);
    HoldsAll(max, m, rest, throws);
  }

  lemma HeadId(f: Found, rest: seq<Found>)
    requires UniqueIds([f] + rest)
    ensures UniqueIds(rest) && forall c | c in rest :: c.id != f.id
  {
    var all := [f] + rest;
    forall c | c in rest
      ensures c.id != f.id
    {
      var i :| 0 <= i < |rest| && rest[i] == c;
      assert all[i + 1] == c && all[0] == f;
    }
    assert rest == all[1..];
  }

  /** With nobody held so far. */
  lemma HoldsAll(max: nat, s: State, held: seq<Found>, throws: bool)
    requires !WindowOpen(s) && s.candidates == [] && UniqueIds(held)
    ensures var r := DiscoverAll(max, s, held, throws); r.candidates == Fit(max, s, held) && r.connects == s.connects && r.devices == s.devices
  {
    assert s.candidates + held == held;
    HoldsAgain(max, s, held, throws);
  }

  /** Main: with the dial window open a flush dials the first eligible candidate, holds the other
      eligible ones again in the same order, and drops the rest. */
  lemma {:induction false} FlushAll(max: nat, s: State, held: seq<Found>, throws: bool)
    requires WindowOpen(s) && s.candidates == [] && UniqueIds(held)
    ensures var r, fit := DiscoverAll(max, s, held, throws), Fit(max, s, held);
            if fit == [] then r == s
            else
              && r.candidates == fit[1..] && r.connects == s.connects + [Connect(fit[0], s.now)]
              && r.devices == Dial(s, fit[0], throws).devices
    decreases |held|
  {
    if held != [] {
      var f, rest := held[0], held[1..];
      if Eligible(max, s, f.id) {
        DialThenHold(max, s, f, rest, throws);
      } else {
        FlushAll(max, s, rest, throws);
      }
    }
  }

  /** Main: the flush timer's handler, with the window open, dials the strongest eligible of the
      held candidates and nothing else, holds exactly the other eligible ones again, strongest
      first, and drops the rest. */
  lemma FlushDialsStrongest(max: nat, s: State, throws: bool)
    requires Book(s) && WindowOpen(s)
    ensures var r, fit := OnFlush(max, s, throws), Fit(max, s, SortStrongest(s.candidates));
            && Sorted(fit) && UniqueIds(fit)
            && (forall c :: c in fit <==> c in s.candidates && Eligible(max, s, c.id))
            && r.candidates == (if fit == [] then [] else fit[1..])
            && r.connects == s.connects + (if fit == [] then [] else [Connect(fit[0], s.now)])
            && r.devices == (if fit == [] then s.devices else Dial(TakeCandidates(s), fit[0], throws).devices)
  {
    SortsHeld(max, s);
    FlushDoes(max, s, throws);
  }

  lemma FlushDoes(max: nat, s: State, throws: bool)
    requires WindowOpen(s) && UniqueIds(SortStrongest(s.candidates))
    ensures var r, fit := OnFlush(max, s, throws), Fit(max, s, SortStrongest(s.candidates));
            && r.candidates == (if fit == [] then [] else fit[1..])
            && r.connects == s.connects + (if fit == [] then [] else [Connect(fit[0], s.now)])
            && r.devices == (if fit == [] then s.devices else Dial(TakeCandidates(s), fit[0], throws).devices)
  {
    var t, sorted := TakeCandidates(s), SortStrongest(s.candidates);
    TakeAgrees(max, s, sorted);
    FlushAll(max, t, sorted, throws);
  }

  lemma TakeAgrees(max: nat, s: State, held: seq<Found>)
    ensures Fit(max, TakeCandidates(s), held) == Fit(max, s, held)
  {
    assert Agree(max, s, TakeCandidates(s), held);
    FitAgrees(max, s, TakeCandidates(s), held);
  }

  lemma SortsHeld(max: nat, s: State)
    requires UniqueIds(s.candidates)
    ensures var sorted := SortStrongest(s.candidates); var fit := Fit(max, s, sorted);
            && UniqueIds(sorted) && Sorted(fit) && UniqueIds(fit) && |fit| <= |s.candidates|
            && (forall c :: c in fit <==> c in s.candidates && Eligible(max, s, c.id))
  {
    var sorted := SortStrongest(s.candidates);
    SortStrongestSorts(s.candidates);
    SortKeepsUnique(s.candidates);
    assert |multiset(sorted)| == |multiset(s.candidates)|;
    FitIn(max, s, sorted);
    FitSorted(max, s, sorted);
    FitUnique(max, s, sorted);
    forall c: Found
      ensures c in sorted <==> c in s.candidates
    {
      assert c in multiset(sorted) <==> c in multiset(s.candidates);
    }
  }

  /** With the window closed it dials nobody and only drops. */
  lemma FlushClosed(max: nat, s: State, throws: bool)
    requires Book(s) && !WindowOpen(s)
    ensures var r, fit := OnFlush(max, s, throws), Fit(max, s, SortStrongest(s.candidates));
            && r.candidates == fit && r.connects == s.connects && r.devices == s.devices && |fit| <= |s.candidates|
            && (forall c :: c in fit <==> c in s.candidates && Eligible(max, s, c.id))
  {
    var sorted, t := SortStrongest(s.candidates), TakeCandidates(s);
    SortsHeld(max, s);
    TakeAgrees(max, s, sorted);
    HoldsAll(max, t, sorted, throws);
  }

  // ─── the deadline ───────────────────────────────────────────────────────

  /** The flush timer, if armed, is due the moment the dial window opens. */
  predicate Prompt(s: State) {
    s.dialTimer.Some? ==> s.dialTimer.value.due == s.lastDial + DIAL_MIN_INTERVAL
  }

  /** A dial made since it was armed leaves it due no later than that dial. */
  predicate Dated(s: State) {
    s.dialTimer.Some? ==> s.dialTimer.value.due == s.lastDial + DIAL_MIN_INTERVAL || s.dialTimer.value.due <= s.lastDial
  }

  lemma HoldPrompt(s: State, f: Found)
    ensures var r := Hold(s, f); (Prompt(s) ==> Prompt(r)) && (Dated(s) ==> Dated(r)) && r.dialTimer.Some?
  {
    HoldSame(s, f);
    HoldAlarm(s, f);
  }

  lemma HoldAlarm(s: State, f: Found)
    ensures var r := Hold(s, f);
            r.dialTimer == if s.dialTimer.Some? then s.dialTimer else Some(Alarm(s.next, s.lastDial + DIAL_MIN_INTERVAL))
  {}

  lemma {:induction false} DiscoverAllPrompt(max: nat, s: State, held: seq<Found>, throws: bool)
    requires Prompt(s) && (WindowOpen(s) ==> s.dialTimer.None?)
    ensures Prompt(DiscoverAll(max, s, held, throws))
    decreases |held|
  {
    if held != [] {
      var f, rest := held[0], held[1..];
      if Eligible(max, s, f.id) && WindowOpen(s) {
        DialSame(s, f, throws);
        DiscoverAllPrompt(max, Dial(s, f, throws), rest, throws);
      } else if Eligible(max, s, f.id) {
        HoldSame(s, f);
        HoldPrompt(s, f);
        DiscoverAllPrompt(max, Hold(s, f), rest, throws);
      } else {
        DiscoverAllPrompt(max, s, rest, throws);
      }
    }
  }

  /** What a flush holds again waits for exactly the next window. */
  lemma FlushPrompt(max: nat, s: State, throws: bool)
    ensures Prompt(OnFlush(max, s, throws))
  {
    DiscoverAllPrompt(max, TakeCandidates(s), SortStrongest(s.candidates), throws);
  }

  lemma DiscoverDated(max: nat, s: State, f: Found, throws: bool)
    requires Dated(s)
    ensures Dated(OnDiscover(max, s, f, throws))
  {
    if Eligible(max, s, f.id) && WindowOpen(s) {
      DialSame(s, f, throws);
      DialSets(s, f, throws);
    } else {
      HoldPrompt(s, f);
    }
  }

  lemma DialSets(s: State, f: Found, throws: bool)
    ensures Dial(s, f, throws).lastDial == s.now
  {
    if throws {
      AbortSame(Dialled(s, f), f.id);
    }
  }

  // ─── draining over a run ────────────────────────────────────────────────

  /** From `s` to `r` candidates only left, and whoever was dialled was at least as strong as
      everyone still held. */
  ghost predicate Drained(s: State, r: State) {
    && s.connects <= r.connects
    && (forall c | c in r.candidates :: c in s.candidates)
    && DialsFrom(s.candidates, r.candidates, r.connects[|s.connects|..])
  }

  ghost predicate DialsFrom(before: seq<Found>, after: seq<Found>, dials: seq<Connect>) {
    && (forall i | 0 <= i < |dials| :: dials[i].found in before)
    && (forall i, c | 0 <= i < |dials| && c in after :: Rank(dials[i].found) >= Rank(c))
    && (forall i, j | 0 <= i < j < |dials| :: Rank(dials[i].found) >= Rank(dials[j].found))
  }

  lemma OpenDrains(max: nat, s: State, throws: bool)
    requires Book(s) && WindowOpen(s)
    ensures var r := OnFlush(max, s, throws);
            Drained(s, r) && (s.candidates != [] ==> |r.candidates| < |s.candidates|)
  {
    var r, fit := OnFlush(max, s, throws), Fit(max, s, SortStrongest(s.candidates));
    SortsHeld(max, s);
    FlushDialsStrongest(max, s, throws);
    if fit != [] {
      OneDial(s.connects, Connect(fit[0], s.now));
      FirstDrains(s.candidates, fit, s.now);
    } else {
      assert s.connects + [] == s.connects && s.connects[|s.connects|..] == [];
    }
  }

  lemma OneDial(connects: seq<Connect>, c: Connect)
    ensures connects <= connects + [c] && (connects + [c])[|connects|..] == [c]
  {}

  lemma FirstDrains(before: seq<Found>, fit: seq<Found>, at: int)
    requires fit != [] && Sorted(fit) && forall c | c in fit :: c in before
    ensures DialsFrom(before, fit[1..], [Connect(fit[0], at)]) && forall c | c in fit[1..] :: c in before
  {
    forall c | c in fit[1..]
      ensures c in before && Rank(fit[0]) >= Rank(c)
    {
      var i :| 0 <= i < |fit[1..]| && fit[1..][i] == c;
      assert fit[i + 1] == c;
    }
  }

  lemma ClosedDrains(max: nat, s: State, throws: bool)
    requires Book(s) && !WindowOpen(s)
    ensures var r := OnFlush(max, s, throws); Drained(s, r) && |r.candidates| <= |s.candidates|
  {
    FlushClosed(max, s, throws);
    assert s.connects[|s.connects|..] == [];
  }

  /** Every other event leaves the candidates alone or lets go of them all. */
  lemma OthersSpare(max: nat, s: State, e: Event)
    requires Memory(s) && !e.Discover? && !e.FlushFires?
    ensures Eased(s, Step(max, s, e))
  {
    if Enabled(s, e) {
      if OfDialling(e) {
        OtherDialsSpare(max, s, e);
      } else if OfLinks(e) {
        LinkMoves(s, e);
      } else if OfScanning(e) {
        ScanMoves(s, e);
      } else {
        LifecycleMoves(s, e);
      }
    }
  }

  lemma OtherDialsSpare(max: nat, s: State, e: Event)
    requires Memory(s) && Enabled(s, e) && OfDialling(e) && !e.Discover? && !e.FlushFires?
    ensures Untouched(s, ApplyDial(max, s, e))
  {
    match e
    case DialTimesOut(timer) => AbortMemory(s.(timers := s.timers - {timer}), s.timers[timer].id);
    case DialAborts(id) => AbortMemory(s, id);
    case CentralEnds(id, keep) => EndMemory(s, id, keep);
    case AlreadyLinked(id, key) =>
      PutMemory(s, id, DeviceOf(s, id).(peerKey := Some(key)));
      EndMemory(SetPeer(s, id, key), id, true);
    case CentralError => ClearDialsMemory(s);
  }

  /** Main: in every run the flush timer is due the moment the window opens, or a dial made since
      it was armed has overtaken it. */
  lemma {:induction false} RunDated(max: nat, now: nat, centralOn: bool, online: bool, events: seq<Event>)
    ensures Dated(Run(max, Init(now, centralOn, online), events))
  {
    if events != [] {
      var front, e := events[..|events| - 1], events[|events| - 1];
      RunDated(max, now, centralOn, online, front);
      RunPaced(max, now, centralOn, online, front);
      StepDated(max, Run(max, Init(now, centralOn, online), front), e);
    }
  }

  lemma StepDated(max: nat, s: State, e: Event)
    requires Dated(s) && Memory(s)
    ensures Dated(Step(max, s, e))
  {
    if e.Discover? {
      DiscoverDated(max, s, e.found, e.throws);
    } else if e.FlushFires? {
      if Enabled(s, e) { FlushPrompt(max, s, e.throws); }
    } else {
      OthersSpare(max, s, e);
    }
  }

  /** Flush timers that fire. */
  function Flushes(max: nat, s: State, events: seq<Event>): nat {
    if events == [] then 0
    else
      var front, e := events[..|events| - 1], events[|events| - 1];
      Flushes(max, s, front) + if e.FlushFires? && Enabled(Run(max, s, front), e) then 1 else 0
  }

  /** One flush may find its window closed again, if a dial has overtaken its timer. */
  function Debt(s: State): nat {
    if Prompt(s) then 0 else 1
  }

  ghost predicate NoDiscovery(events: seq<Event>) {
    forall i | 0 <= i < |events| :: !events[i].Discover?
  }

  lemma StepDrains(max: nat, s: State, e: Event)
    requires Book(s) && Memory(s) && !e.Discover?
    ensures var r := Step(max, s, e);
            && Drained(s, r)
            && |r.candidates| + Debt(r) + (if e.FlushFires? && Enabled(s, e) then 1 else 0) <= |s.candidates| + Debt(s)
  {
    if e.FlushFires? {
      if Enabled(s, e) {
        FlushPays(max, s, e.throws);
      } else {
        assert s.connects[|s.connects|..] == [];
      }
    } else {
      OthersSpare(max, s, e);
      assert Step(max, s, e).connects[|s.connects|..] == [];
    }
  }

  /** A prompt flush timer fires in an open window. */
  lemma FlushPays(max: nat, s: State, throws: bool)
    requires Book(s) && Enabled(s, FlushFires(throws))
    ensures var r := OnFlush(max, s, throws);
            Drained(s, r) && Prompt(r) && |r.candidates| + 1 <= |s.candidates| + Debt(s)
  {
    FlushPrompt(max, s, throws);
    if WindowOpen(s) {
      OpenDrains(max, s, throws);
    } else {
      ClosedDrains(max, s, throws);
    }
  }

  lemma DrainedThen(s: State, m: State, r: State)
    requires Drained(s, m) && Drained(m, r)
    ensures Drained(s, r)
  {
    var early, late := m.connects[|s.connects|..], r.connects[|m.connects|..];
    assert r.connects[|s.connects|..] == early + late;
  }

  /** Main: without new discoveries, whatever else happens, the dials come from the held candidates
      in nonincreasing signal strength, and k held ones are gone after k firings of the flush timer,
      or k + 1 if a dial had already overtaken it. */
  lemma {:induction false} CandidatesDrain(max: nat, s: State, events: seq<Event>)
    requires Book(s) && Quiet(s) && Memory(s) && NoDiscovery(events)
    ensures var r := Run(max, s, events);
            && Book(r) && Quiet(r) && Memory(r) && Drained(s, r)
            && Flushes(max, s, events) + |r.candidates| + Debt(r) <= |s.candidates| + Debt(s)
  {
    if events == [] {
      assert s.connects[|s.connects|..] == [];
    } else {
      var front, e := events[..|events| - 1], events[|events| - 1];
      var m := Run(max, s, front);
      CandidatesDrain(max, s, front);
      StepBook(max, m, e);
      StepQuiet(max, m, e);
      StepMoves(max, m, e);
      StepDrains(max, m, e);
      DrainedThen(s, m, Step(max, m, e));
    }
  }
}
