// What the lane pool promises over every run, where the promise ends, and runs that show it.
module LaneRuns {
  import opened Prelude
  import opened Stellar
  import opened Lanes

  predicate Distinct(ids: seq<AccountId>) { forall i, j :: 0 <= i < j < |ids| ==> ids[i] != ids[j] }

  // ---------- Exclusion ----------

  /** Not expired, and not released by anybody. */
  predicate Outstanding(s: Pool, k: nat)
    requires k < |s.grants|
  {
    s.grants[k].expiresAt > s.clock && !s.grants[k].fate.Released?
  }

  /** Not expired, and not released by its own holder: what the holder can know. */
  predicate Held(s: Pool, k: nat)
    requires k < |s.grants|
  {
    s.grants[k].expiresAt > s.clock && s.grants[k].fate != Released(k)
  }

  /**
   * In every interleaving of lease steps, releases, abandoned calls and clock ticks: two leases that
   * are neither expired nor released are never on one lane, so on lanes with addresses of their own
   * no two of them name the same account, let alone the same account and sequence number.
   */
  lemma LeasesExclusive(s: Pool, events: seq<Event>, ttl: nat, t: Pool, j: nat, k: nat)
    requires Init(s) && Run(s, events, ttl) == Some(t) && Distinct(s.ids)
    requires j < k < |t.grants| && Outstanding(t, j) && Outstanding(t, k)
    ensures t.grants[j].lane < |t.ids| && t.grants[k].lane < |t.ids|
    ensures t.ids[t.grants[j].lane] != t.ids[t.grants[k].lane]
  {
    hide Run, Enabled, LocksInv, ClockInv, SequenceInv, ReadsInv, HoldersInv, FreedInv;
    RunKeepsInv(s, events, ttl, t);
    assert t.grants[j].fate.Live? && t.grants[k].fate.Live?;
  }

  /**
   * The same as the holders see it, with the one exception there is: if two leases that neither holder
   * has given back are on one account, the older was freed by the release of an older one still, which
   * had the same account and the same number.
   */
  lemma HeldUnlessFreedByAnother(s: Pool, events: seq<Event>, ttl: nat, t: Pool, j: nat, k: nat)
    requires Init(s) && Run(s, events, ttl) == Some(t) && Distinct(s.ids)
    requires j < k < |t.grants| && Held(t, j) && Held(t, k)
    ensures t.grants[j].lane < |t.ids| && t.grants[k].lane < |t.ids|
    ensures t.ids[t.grants[j].lane] == t.ids[t.grants[k].lane] ==>
      && t.grants[j].fate.Released?
      && var h := t.grants[j].fate.holder;
         h < j && t.grants[h].lane == t.grants[j].lane && t.grants[h].sequence == t.grants[j].sequence
  {
    hide Run, Enabled, Init, LocksInv, ClockInv, SequenceInv, ReadsInv, HoldersInv, Distinct;
    RunKeepsInv(s, events, ttl, t);
    if t.ids[t.grants[j].lane] == t.ids[t.grants[k].lane] {
      OneLane(t.ids, t.grants[j].lane, t.grants[k].lane);
      FreedBefore(t, j, k);
    }
  }

  lemma OneLane(ids: seq<AccountId>, a: nat, b: nat)
    requires Distinct(ids) && a < |ids| && b < |ids| && ids[a] == ids[b]
    ensures a == b
  {
  }

  lemma FreedBefore(t: Pool, j: nat, k: nat)
    requires SlotsInv(t) && DeadlineInv(t) && FreedInv(t) && Distinct(t.ids) && Sized(t)
    requires j < k < |t.grants| && Held(t, j) && Held(t, k) && t.grants[j].lane == t.grants[k].lane
    ensures t.grants[j].fate.Released?
    ensures var h := t.grants[j].fate.holder;
      h < j && t.grants[h].lane == t.grants[j].lane && t.grants[h].sequence == t.grants[j].sequence
  {
    hide HomeOf;
    assert !t.grants[j].fate.Superseded?;
    assert t.grants[j].fate.Released?;
    var h := t.grants[j].fate.holder;
    assert HomeOf(t.ids, t.grants[h].lane) == t.grants[j].lane;
    OneLane(t.ids, HomeOf(t.ids, t.grants[h].lane), t.grants[h].lane);
  }

  // ---------- Releases ----------

  /**
   * A release frees another holder's lease exactly when its own is no longer live and the live one on
   * its lane has the same number; otherwise it frees its own, or nothing.
   */
  lemma ReleaseFreesAnotherExactlyWhen(s: Pool, events: seq<Event>, ttl: nat, t: Pool, c: nat)
    requires Init(s) && Run(s, events, ttl) == Some(t) && Distinct(s.ids)
    requires Sized(t) && Enabled(t, Clear(c))
    ensures var j := PhaseOf(t, c).holder;
      && j < |t.grants|
      && (FreesAnother(t, After(t, Clear(c), ttl), j)
          <==> !t.grants[j].fate.Live? && exists k :: IsSuccessor(t, j, k))
  {
    hide Run, LocksInv, ClockInv, DeadlineInv, SequenceInv, ReadsInv, FreedInv;
    RunKeepsInv(s, events, ttl, t);
    ClearOutcome(t, c, ttl);
  }

  /** `k` is live on the lane `j` was leased on, under the same number. */
  predicate IsSuccessor(s: Pool, j: nat, k: nat)
    requires j < |s.grants|
  {
    k < |s.grants| && s.grants[k].fate.Live? && s.grants[k].lane == s.grants[j].lane
    && s.grants[k].sequence == s.grants[j].sequence
  }

  ghost predicate FreesAnother(s: Pool, t: Pool, j: nat) {
    |s.grants| == |t.grants|
    && exists k :: 0 <= k < |s.grants| && k != j && s.grants[k].fate.Live? && t.grants[k].fate == Released(j)
  }

  lemma ClearOutcome(t: Pool, c: nat, ttl: nat)
    requires Sized(t) && Enabled(t, Clear(c)) && SlotsInv(t) && HoldersInv(t) && Distinct(t.ids)
    ensures var j := PhaseOf(t, c).holder;
      && j < |t.grants|
      && (FreesAnother(t, After(t, Clear(c), ttl), j)
          <==> !t.grants[j].fate.Live? && exists k :: IsSuccessor(t, j, k))
  {
    hide Busy, Advanced;
    var p := t.calls[c];
    assert WellHeld(t, p);
    var j, u := p.holder, After(t, Clear(c), ttl);
    assert p.lane == t.grants[j].lane;
    if FreesAnother(t, u, j) {
      var k :| 0 <= k < |t.grants| && k != j && t.grants[k].fate.Live? && u.grants[k].fate == Released(j);
      assert IsSuccessor(t, j, k);
    }
    if !t.grants[j].fate.Live? && exists k :: IsSuccessor(t, j, k) {
      var k: nat :| IsSuccessor(t, j, k);
      assert u.grants[k].fate == Released(j);
    }
  }

  /** Numbers on the lane have moved past `v`: on the chain, in every read under way, in every later grant. */
  predicate Above(s: Pool, lane: nat, v: int, base: nat) {
    && lane < |s.chain| && s.chain[lane] >= v
    && (forall c :: c in s.calls && s.calls[c].HasRead? && s.calls[c].lane == lane ==> s.calls[c].sequence > v)
    && forall k :: base <= k < |s.grants| && s.grants[k].lane == lane ==> s.grants[k].sequence > v
  }

  lemma StepKeepsAbove(s: Pool, e: Event, ttl: nat, lane: nat, v: int, base: nat)
    requires Sized(s) && Enabled(s, e) && Above(s, lane, v, base) && base <= |s.grants|
    ensures Above(After(s, e, ttl), lane, v, base)
  {
    hide Busy, HomeOf;
  }

  lemma {:induction false} RunKeepsAbove(s: Pool, events: seq<Event>, ttl: nat, t: Pool, lane: nat, v: int, base: nat)
    requires Sized(s) && Above(s, lane, v, base) && base <= |s.grants| && Run(s, events, ttl) == Some(t)
    ensures Above(t, lane, v, base) && base <= |t.grants|
  {
    hide Above, After, Enabled;
    if events == [] {
    } else {
      var front := Run(s, events[..|events| - 1], ttl).value;
      RunKeepsAbove(s, events[..|events| - 1], ttl, front, lane, v, base);
      StepKeepsAbove(front, events[|events| - 1], ttl, lane, v, base);
      StepExtends(front, events[|events| - 1], ttl);
      ExtendsLength(front.grants, t.grants);
    }
  }

  lemma ExtendsLength(a: seq<Grant>, b: seq<Grant>)
    requires Extends(a, b)
    ensures |a| <= |b|
  {
  }

  /**
   * What it takes is an idle chain. If the account's own number has reached a grant's number while
   * nobody was reading the lane, every later grant on that lane has a greater one, and no release for
   * the old grant, however late and however often repeated, ever frees it.
   */
  lemma MovedChainProtects(s: Pool, before: seq<Event>, m: Pool, after: seq<Event>, ttl: nat, t: Pool, j: nat, k: nat)
    requires Init(s) && Run(s, before, ttl) == Some(m) && Run(m, after, ttl) == Some(t)
    requires j < |m.grants| && m.grants[j].lane < |m.chain| && m.grants[j].lane < |m.locks|
    requires m.chain[m.grants[j].lane] >= m.grants[j].sequence && m.locks[m.grants[j].lane].None?
    requires |m.grants| <= k < |t.grants| && t.grants[k].lane == m.grants[j].lane
    ensures t.grants[k].sequence > m.grants[j].sequence && t.grants[k].fate != Released(j)
  {
    hide Run, SlotsInv, ClockInv, DeadlineInv, SequenceInv, ReadsInv, HoldersInv;
    RunKeepsInv(s, before, ttl, m);
    RunFromInv(m, after, ttl, t);
    RunKeepsAbove(m, after, ttl, t, m.grants[j].lane, m.grants[j].sequence, |m.grants|);
  }

  // ---------- Sequences and deadlines ----------

  /** Sequences handed out on one lane never go down, over every run. */
  lemma SequencesNeverFall(s: Pool, events: seq<Event>, ttl: nat, t: Pool, j: nat, k: nat)
    requires Init(s) && Run(s, events, ttl) == Some(t)
    requires j < k < |t.grants| && t.grants[j].lane == t.grants[k].lane
    ensures t.grants[j].sequence <= t.grants[k].sequence
  {
    hide Run, Enabled, LocksInv, ClockInv, SlotsInv, DeadlineInv, ReadsInv, HoldersInv, FreedInv;
    RunKeepsInv(s, events, ttl, t);
  }

  /** A lease that was written over was past its deadline by the true clock, not only by a stale one. */
  lemma OverwrittenOnlyWhenDead(s: Pool, events: seq<Event>, ttl: nat, t: Pool, k: nat)
    requires Init(s) && Run(s, events, ttl) == Some(t)
    requires k < |t.grants| && t.grants[k].fate.Superseded?
    ensures t.grants[k].expiresAt <= t.clock
  {
    hide Run, Enabled, LocksInv, ClockInv, SlotsInv, SequenceInv, ReadsInv, HoldersInv, FreedInv;
    RunKeepsInv(s, events, ttl, t);
  }

  // ---------- Runs of one call at a time ----------

  lemma Extend(s: Pool, events: seq<Event>, e: Event, ttl: nat, t: Pool) returns (longer: seq<Event>, next: Pool)
    requires Run(s, events, ttl) == Some(t) && Sized(t) && Enabled(t, e)
    ensures Run(s, longer, ttl) == Some(next) && next == After(t, e, ttl) && longer == events + [e]
  {
    hide Run, Enabled, After;
    RunExtends(s, events, e, ttl, t);
    longer, next := events + [e], After(t, e, ttl);
  }

  lemma EmptyRun(s: Pool, ttl: nat)
    ensures Run(s, [], ttl) == Some(s)
  {
  }

  function ScanEvents(c: nat, k: nat): seq<Event> {
    if k == 0 then [StartLease(c)] else ScanEvents(c, k - 1) + [TakeLock(c), SkipBusy(c)]
  }

  /** A lone call walks past the busy lanes and leaves everything but its own phase as it was. */
  lemma {:induction false} Scans(s: Pool, events: seq<Event>, ttl: nat, t: Pool, c: nat, k: nat) returns (next: Pool)
    requires Run(s, events, ttl) == Some(t) && Sized(t) && k <= |t.slots| && PhaseOf(t, c).Idle?
    requires forall i :: 0 <= i < |t.locks| ==> t.locks[i].None?
    requires forall i :: 0 <= i < k ==> Busy(t.slots[i], t.clock)
    ensures Run(s, events + ScanEvents(c, k), ttl) == Some(next)
    ensures next == t.(calls := t.calls[c := Scanning(t.clock, k)])
  {
    hide Run, HomeOf, Advanced, Retire;
    if k == 0 {
      var longer;
      longer, next := Extend(s, events, StartLease(c), ttl, t);
    } else {
      var longer;
      next := Scans(s, events, ttl, t, c, k - 1);
      longer, next := Extend(s, events + ScanEvents(c, k - 1), TakeLock(c), ttl, next);
      longer, next := Extend(s, longer, SkipBusy(c), ttl, next);
      assert longer == events + ScanEvents(c, k);
      assert next.locks == t.locks;
      assert next.calls == t.calls[c := Scanning(t.clock, k)];
    }
  }

  function LeaseEvents(c: nat, k: nat): seq<Event> {
    ScanEvents(c, k) + [TakeLock(c), AskHorizon(c), WriteLease(c)]
  }

  /** A lone call leases the first lane that is free. */
  lemma LeasesFirstFree(s: Pool, events: seq<Event>, ttl: nat, t: Pool, c: nat, k: nat) returns (next: Pool)
    requires Run(s, events, ttl) == Some(t) && Sized(t) && k < |t.slots| && PhaseOf(t, c).Idle?
    requires forall i :: 0 <= i < |t.locks| ==> t.locks[i].None?
    requires (forall i :: 0 <= i < k ==> Busy(t.slots[i], t.clock)) && !Busy(t.slots[k], t.clock)
    ensures Run(s, events + LeaseEvents(c, k), ttl) == Some(next)
    ensures var sequence, deadline := t.chain[k] + 1, t.clock + ttl;
      next == t.(slots := t.slots[k := Some(Lease(sequence, deadline))], calls := t.calls[c := Idle],
                 grants := Retire(t.grants, k, Superseded) + [Grant(k, sequence, deadline, t.clock, Live)])
  {
    hide Run, HomeOf, Advanced, Retire;
    var longer;
    next := Scans(s, events, ttl, t, c, k);
    longer, next := Extend(s, events + ScanEvents(c, k), TakeLock(c), ttl, next);
    longer, next := Extend(s, longer, AskHorizon(c), ttl, next);
    longer, next := Extend(s, longer, WriteLease(c), ttl, next);
    assert longer == events + LeaseEvents(c, k);
    assert next.locks == t.locks;
    assert next.calls == t.calls[c := Idle];
  }

  function ReleaseEvents(c: nat, holder: nat): seq<Event> { [StartRelease(c, holder), TakeLock(c), Clear(c)] }

  /** A lone release clears its grant's lane, if the lease there has its number. */
  lemma ReleasesIts(s: Pool, events: seq<Event>, ttl: nat, t: Pool, c: nat, holder: nat) returns (next: Pool)
    requires Run(s, events, ttl) == Some(t) && Sized(t) && PhaseOf(t, c).Idle?
    requires forall i :: 0 <= i < |t.locks| ==> t.locks[i].None?
    requires holder < |t.grants| && t.grants[holder].lane < |t.ids|
    ensures Run(s, events + ReleaseEvents(c, holder), ttl) == Some(next)
    ensures var home := HomeOf(t.ids, t.grants[holder].lane);
      next == if t.slots[home].Some? && t.slots[home].value.sequence == t.grants[holder].sequence
              then t.(slots := t.slots[home := None], calls := t.calls[c := Idle],
                      grants := Retire(t.grants, home, Released(holder)))
              else t.(calls := t.calls[c := Idle])
  {
    hide Run, HomeOf, Advanced, Retire;
    var longer;
    longer, next := Extend(s, events, StartRelease(c, holder), ttl, t);
    longer, next := Extend(s, longer, TakeLock(c), ttl, next);
    longer, next := Extend(s, longer, Clear(c), ttl, next);
    assert longer == events + ReleaseEvents(c, holder);
    assert next.locks == t.locks;
    assert next.calls == t.calls[c := Idle];
  }

  // ---------- Releases that hit a successor ----------

  /**
   * `release` knows a lease only by its sequence number, so a late one can free a successor: a lease
   * expires unused, the lane is leased again under the same number, and the first holder's release
   * frees it for a third. Two leases of one lane and one number are then unexpired, neither of them
   * released by its own holder.
   */
  lemma LateReleaseFreesSuccessor(id: AccountId, n: int, ttl: nat) returns (s: Pool, events: seq<Event>, t: Pool)
    requires ttl > 0
    ensures Init(s) && Distinct(s.ids) && Run(s, events, ttl) == Some(t) && |t.grants| == 3
    ensures t.grants[0].fate.Superseded? && t.grants[1].fate == Released(0) && t.grants[2].fate.Live?
    ensures forall k :: 0 <= k < 3 ==> t.grants[k].lane == 0 && t.grants[k].sequence == n + 1
    ensures Held(t, 1) && Held(t, 2)
  {
    hide Run;
    s := Pool([id], 0, [None], [None], map[], [n], []);
    EmptyRun(s, ttl);
    t := LeasesFirstFree(s, [], ttl, s, 0, 0);
    events, t := Extend(s, [] + LeaseEvents(0, 0), Tick(ttl), ttl, t);
    t := LeasesFirstFree(s, events, ttl, t, 1, 0);
    events := events + LeaseEvents(1, 0);
    t := ReleasesIts(s, events, ttl, t, 0, 0);
    events := events + ReleaseEvents(0, 0);
    t := LeasesFirstFree(s, events, ttl, t, 2, 0);
    events := events + LeaseEvents(2, 0);
  }

  /**
   * It need not even be late: a quote submitted twice is released twice. With the clock standing still,
   * the second release of a grant that was given back properly frees the next holder's.
   */
  lemma RepeatedReleaseFreesSuccessor(id: AccountId, n: int, ttl: nat) returns (s: Pool, events: seq<Event>, t: Pool)
    requires ttl > 0
    ensures Init(s) && Distinct(s.ids) && Run(s, events, ttl) == Some(t) && t.clock == s.clock && |t.grants| == 3
    ensures t.grants[0].fate == Released(0) && t.grants[1].fate == Released(0) && t.grants[2].fate.Live?
    ensures forall k :: 0 <= k < 3 ==> t.grants[k].lane == 0 && t.grants[k].sequence == n + 1
    ensures Held(t, 1) && Held(t, 2)
  {
    hide Run;
    s := Pool([id], 0, [None], [None], map[], [n], []);
    EmptyRun(s, ttl);
    t := LeasesFirstFree(s, [], ttl, s, 0, 0);
    events := [] + LeaseEvents(0, 0);
    t := ReleasesIts(s, events, ttl, t, 0, 0);
    events := events + ReleaseEvents(0, 0);
    t := LeasesFirstFree(s, events, ttl, t, 1, 0);
    events := events + LeaseEvents(1, 0);
    t := ReleasesIts(s, events, ttl, t, 0, 0);
    events := events + ReleaseEvents(0, 0);
    t := LeasesFirstFree(s, events, ttl, t, 2, 0);
    events := events + LeaseEvents(2, 0);
  }

  // ---------- Addresses ----------

  /** The first `n` lanes leased, one call each, the clock standing still. */
  ghost predicate FirstLeased(s: Pool, t: Pool, n: nat, ttl: nat)
    requires Sized(s) && n <= |s.ids|
  {
    && Sized(t) && t.ids == s.ids && t.clock == s.clock && t.chain == s.chain && t.locks == s.locks
    && |t.grants| == n
    && (forall c :: c in t.calls ==> c < n)
    && (forall i :: n <= i < |t.slots| ==> t.slots[i].None?)
    && (forall i :: 0 <= i < n ==> t.slots[i] == Some(Lease(s.chain[i] + 1, s.clock + ttl)))
    && (forall i :: 0 <= i < n ==>
          t.grants[i] == Grant(i, s.chain[i] + 1, s.clock + ttl, s.clock, Live))
  }

  lemma {:induction false} LeaseAll(s: Pool, n: nat, ttl: nat) returns (events: seq<Event>, t: Pool)
    requires Init(s) && ttl > 0 && n <= |s.ids|
    ensures Run(s, events, ttl) == Some(t) && FirstLeased(s, t, n, ttl)
  {
    hide Run;
    if n == 0 {
      events, t := [], s;
      EmptyRun(s, ttl);
    } else {
      var front, m := LeaseAll(s, n - 1, ttl);
      t := LeasesFirstFree(s, front, ttl, m, n - 1, n - 1);
      events := front + LeaseEvents(n - 1, n - 1);
    }
  }

  /** Two lanes under one address: some run hands out the same account and number twice, both live. */
  lemma SharedAddressCollides(s: Pool, a: nat, b: nat, ttl: nat) returns (events: seq<Event>, t: Pool)
    requires Init(s) && ttl > 0 && a < b < |s.ids| && s.ids[a] == s.ids[b]
    ensures Run(s, events, ttl) == Some(t) && b < |t.grants| && Outstanding(t, a) && Outstanding(t, b)
    ensures t.grants[a].lane == a && t.grants[b].lane == b && t.ids == s.ids
    ensures t.grants[a].sequence == t.grants[b].sequence
  {
    hide Run;
    events, t := LeaseAll(s, b + 1, ttl);
  }

  ghost predicate ExclusiveByAddress(t: Pool) {
    forall j, k :: 0 <= j < k < |t.grants| && Outstanding(t, j) && Outstanding(t, k) ==>
      && t.grants[j].lane < |t.ids| && t.grants[k].lane < |t.ids|
      && t.ids[t.grants[j].lane] != t.ids[t.grants[k].lane]
  }

  ghost predicate AlwaysExclusive(s: Pool, ttl: nat) {
    forall events, t :: Run(s, events, ttl) == Some(t) ==> ExclusiveByAddress(t)
  }

  /** Every run of a pool keeps accounts exclusive exactly when its lanes have addresses of their own. */
  lemma ExclusiveExactlyWhenDistinct(s: Pool, ttl: nat)
    requires Init(s) && ttl > 0
    ensures AlwaysExclusive(s, ttl) <==> Distinct(s.ids)
  {
    hide Run, Init;
    if Distinct(s.ids) {
      forall events, t | Run(s, events, ttl) == Some(t) ensures ExclusiveByAddress(t) {
        forall j, k | 0 <= j < k < |t.grants| && Outstanding(t, j) && Outstanding(t, k)
          ensures t.grants[j].lane < |t.ids| && t.grants[k].lane < |t.ids|
          ensures t.ids[t.grants[j].lane] != t.ids[t.grants[k].lane]
        {
          LeasesExclusive(s, events, ttl, t, j, k);
        }
      }
    } else {
      var a, b :| 0 <= a < b < |s.ids| && s.ids[a] == s.ids[b];
      var events, t := SharedAddressCollides(s, a, b, ttl);
      assert !ExclusiveByAddress(t);
    }
  }
}
