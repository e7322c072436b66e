// The bootstrap lane pool as a protocol: calls that interleave at every await.
//
// A call reads the clock first, then takes one lane's lock after another. Only the holder of a
// lane's lock looks at its slot, asks Horizon for the account's sequence, or writes the slot.
module Lanes {
  import opened Prelude
  import opened Stellar
  import opened Names

  datatype Lease = Lease(sequence: int, expiresAt: int)

  /**
   * Where one call to `lease` or `release` stands; `now` is the clock it read on entry, `holder` the
   * grant whose quote asks for the release.
   */
  datatype Phase =
    | Idle
    | Scanning(now: int, lane: nat)
    | Holding(now: int, lane: nat)
    | HasRead(now: int, lane: nat, sequence: int)
    | Waiting(lane: nat, sequence: int, holder: nat)
    | Clearing(lane: nat, sequence: int, holder: nat)

  /** A lease ends when the release of some grant clears its slot, or when another is written over it. */
  datatype Fate = Live | Released(holder: nat) | Superseded

  /** A lease handed out at some point of the run, and what became of it. */
  datatype Grant = Grant(lane: nat, sequence: int, expiresAt: int, granted: int, fate: Fate)

  datatype Pool = Pool(
    ids: seq<AccountId>, clock: int, slots: seq<Option<Lease>>, locks: seq<Option<nat>>, calls: map<nat, Phase>,
    chain: seq<int>, grants: seq<Grant>)

  predicate Sized(s: Pool) { |s.ids| == |s.slots| == |s.locks| == |s.chain| }

  datatype Event =
    | StartLease(call: nat)
    | TakeLock(call: nat)
    | SkipBusy(call: nat)
    | AskHorizon(call: nat)
    | WriteLease(call: nat)
    | StartRelease(call: nat, holder: nat)
    | Clear(call: nat)
    | Abandon(call: nat)
    | Tick(seconds: nat)
    | ChainAdvances(lane: nat, steps: nat)

  function PhaseOf(s: Pool, call: nat): Phase { if call in s.calls then s.calls[call] else Idle }

  predicate Locked(p: Phase) { p.Holding? || p.HasRead? || p.Clearing? }

  predicate Busy(slot: Option<Lease>, now: int) { slot.Some? && slot.value.expiresAt > now }

  predicate Enabled(s: Pool, e: Event)
    requires Sized(s)
  {
    match e
    case StartLease(c) => PhaseOf(s, c).Idle?
    case TakeLock(c) =>
      var p := PhaseOf(s, c);
      (p.Scanning? || p.Waiting?) && p.lane < |s.slots| && s.locks[p.lane].None?
    case SkipBusy(c) =>
      var p := PhaseOf(s, c);
      p.Holding? && p.lane < |s.slots| && Busy(s.slots[p.lane], p.now)
    case AskHorizon(c) =>
      var p := PhaseOf(s, c);
      p.Holding? && p.lane < |s.slots| && !Busy(s.slots[p.lane], p.now)
    case WriteLease(c) => PhaseOf(s, c).HasRead? && PhaseOf(s, c).lane < |s.slots|
    case StartRelease(c, h) => PhaseOf(s, c).Idle? && h < |s.grants| && s.grants[h].lane < |s.ids|
    case Clear(c) => PhaseOf(s, c).Clearing? && PhaseOf(s, c).lane < |s.slots|
    case Abandon(c) => true
    case Tick(_) => true
    case ChainAdvances(lane, _) => lane < |s.slots|
  }

  function SetPhase(s: Pool, c: nat, p: Phase): Pool { s.(calls := s.calls[c := p]) }

  function Unlock(s: Pool, lane: nat): Pool
    requires lane < |s.locks|
  {
    s.(locks := s.locks[lane := None])
  }

  /** Whatever lease was live on a lane is live no more. */
  function Retire(grants: seq<Grant>, lane: nat, fate: Fate): (r: seq<Grant>)
    ensures |r| == |grants|
    ensures forall k :: 0 <= k < |grants| ==>
      r[k] == if grants[k].lane == lane && grants[k].fate.Live? then grants[k].(fate := fate) else grants[k]
  {
    seq(|grants|, k requires 0 <= k < |grants| =>
      if grants[k].lane == lane && grants[k].fate.Live? then grants[k].(fate := fate) else grants[k])
  }

  /** The first lane configured under an address. */
  function LaneAt(ids: seq<AccountId>, address: Address): (k: nat)
    ensures k <= |ids|
    ensures forall i :: 0 <= i < k ==> Strkey(ids[i]) != address
    ensures k < |ids| ==> Strkey(ids[k]) == address
  {
    if ids == [] || Strkey(ids[0]) == address then 0 else 1 + LaneAt(ids[1..], address)
  }

  /** Where a release of that lane goes: it carries the address, and the first match is taken. */
  function HomeOf(ids: seq<AccountId>, lane: nat): (k: nat)
    requires lane < |ids|
    ensures k <= lane && ids[k] == ids[lane]
    ensures forall i :: 0 <= i < k ==> ids[i] != ids[lane]
  {
    LaneAt(ids, Strkey(ids[lane]))
  }

  /** One account's sequence number moves, on every lane it is configured as. */
  function Advanced(ids: seq<AccountId>, chain: seq<int>, lane: nat, n: nat): (r: seq<int>)
    requires |chain| == |ids| && lane < |ids|
    ensures |r| == |chain|
    ensures forall i :: 0 <= i < |chain| ==> r[i] == if ids[i] == ids[lane] then chain[i] + n else chain[i]
  {
    seq(|chain|, i requires 0 <= i < |chain| => if ids[i] == ids[lane] then chain[i] + n else chain[i])
  }

  function After(s: Pool, e: Event, ttl: nat): Pool
    requires Sized(s) && Enabled(s, e)
  {
    match e
    case StartLease(c) => SetPhase(s, c, Scanning(s.clock, 0))
    case TakeLock(c) =>
      var p := PhaseOf(s, c);
      SetPhase(s.(locks := s.locks[p.lane := Some(c)]), c,
               if p.Scanning? then Holding(p.now, p.lane) else Clearing(p.lane, p.sequence, p.holder))
    case SkipBusy(c) =>
      var p := PhaseOf(s, c);
      SetPhase(Unlock(s, p.lane), c, Scanning(p.now, p.lane + 1))
    case AskHorizon(c) =>
      var p := PhaseOf(s, c);
      SetPhase(s, c, HasRead(p.now, p.lane, s.chain[p.lane] + 1))
    case WriteLease(c) =>
      var p := PhaseOf(s, c);
      var lease := Lease(p.sequence, p.now + ttl);
      SetPhase(Unlock(s, p.lane), c, Idle).(
        slots := s.slots[p.lane := Some(lease)],
        grants := Retire(s.grants, p.lane, Superseded) + [Grant(p.lane, p.sequence, p.now + ttl, s.clock, Live)])
    case StartRelease(c, h) => SetPhase(s, c, Waiting(HomeOf(s.ids, s.grants[h].lane), s.grants[h].sequence, h))
    case Clear(c) =>
      var p := PhaseOf(s, c);
      var done := SetPhase(Unlock(s, p.lane), c, Idle);
      if s.slots[p.lane].Some? && s.slots[p.lane].value.sequence == p.sequence then
        done.(slots := s.slots[p.lane := None], grants := Retire(s.grants, p.lane, Released(p.holder)))
      else done
    case Abandon(c) =>
      var p := PhaseOf(s, c);
      if Locked(p) && p.lane < |s.locks| then SetPhase(Unlock(s, p.lane), c, Idle) else SetPhase(s, c, Idle)
    case Tick(n) => s.(clock := s.clock + n)
    case ChainAdvances(lane, n) => s.(chain := Advanced(s.ids, s.chain, lane, n))
  }

  predicate Init(s: Pool) {
    && Sized(s)
    && (forall i :: 0 <= i < |s.slots| ==> s.slots[i].None? && s.locks[i].None?)
    && (forall i, j :: 0 <= i < |s.ids| && 0 <= j < |s.ids| && s.ids[i] == s.ids[j] ==> s.chain[i] == s.chain[j])
    && s.calls == map[] && s.grants == []
  }

  // ---------- What every step keeps ----------

  /** The lock table and the calls agree. */
  predicate LocksInv(s: Pool) {
    && Sized(s)
    && forall c :: c in s.calls && Locked(s.calls[c]) ==>
         s.calls[c].lane < |s.locks| && s.locks[s.calls[c].lane] == Some(c)
  }

  /** Clocks that were read are in the past. */
  predicate ClockInv(s: Pool) {
    forall c :: c in s.calls && (s.calls[c].Scanning? || s.calls[c].Holding? || s.calls[c].HasRead?) ==>
      s.calls[c].now <= s.clock
  }

  /** Slots hold exactly the live grants: of one lane, at most the latest. */
  predicate SlotsInv(s: Pool) {
    && (forall k :: 0 <= k < |s.grants| ==> s.grants[k].lane < |s.slots|)
    && (forall k :: 0 <= k < |s.grants| && s.grants[k].fate.Live? ==>
          s.slots[s.grants[k].lane] == Some(Lease(s.grants[k].sequence, s.grants[k].expiresAt)))
    && (forall j, k :: 0 <= j < k < |s.grants| && s.grants[j].lane == s.grants[k].lane ==> !s.grants[j].fate.Live?)
    && (forall i :: 0 <= i < |s.slots| && s.slots[i].Some? ==>
          exists k :: 0 <= k < |s.grants| && s.grants[k].fate.Live? && s.grants[k].lane == i)
  }

  /** Only the truly expired are written over, although the clock compared with is a stale one. */
  predicate DeadlineInv(s: Pool) {
    && (forall k :: 0 <= k < |s.grants| && s.grants[k].fate.Superseded? ==> s.grants[k].expiresAt <= s.clock)
    && forall c :: c in s.calls && s.calls[c].HasRead? && s.calls[c].lane < |s.slots| ==>
         !Busy(s.slots[s.calls[c].lane], s.calls[c].now)
  }

  /** Sequences on one lane never go down, and never run ahead of the chain by more than one. */
  predicate SequenceInv(s: Pool)
    requires |s.slots| == |s.chain|
  {
    && (forall k :: 0 <= k < |s.grants| && s.grants[k].lane < |s.chain| ==>
          s.grants[k].sequence <= s.chain[s.grants[k].lane] + 1)
    && (forall j, k :: 0 <= j < k < |s.grants| && s.grants[j].lane == s.grants[k].lane ==>
          s.grants[j].sequence <= s.grants[k].sequence)
    && forall c, k :: c in s.calls && s.calls[c].HasRead?
                      && 0 <= k < |s.grants| && s.grants[k].lane == s.calls[c].lane ==>
         s.grants[k].sequence <= s.calls[c].sequence
  }

  predicate ReadsInv(s: Pool)
    requires |s.slots| == |s.chain|
  {
    forall c :: c in s.calls && s.calls[c].HasRead? && s.calls[c].lane < |s.chain| ==>
      s.calls[c].sequence <= s.chain[s.calls[c].lane] + 1
  }

  /** A release in flight carries its holder's lane and number. */
  predicate HoldersInv(s: Pool) {
    forall c :: c in s.calls ==> WellHeld(s, s.calls[c])
  }

  predicate WellHeld(s: Pool, p: Phase) {
    p.Waiting? || p.Clearing? ==>
      && p.holder < |s.grants| && s.grants[p.holder].lane < |s.ids|
      && p.sequence == s.grants[p.holder].sequence && p.lane == HomeOf(s.ids, s.grants[p.holder].lane)
  }

  /** What a release has freed had the number of the grant it was made for, which came no later. */
  predicate FreedInv(s: Pool) {
    forall k :: 0 <= k < |s.grants| && s.grants[k].fate.Released? ==>
      var h := s.grants[k].fate.holder;
      h < |s.grants| && s.grants[h].lane < |s.ids|
      && s.grants[h].sequence == s.grants[k].sequence && HomeOf(s.ids, s.grants[h].lane) == s.grants[k].lane
      && (s.grants[h].lane == s.grants[k].lane ==> h <= k)
  }

  ghost predicate Inv(s: Pool) {
    && LocksInv(s) && ClockInv(s) && SlotsInv(s) && DeadlineInv(s) && SequenceInv(s) && ReadsInv(s)
    && HoldersInv(s) && FreedInv(s)
  }

  lemma StepKeepsLocks(s: Pool, e: Event, ttl: nat)
    requires LocksInv(s) && Enabled(s, e)
    ensures LocksInv(After(s, e, ttl))
  {
  }

  lemma StepKeepsClock(s: Pool, e: Event, ttl: nat)
    requires LocksInv(s) && ClockInv(s) && Enabled(s, e)
    ensures ClockInv(After(s, e, ttl))
  {
  }

  lemma WriteKeepsSlots(s: Pool, c: nat, ttl: nat)
    requires LocksInv(s) && SlotsInv(s) && Enabled(s, WriteLease(c))
    ensures SlotsInv(After(s, WriteLease(c), ttl))
  {
    hide Retire, Busy;
    var t := After(s, WriteLease(c), ttl);
    var lane, n := s.calls[c].lane, |s.grants|;
    assert t.grants[n].fate.Live? && t.grants[n].lane == lane;
    forall i | 0 <= i < |t.slots| && t.slots[i].Some?
      ensures exists k :: 0 <= k < |t.grants| && t.grants[k].fate.Live? && t.grants[k].lane == i
    {
      if i != lane {
        var k :| 0 <= k < |s.grants| && s.grants[k].fate.Live? && s.grants[k].lane == i;
        assert t.grants[k] == s.grants[k];
      }
    }
  }

  lemma ClearKeepsSlots(s: Pool, c: nat, ttl: nat)
    requires LocksInv(s) && SlotsInv(s) && Enabled(s, Clear(c))
    ensures SlotsInv(After(s, Clear(c), ttl))
  {
    hide Retire, Busy;
    var t := After(s, Clear(c), ttl);
    forall i | 0 <= i < |t.slots| && t.slots[i].Some?
      ensures exists k :: 0 <= k < |t.grants| && t.grants[k].fate.Live? && t.grants[k].lane == i
    {
      var k :| 0 <= k < |s.grants| && s.grants[k].fate.Live? && s.grants[k].lane == i;
      assert t.grants[k] == s.grants[k];
    }
  }

  lemma StepKeepsSlots(s: Pool, e: Event, ttl: nat)
    requires LocksInv(s) && SlotsInv(s) && Enabled(s, e)
    ensures SlotsInv(After(s, e, ttl))
  {
    match e
    case WriteLease(c) => WriteKeepsSlots(s, c, ttl);
    case Clear(c) => ClearKeepsSlots(s, c, ttl);
    case _ =>
  }

  /** The overwritten lease was expired by the stale clock, so it is expired by the true one. */
  lemma WriteKeepsDeadlines(s: Pool, c: nat, ttl: nat)
    requires LocksInv(s) && ClockInv(s) && SlotsInv(s) && DeadlineInv(s) && Enabled(s, WriteLease(c))
    ensures DeadlineInv(After(s, WriteLease(c), ttl))
  {
    hide Retire;
  }

  lemma StepKeepsDeadlines(s: Pool, e: Event, ttl: nat)
    requires LocksInv(s) && ClockInv(s) && SlotsInv(s) && DeadlineInv(s) && Enabled(s, e)
    ensures DeadlineInv(After(s, e, ttl))
  {
    hide Retire;
    if e.WriteLease? { WriteKeepsDeadlines(s, e.call, ttl); }
  }

  lemma WriteKeepsSequences(s: Pool, c: nat, ttl: nat)
    requires LocksInv(s) && SlotsInv(s) && SequenceInv(s) && ReadsInv(s) && Enabled(s, WriteLease(c))
    ensures SequenceInv(After(s, WriteLease(c), ttl)) && ReadsInv(After(s, WriteLease(c), ttl))
  {
    var t := After(s, WriteLease(c), ttl);
    var n := |s.grants|;
    assert forall k :: 0 <= k < n ==>
      t.grants[k].lane == s.grants[k].lane && t.grants[k].sequence == s.grants[k].sequence;
    assert t.grants[n].lane == s.calls[c].lane && t.grants[n].sequence == s.calls[c].sequence;
    assert forall d :: d in t.calls && t.calls[d].HasRead? ==> d in s.calls && t.calls[d] == s.calls[d] && d != c;
    hide Retire;
  }

  lemma AskKeepsSequences(s: Pool, c: nat, ttl: nat)
    requires LocksInv(s) && SlotsInv(s) && SequenceInv(s) && ReadsInv(s) && Enabled(s, AskHorizon(c))
    ensures SequenceInv(After(s, AskHorizon(c), ttl)) && ReadsInv(After(s, AskHorizon(c), ttl))
  {
  }

  lemma ChainKeepsSequences(s: Pool, lane: nat, n: nat, ttl: nat)
    requires LocksInv(s) && SlotsInv(s) && SequenceInv(s) && ReadsInv(s) && Enabled(s, ChainAdvances(lane, n))
    ensures SequenceInv(After(s, ChainAdvances(lane, n), ttl)) && ReadsInv(After(s, ChainAdvances(lane, n), ttl))
  {
  }

  lemma ClearKeepsSequences(s: Pool, c: nat, ttl: nat)
    requires LocksInv(s) && SlotsInv(s) && SequenceInv(s) && ReadsInv(s) && Enabled(s, Clear(c))
    ensures SequenceInv(After(s, Clear(c), ttl)) && ReadsInv(After(s, Clear(c), ttl))
  {
    var t := After(s, Clear(c), ttl);
    assert |t.grants| == |s.grants|;
    assert forall k :: 0 <= k < |s.grants| ==>
      t.grants[k].lane == s.grants[k].lane && t.grants[k].sequence == s.grants[k].sequence;
    hide Retire;
  }

  lemma OthersKeepSequences(s: Pool, t: Pool)
    requires |s.slots| == |s.chain| && SequenceInv(s) && ReadsInv(s)
    requires t.grants == s.grants && t.chain == s.chain && |t.slots| == |s.slots|
    requires forall c :: c in t.calls && t.calls[c].HasRead? ==> c in s.calls && t.calls[c] == s.calls[c]
    ensures SequenceInv(t) && ReadsInv(t)
  {
  }

  lemma StepKeepsSequences(s: Pool, e: Event, ttl: nat)
    requires LocksInv(s) && SlotsInv(s) && SequenceInv(s) && ReadsInv(s) && Enabled(s, e)
    ensures SequenceInv(After(s, e, ttl)) && ReadsInv(After(s, e, ttl))
  {
    match e
    case WriteLease(c) => WriteKeepsSequences(s, c, ttl);
    case AskHorizon(c) => AskKeepsSequences(s, c, ttl);
    case Clear(c) => ClearKeepsSequences(s, c, ttl);
    case ChainAdvances(lane, n) => ChainKeepsSequences(s, lane, n, ttl);
    case _ =>
      hide SequenceInv, ReadsInv, SlotsInv, LocksInv;
      OthersKeepSequences(s, After(s, e, ttl));
  }

  /** Grants keep their lane and number for good. */
  predicate Extends(before: seq<Grant>, after: seq<Grant>) {
    |before| <= |after|
    && forall k :: 0 <= k < |before| ==> after[k].lane == before[k].lane && after[k].sequence == before[k].sequence
  }

  lemma StepExtends(s: Pool, e: Event, ttl: nat)
    requires Sized(s) && Enabled(s, e)
    ensures Extends(s.grants, After(s, e, ttl).grants) && After(s, e, ttl).ids == s.ids
  {
    hide Busy, Advanced, HomeOf;
  }

  lemma ExtendsHolders(s: Pool, t: Pool)
    requires HoldersInv(s) && Extends(s.grants, t.grants) && t.ids == s.ids
    requires forall c :: c in t.calls ==> (c in s.calls && t.calls[c] == s.calls[c]) || WellHeld(t, t.calls[c])
    ensures HoldersInv(t)
  {
    hide HomeOf;
  }

  lemma StepKeepsHolders(s: Pool, e: Event, ttl: nat)
    requires LocksInv(s) && HoldersInv(s) && Enabled(s, e)
    ensures HoldersInv(After(s, e, ttl))
  {
    hide Busy, Advanced, HomeOf, Retire, Extends;
    StepExtends(s, e, ttl);
    ExtendsHolders(s, After(s, e, ttl));
  }

  lemma WriteKeepsFreed(s: Pool, c: nat, ttl: nat)
    requires Sized(s) && FreedInv(s) && Enabled(s, WriteLease(c))
    ensures FreedInv(After(s, WriteLease(c), ttl))
  {
    hide Busy, HomeOf;
  }

  lemma ClearKeepsFreed(s: Pool, c: nat, ttl: nat)
    requires LocksInv(s) && SlotsInv(s) && HoldersInv(s) && FreedInv(s) && Enabled(s, Clear(c))
    ensures FreedInv(After(s, Clear(c), ttl))
  {
    hide Busy, HomeOf;
    assert WellHeld(s, s.calls[c]);
  }

  lemma StepKeepsFreed(s: Pool, e: Event, ttl: nat)
    requires LocksInv(s) && SlotsInv(s) && HoldersInv(s) && FreedInv(s) && Enabled(s, e)
    ensures FreedInv(After(s, e, ttl))
  {
    hide Busy, Advanced, HomeOf, LocksInv, SlotsInv, HoldersInv, Retire;
    match e
    case WriteLease(c) => SizedOf(s); WriteKeepsFreed(s, c, ttl);
    case Clear(c) => ClearKeepsFreed(s, c, ttl);
    case _ => SizedOf(s);
  }

  lemma SizedOf(s: Pool)
    requires LocksInv(s)
    ensures Sized(s)
  {
  }

  lemma StepKeepsInv(s: Pool, e: Event, ttl: nat)
    requires Inv(s) && Enabled(s, e)
    ensures Inv(After(s, e, ttl))
  {
    hide ClockInv, SlotsInv, DeadlineInv, SequenceInv, ReadsInv, HoldersInv, FreedInv, After, Enabled;
    StepKeepsLocks(s, e, ttl);
    StepKeepsClock(s, e, ttl);
    StepKeepsSlots(s, e, ttl);
    StepKeepsDeadlines(s, e, ttl);
    StepKeepsSequences(s, e, ttl);
    StepKeepsHolders(s, e, ttl);
    StepKeepsFreed(s, e, ttl);
  }

  // ---------- Whole runs ----------

  /** The pool after a run, however its calls interleave; none if some step could not happen. */
  function Run(s: Pool, events: seq<Event>, ttl: nat): Option<Pool> {
    if events == [] then Some(s)
    else
      var t :- Run(s, events[..|events| - 1], ttl);
      if Sized(t) && Enabled(t, events[|events| - 1])
      then Some(After(t, events[|events| - 1], ttl))
      else None
  }

  lemma RunExtends(s: Pool, events: seq<Event>, e: Event, ttl: nat, t: Pool)
    requires Run(s, events, ttl) == Some(t) && Sized(t) && Enabled(t, e)
    ensures Run(s, events + [e], ttl) == Some(After(t, e, ttl))
  {
    hide Enabled, After;
    assert (events + [e])[..|events + [e]| - 1] == events;
  }

  lemma {:induction false} RunFromInv(s: Pool, events: seq<Event>, ttl: nat, t: Pool)
    requires Inv(s) && Run(s, events, ttl) == Some(t)
    ensures Inv(t) && t.ids == s.ids && Extends(s.grants, t.grants)
  {
    hide Enabled, After, Inv;
    if events == [] {
    } else {
      var front := Run(s, events[..|events| - 1], ttl).value;
      RunFromInv(s, events[..|events| - 1], ttl, front);
      StepKeepsInv(front, events[|events| - 1], ttl);
      StepExtends(front, events[|events| - 1], ttl);
    }
  }

  lemma RunKeepsInv(s: Pool, events: seq<Event>, ttl: nat, t: Pool)
    requires Init(s) && Run(s, events, ttl) == Some(t)
    ensures Inv(t) && Sized(t) && t.ids == s.ids
  {
    hide Run, Inv;
    InitInv(s);
    RunFromInv(s, events, ttl, t);
    InvSized(t);
  }

  lemma InvSized(s: Pool)
    requires Inv(s)
    ensures Sized(s)
  {
  }

  lemma InitInv(s: Pool)
    requires Init(s)
    ensures Inv(s)
  {
  }
}
