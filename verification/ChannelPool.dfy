// The lane pool as an object: lanes with a slot each, leased and released in place.
// One call here is one that nothing interleaves with; `Lanes` has the interleavings.
module ChannelPools {
  import opened Prelude
  import opened Stellar
  import opened Names
  import opened Lanes
  import opened LaneRuns

  /** What Horizon says about an account's sequence number. */
  datatype Reading = Sequence(n: int) | Unreadable | NoAccount | Down

  datatype ChannelError = PoolBusy | MissingAccount(lane: AccountId) | HorizonDown

  /** The first lane whose slot is empty or, by this clock, expired. */
  function FirstFree(slots: seq<Option<Lease>>, now: int): (k: nat)
    ensures k <= |slots|
    ensures forall i :: 0 <= i < k ==> Busy(slots[i], now)
    ensures k < |slots| ==> !Busy(slots[k], now)
  {
    if slots == [] || !Busy(slots[0], now) then 0 else 1 + FirstFree(slots[1..], now)
  }

  /** The answer to a lease: the next sequence on the first free lane, if the account can be read. */
  function Leased(slots: seq<Option<Lease>>, ids: seq<AccountId>, chain: AccountId -> Reading, now: int)
    : (r: Result<(nat, int), ChannelError>)
    requires |slots| == |ids|
    ensures r.Ok? ==> r.value.0 < |slots| && !Busy(slots[r.value.0], now)
  {
    var k := FirstFree(slots, now);
    if k == |slots| then Err(PoolBusy)
    else
      match chain(ids[k])
      case Sequence(n) => Ok((k, n + 1))
      case Down => Err(HorizonDown)
      case _ => Err(MissingAccount(ids[k]))
  }

  predicate Unexpired(slot: Option<Lease>, now: int) { slot.Some? && slot.value.expiresAt > now }

  /** Who is leased, and why nobody is: the first lane without an unexpired lease decides. */
  lemma LeasedExactly(slots: seq<Option<Lease>>, ids: seq<AccountId>, chain: AccountId -> Reading, now: int, k: nat)
    requires |slots| == |ids| && k <= |slots|
    requires (forall i :: 0 <= i < k ==> Unexpired(slots[i], now)) && (k < |slots| ==> !Unexpired(slots[k], now))
    ensures Leased(slots, ids, chain, now)
         == if k == |slots| then Err(PoolBusy)
            else match chain(ids[k])
                 case Sequence(n) => Ok((k, n + 1))
                 case Down => Err(HorizonDown)
                 case Unreadable => Err(MissingAccount(ids[k]))
                 case NoAccount => Err(MissingAccount(ids[k]))
  {
    assert forall i :: 0 <= i < |slots| ==> (Unexpired(slots[i], now) <==> Busy(slots[i], now));
    hide Busy, Unexpired;
  }

  function SlotsAfterLease(slots: seq<Option<Lease>>, ids: seq<AccountId>, chain: AccountId -> Reading, now: int,
                           ttl: nat)
    : seq<Option<Lease>>
    requires |slots| == |ids|
  {
    match Leased(slots, ids, chain, now)
    case Ok((k, sequence)) => slots[k := Some(Lease(sequence, now + ttl))]
    case Err(_) => slots
  }

  /** A release clears the slot only if the lease in it carries the same sequence number. */
  function SlotsAfterRelease(slots: seq<Option<Lease>>, ids: seq<AccountId>, address: Address, sequence: int)
    : seq<Option<Lease>>
    requires |slots| == |ids|
  {
    var k := LaneAt(ids, address);
    if k < |slots| && slots[k].Some? && slots[k].value.sequence == sequence then slots[k := None] else slots
  }

  class Lane {
    const id: AccountId
    var slot: Option<Lease>

    constructor (id: AccountId)
      ensures this.id == id && slot.None?
    {
      this.id := id;
      slot := None;
    }
  }

  class ChannelPool {
    const lanes: seq<Lane>

    ghost predicate Valid() {
      forall i, j :: 0 <= i < j < |lanes| ==> lanes[i] != lanes[j]
    }

    function Slots(): (s: seq<Option<Lease>>)
      reads lanes
      ensures |s| == |lanes| && forall i :: 0 <= i < |s| ==> s[i] == lanes[i].slot
    {
      seq(|lanes|, i requires 0 <= i < |lanes| reads lanes => lanes[i].slot)
    }

    function Ids(): (s: seq<AccountId>)
      ensures |s| == |lanes| && forall i :: 0 <= i < |s| ==> s[i] == lanes[i].id
    {
      seq(|lanes|, i requires 0 <= i < |lanes| => lanes[i].id)
    }

    constructor (keys: seq<AccountId>)
      ensures Valid() && Ids() == keys && fresh(lanes)
      ensures forall i :: 0 <= i < |lanes| ==> lanes[i].slot.None?
    {
      var made: seq<Lane> := [];
      for i := 0 to |keys|
        invariant |made| == i && forall j :: 0 <= j < i ==> made[j].id == keys[j] && made[j].slot.None?
        invariant forall j, k :: 0 <= j < k < i ==> made[j] != made[k]
        invariant forall j :: 0 <= j < i ==> fresh(made[j])
      {
        var lane := new Lane(keys[i]);
        made := made + [lane];
      }
      lanes := made;
    }

    /** `lease`: the clock was read before the first lock is taken. */
    method Lease(chain: AccountId -> Reading, now: int, ttl: nat) returns (r: Result<(AccountId, int), ChannelError>)
      requires Valid()
      modifies lanes
      ensures Slots() == SlotsAfterLease(old(Slots()), Ids(), chain, now, ttl)
      ensures r == match Leased(old(Slots()), Ids(), chain, now)
                   case Ok((k, sequence)) => Ok((Ids()[k], sequence))
                   case Err(e) => Err(e)
    {
      for i := 0 to |lanes|
        invariant forall j :: 0 <= j < i ==> Busy(Slots()[j], now)
        invariant forall j :: 0 <= j < |lanes| ==> lanes[j].slot == old(lanes[j].slot)
      {
        var lane := lanes[i];
        if !(lane.slot.Some? && lane.slot.value.expiresAt > now) {
          assert Slots() == old(Slots());
          assert FirstFree(old(Slots()), now) == i;
          match chain(lane.id) {
            case Down => return Err(HorizonDown);
            case Sequence(n) =>
              lane.slot := Some(Lanes.Lease(n + 1, now + ttl));
              return Ok((lane.id, n + 1));
            case _ => return Err(MissingAccount(lane.id));
          }
        }
      }
      assert Slots() == old(Slots());
      return Err(PoolBusy);
    }

    /** `release`: by address, then only if the sequence is still the leased one. */
    method Release(address: Address, sequence: int)
      requires Valid()
      modifies lanes
      ensures Slots() == SlotsAfterRelease(old(Slots()), Ids(), address, sequence)
    {
      for i := 0 to |lanes|
        invariant forall j :: 0 <= j < i ==> Strkey(Ids()[j]) != address
        invariant forall j :: 0 <= j < |lanes| ==> lanes[j].slot == old(lanes[j].slot)
      {
        var lane := lanes[i];
        if Strkey(lane.id) == address {
          assert LaneAt(Ids(), address) == i;
          if lane.slot.Some? && lane.slot.value.sequence == sequence { lane.slot := None; }
          return;
        }
      }
      assert Slots() == old(Slots());
    }
  }

  /** A lease and its release: the lane is free again, and the others are as they were. */
  lemma LeasedAndReleased(slots: seq<Option<Lease>>, ids: seq<AccountId>, chain: AccountId -> Reading, now: int,
                          ttl: nat)
    requires |slots| == |ids| && forall i, j :: 0 <= i < j < |ids| ==> ids[i] != ids[j]
    requires Leased(slots, ids, chain, now).Ok?
    ensures var (k, sequence) := Leased(slots, ids, chain, now).value;
      var held := SlotsAfterLease(slots, ids, chain, now, ttl);
      && held == slots[k := Some(Lease(sequence, now + ttl))]
      && SlotsAfterRelease(held, ids, Strkey(ids[k]), sequence) == slots[k := None]
  {
    var (k, _) := Leased(slots, ids, chain, now).value;
    assert LaneAt(ids, Strkey(ids[k])) == k;
  }

  // ---------- The object is the protocol, undisturbed ----------

  /** The chain's sequences as Horizon reports them, by account. */
  function ChainOf(s: Pool): AccountId -> Reading
    requires Sized(s)
  {
    id => var k := LaneAt(s.ids, Strkey(id)); if k < |s.chain| then Sequence(s.chain[k]) else NoAccount
  }

  /** Nobody holds a lock, and lanes of one account agree on its number. */
  predicate Quiet(s: Pool) {
    && Sized(s) && (forall i :: 0 <= i < |s.locks| ==> s.locks[i].None?)
    && forall i, j :: 0 <= i < |s.ids| && 0 <= j < |s.ids| && s.ids[i] == s.ids[j] ==> s.chain[i] == s.chain[j]
  }

  /**
   * The object refines the protocol: what `Lease` does to the slots is what an undisturbed call does
   * in the interleaved system, so every run of undisturbed calls is one of the runs proved safe.
   */
  lemma LeaseIsARun(s: Pool, c: nat, ttl: nat) returns (t: Pool)
    requires Quiet(s) && PhaseOf(s, c).Idle? && FirstFree(s.slots, s.clock) < |s.slots|
    ensures Run(s, [] + LeaseEvents(c, FirstFree(s.slots, s.clock)), ttl) == Some(t)
    ensures t.slots == SlotsAfterLease(s.slots, s.ids, ChainOf(s), s.clock, ttl)
    ensures t.locks == s.locks && PhaseOf(t, c).Idle? && |t.grants| == |s.grants| + 1
  {
    hide Run, ScanEvents;
    EmptyRun(s, ttl);
    var k := FirstFree(s.slots, s.clock);
    t := LeasesFirstFree(s, [], ttl, s, c, k);
    assert s.ids[LaneAt(s.ids, Strkey(s.ids[k]))] == s.ids[k];
  }

  /** So is a refusal: every lane busy, or the first free one with an account that cannot be read. */
  lemma RefusalIsARun(s: Pool, c: nat, chain: AccountId -> Reading, ttl: nat) returns (events: seq<Event>, t: Pool)
    requires Quiet(s) && PhaseOf(s, c).Idle? && Leased(s.slots, s.ids, chain, s.clock).Err?
    ensures Run(s, events, ttl) == Some(t)
    ensures t == s.(calls := s.calls[c := Idle])
    ensures t.slots == SlotsAfterLease(s.slots, s.ids, chain, s.clock, ttl)
  {
    hide Run, ScanEvents, Retire, HomeOf, Advanced;
    EmptyRun(s, ttl);
    var k := FirstFree(s.slots, s.clock);
    t := Scans(s, [], ttl, s, c, k);
    events := [] + ScanEvents(c, k);
    if k < |s.slots| { events, t := Extend(s, events, TakeLock(c), ttl, t); }
    events, t := Extend(s, events, Abandon(c), ttl, t);
    assert t.locks == s.locks;
    assert t.calls == s.calls[c := Idle];
  }

  /** And a release. */
  lemma ReleaseIsARun(s: Pool, c: nat, holder: nat, ttl: nat) returns (t: Pool)
    requires Quiet(s) && PhaseOf(s, c).Idle? && holder < |s.grants| && s.grants[holder].lane < |s.ids|
    ensures Run(s, [] + ReleaseEvents(c, holder), ttl) == Some(t)
    ensures var grant := s.grants[holder];
      t.slots == SlotsAfterRelease(s.slots, s.ids, Strkey(s.ids[grant.lane]), grant.sequence)
    ensures t.locks == s.locks && PhaseOf(t, c).Idle? && |t.grants| == |s.grants|
  {
    hide Run, Retire;
    EmptyRun(s, ttl);
    t := ReleasesIts(s, [], ttl, s, c, holder);
  }
}
