/** The pool of channel ids: an ordered set that always gives out its smallest id, and the default
    channel that follows the first id taken. */
module ChannelIds {
  import opened Prelude

  datatype Pool = Pool(available: set<ChannelId>, defaultChannel: Option<ChannelId>)

  datatype PoolError = MaxChannelsCountReached

  /** The ids from `n` on. */
  function IdsFrom(n: nat): (s: set<ChannelId>)
    ensures forall c: ChannelId :: c in s <==> n <= c
    decreases MAX_CHANNEL_COUNT - n
  {
    if n >= MAX_CHANNEL_COUNT then {} else {n} + IdsFrom(n + 1)
  }

  function AllIds(): set<ChannelId> {
    IdsFrom(0)
  }

  function FreshPool(): Pool {
    Pool(AllIds(), None)
  }

  /** The smallest member that is at least `from`. */
  function LeastFrom(s: set<ChannelId>, from: ChannelId): (m: ChannelId)
    requires exists c :: c in s && from <= c
    ensures m in s && from <= m
    ensures forall c :: c in s && from <= c ==> m <= c
    decreases MAX_CHANNEL_COUNT - from
  {
    if from in s then from else LeastFrom(s, from + 1)
  }

  function Least(s: set<ChannelId>): (m: ChannelId)
    requires s != {}
    ensures m in s
    ensures forall c :: c in s ==> m <= c
  {
    assert exists c :: c in s && 0 <= c;
    LeastFrom(s, 0)
  }

  /** `take_id`. */
  function Take(p: Pool): (Result<ChannelId, PoolError>, Pool) {
    if p.available == {} then (Err(MaxChannelsCountReached), p)
    else
      var id := Least(p.available);
      (Ok(id), Pool(p.available - {id}, if p.defaultChannel.None? then Some(id) else p.defaultChannel))
  }

  /** `release_id`. */
  function Release(p: Pool, id: ChannelId): Pool {
    Pool(p.available + {id}, if p.defaultChannel == Some(id) then None else p.defaultChannel)
  }

  /** Taking an id and giving it straight back restores the whole pool, the default channel
      included, unless that free id had been made the default by hand. */
  lemma TakeThenRelease(p: Pool)
    requires p.available != {}
    ensures var (id, q) := Take(p);
            Release(q, id.value) == p <==> p.defaultChannel != Some(Least(p.available))
  {
    var id := Least(p.available);
    assert p.available - {id} + {id} == p.available;
  }

  /** The pool after a fresh pool gave out `n` ids. */
  function AfterTaking(n: nat): Pool {
    Pool(IdsFrom(n), if n == 0 then None else Some(0))
  }

  /** A fresh pool gives out 0, 1, 2, ... and its first id stays the default. */
  lemma TakesInOrder(n: nat)
    requires n < MAX_CHANNEL_COUNT
    ensures Take(AfterTaking(n)) == (Ok(n), AfterTaking(n + 1))
    ensures FreshPool() == AfterTaking(0)
  {
    assert n in IdsFrom(n);
    assert IdsFrom(n) - {n} == IdsFrom(n + 1);
  }

  lemma {:induction false} IdCount(n: nat)
    requires n <= MAX_CHANNEL_COUNT
    ensures |IdsFrom(n)| == MAX_CHANNEL_COUNT - n
    decreases MAX_CHANNEL_COUNT - n
  {
    if n < MAX_CHANNEL_COUNT {
      IdCount(n + 1);
      var rest := IdsFrom(n + 1);
      assert IdsFrom(n) == {n} + rest && n !in rest;
      hide IdsFrom;
    }
  }

  /** A default channel that was never set by hand is never a free id. */
  predicate DefaultTaken(p: Pool) {
    p.defaultChannel.Some? ==> p.defaultChannel.value !in p.available
  }

  class ChannelsIdsPool {
    var available: set<ChannelId>
    var defaultChannel: Option<ChannelId>

    ghost function State(): Pool
      reads this
    {
      Pool(available, defaultChannel)
    }

    constructor ()
      ensures State() == FreshPool()
    {
      available := AllIds();
      defaultChannel := None;
    }

    /** Assigning a new pool over this one. */
    method Reset()
      modifies this
      ensures State() == FreshPool()
    {
      available := AllIds();
      defaultChannel := None;
    }

    method TakeId() returns (r: Result<ChannelId, PoolError>)
      modifies this
      ensures (r, State()) == Take(old(State()))
    {
      if available == {} {
        return Err(MaxChannelsCountReached);
      }
      var id := Least(available);
      available := available - {id};
      if defaultChannel.None? {
        defaultChannel := Some(id);
      }
      return Ok(id);
    }

    method ReleaseId(id: ChannelId)
      modifies this
      ensures State() == Release(old(State()), id)
    {
      available := available + {id};
      if defaultChannel == Some(id) {
        defaultChannel := None;
      }
    }

    method SetDefaultChannel(id: ChannelId)
      modifies this
      ensures State() == old(State()).(defaultChannel := Some(id))
    {
      defaultChannel := Some(id);
    }
  }
}
