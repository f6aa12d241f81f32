/**
 * The client channel pool (ProtobufRpcClientChannelPool): borrowing retries past dead connections
 * a bounded number of times, and returning puts a live connection back and invalidates a dead one.
 *
 * The generic object pool behind it is a stand-in: what successive `borrowObject` calls do is a
 * script (`supply`), and invalidations and returns are recorded in order. A borrow either hands
 * out a proxy, whose connection is live or dead, or throws, because the factory's
 * `getClientChannel` rethrew the cause of a failed connect.
 */
module ChannelPool {
  import opened Basics
  import opened Wire

  const BORROW_RETRY_COUNT: nat := 5

  /** The state of the connection under a pooled proxy, as its `isActive` reports it. */
  datatype Connection = Live | Dead

  /** A pooled proxy, told apart by an id, and the connection it wraps. */
  datatype PooledChannel = PooledChannel(id: nat, connection: Connection)

  /** What one `borrowObject` does: hand out a proxy, or throw because the factory could not connect. */
  datatype Borrowed = Lent(channel: PooledChannel) | Thrown

  /** The first k borrows each hand out a dead proxy. */
  predicate DeadPrefix(s: seq<Borrowed>, k: nat) {
    k <= |s| && forall i | 0 <= i < k :: s[i].Lent? && s[i].channel.connection == Dead
  }

  /** The borrow at k hands out a live proxy, after k dead ones. */
  predicate LiveAfterDead(s: seq<Borrowed>, k: nat) {
    k < |s| && DeadPrefix(s, k) && s[k].Lent? && s[k].channel.connection == Live
  }

  /** The proxies handed out by borrows that all hand one out. */
  function Channels(s: seq<Borrowed>): (r: seq<PooledChannel>)
    requires forall i | 0 <= i < |s| :: s[i].Lent?
    ensures |r| == |s| && forall i | 0 <= i < |s| :: s[i] == Lent(r[i])
    decreases |s|
  {
    if s == [] then [] else Channels(s[..|s| - 1]) + [s[|s| - 1].channel]
  }

  /** What the borrow loop did: the proxy it ends with (None for null), how many borrows it made, and what it invalidated. */
  datatype BorrowRun = BorrowRun(result: Option<PooledChannel>, taken: nat, invalidated: seq<PooledChannel>)

  /**
   * The loop of `getResource` from retry count `retries` on, over what the pool's borrows do
   * (`supply`; an empty supply makes `borrowObject` throw). A dead proxy is invalidated and the
   * loop goes on while fewer than BORROW_RETRY_COUNT have been dropped; a live proxy ends it; a
   * borrow that throws leaves the loop with the null it held.
   */
  function BorrowLoop(supply: seq<Borrowed>, retries: nat): (r: BorrowRun)
    requires retries < BORROW_RETRY_COUNT
    ensures r.taken <= BORROW_RETRY_COUNT - retries && r.taken <= |supply|
    ensures |r.invalidated| <= r.taken
    ensures forall i | 0 <= i < |r.invalidated| :: supply[i] == Lent(r.invalidated[i]) && r.invalidated[i].connection == Dead
    ensures r.result.Some? ==>
      && r.taken == |r.invalidated| + 1 && supply[|r.invalidated|] == Lent(r.result.value)
      && r.result.value.connection == Live
    decreases BORROW_RETRY_COUNT - retries
  {
    if |supply| == 0 then BorrowRun(None, 0, [])
    else if supply[0].Thrown? then BorrowRun(None, 1, [])
    else
      var c := supply[0].channel;
      assert supply[0] == Lent(c);
      if c.connection == Live then BorrowRun(Some(c), 1, [])
      else if retries + 1 < BORROW_RETRY_COUNT then
        var rest := BorrowLoop(supply[1..], retries + 1);
        var invalidated := [c] + rest.invalidated;
        assert forall i | 0 <= i < |invalidated| :: supply[i] == Lent(invalidated[i]) && invalidated[i].connection == Dead by {
          forall i | 0 <= i < |invalidated|
            ensures supply[i] == Lent(invalidated[i]) && invalidated[i].connection == Dead
          {
            if i > 0 {
              assert invalidated[i] == rest.invalidated[i - 1] && supply[i] == supply[1..][i - 1];
            }
          }
        }
        BorrowRun(rest.result, rest.taken + 1, invalidated)
      else
        assert c.connection == Dead;
        var run := BorrowRun(None, 1, [c]);
        assert |run.invalidated| == 1 && run.invalidated[0] == c;
        run
  }

  /** Behind a dead first borrow, the rest of the script is read one position earlier. */
  lemma DeadPrefixShift(s: seq<Borrowed>, k: nat)
    requires |s| > 0 && s[0].Lent? && s[0].channel.connection == Dead
    ensures DeadPrefix(s, k + 1) <==> DeadPrefix(s[1..], k)
    ensures LiveAfterDead(s, k + 1) <==> LiveAfterDead(s[1..], k)
  {
    if DeadPrefix(s[1..], k) {
      assert forall i | 1 <= i < k + 1 :: s[i] == s[1..][i - 1];
    }
  }

  /**
   * The loop ends with a proxy exactly when, among the borrows it may make, one hands out a live
   * proxy after nothing but dead ones.
   */
  lemma {:induction false} BorrowLoopFailsIff(supply: seq<Borrowed>, retries: nat)
    requires retries < BORROW_RETRY_COUNT
    ensures BorrowLoop(supply, retries).result.Some? <==>
      exists k | 0 <= k < Min(|supply|, BORROW_RETRY_COUNT - retries) :: LiveAfterDead(supply, k)
    decreases BORROW_RETRY_COUNT - retries
  {
    var r := BorrowLoop(supply, retries);
    if r.result.Some? {
      assert LiveAfterDead(supply, |r.invalidated|);
    } else if |supply| > 0 && supply[0].Lent? && supply[0].channel.connection == Dead && retries + 1 < BORROW_RETRY_COUNT {
      BorrowLoopFailsIff(supply[1..], retries + 1);
      NoLiveAfterDeadShift(supply, Min(|supply|, BORROW_RETRY_COUNT - retries));
    }
  }

  /** Behind a dead first borrow, no live proxy after dead ones in the first n means none in the first n - 1 of the rest. */
  lemma NoLiveAfterDeadShift(s: seq<Borrowed>, n: nat)
    requires 0 < n <= |s| && s[0].Lent? && s[0].channel.connection == Dead
    requires forall k | 0 <= k < n - 1 :: !LiveAfterDead(s[1..], k)
    ensures forall k | 0 <= k < n :: !LiveAfterDead(s, k)
  {
    forall k | 0 < k < n
      ensures !LiveAfterDead(s, k)
    {
      DeadPrefixShift(s, k - 1);
    }
  }

  /** A live proxy after k < BORROW_RETRY_COUNT dead ones is the one handed back, after the k dead ones are invalidated. */
  lemma {:induction false} LiveAfterDeadIsBorrowed(supply: seq<Borrowed>, k: nat)
    requires k < BORROW_RETRY_COUNT && LiveAfterDead(supply, k)
    ensures var r := BorrowLoop(supply, 0);
      && r.result == Some(supply[k].channel) && r.taken == k + 1
      && r.invalidated == Channels(supply[..k])
  {
    BorrowLoopFailsIff(supply, 0);
    var r := BorrowLoop(supply, 0);
    assert r.result.Some?;
    assert |r.invalidated| == k;
  }

  /**
   * A borrow that throws after k < BORROW_RETRY_COUNT dead proxies ends the loop with none: the
   * exception is swallowed, and the null still held makes `getResource` fail.
   */
  lemma {:induction false} FailedConnectEndsBorrow(supply: seq<Borrowed>, k: nat)
    requires k < BORROW_RETRY_COUNT && k < |supply| && DeadPrefix(supply, k) && supply[k] == Thrown
    ensures var r := BorrowLoop(supply, 0);
      && r.result.None? && r.taken == k + 1
      && r.invalidated == Channels(supply[..k])
  {
    SkipDeadPrefix(supply, k);
    ResumeAtThrown(supply, k);
  }

  /** BORROW_RETRY_COUNT dead proxies in a row: all of them invalidated, and no proxy. */
  lemma {:induction false} AllDeadGivesNothing(supply: seq<Borrowed>)
    requires DeadPrefix(supply, BORROW_RETRY_COUNT)
    ensures var r := BorrowLoop(supply, 0);
      && r.result.None? && r.taken == BORROW_RETRY_COUNT
      && r.invalidated == Channels(supply[..BORROW_RETRY_COUNT])
  {
    SkipDeadPrefix(supply, BORROW_RETRY_COUNT - 1);
    ResumeAtDead(supply, BORROW_RETRY_COUNT - 1);
  }

  /** The loop passes over dead proxies: after k of them it is where `Resume` at k starts. */
  lemma {:induction false} SkipDeadPrefix(supply: seq<Borrowed>, k: nat)
    requires k < BORROW_RETRY_COUNT && DeadPrefix(supply, k)
    ensures BorrowLoop(supply, 0) == Resume(supply, k)
    decreases k
  {
    if k == 0 {
      ResumeFromStart(supply);
    } else {
      assert DeadPrefix(supply, k - 1);
      SkipDeadPrefix(supply, k - 1);
      ResumeAtDead(supply, k - 1);
    }
  }

  /** When the borrows it may make hand out only dead proxies, the loop makes them all and invalidates them all. */
  lemma {:induction false} BorrowLoopExhausts(supply: seq<Borrowed>, retries: nat)
    requires retries < BORROW_RETRY_COUNT
    requires DeadPrefix(supply, Min(|supply|, BORROW_RETRY_COUNT - retries))
    ensures BorrowLoop(supply, retries).taken == Min(|supply|, BORROW_RETRY_COUNT - retries)
    ensures |BorrowLoop(supply, retries).invalidated| == Min(|supply|, BORROW_RETRY_COUNT - retries)
    decreases BORROW_RETRY_COUNT - retries
  {
    if |supply| > 0 && retries + 1 < BORROW_RETRY_COUNT {
      DeadPrefixShift(supply, Min(|supply| - 1, BORROW_RETRY_COUNT - retries - 1));
      BorrowLoopExhausts(supply[1..], retries + 1);
    }
  }

  /** The loop resumed at retry count k, after k dead proxies were dropped. */
  ghost function Resume(start: seq<Borrowed>, k: nat): BorrowRun
    requires k < BORROW_RETRY_COUNT && DeadPrefix(start, k)
  {
    var rest := BorrowLoop(start[k..], k);
    BorrowRun(rest.result, k + rest.taken, Channels(start[..k]) + rest.invalidated)
  }

  lemma ResumeFromStart(start: seq<Borrowed>)
    ensures BorrowLoop(start, 0) == Resume(start, 0)
  {
    assert start[0..] == start && start[..0] == [];
  }

  /** Where the script runs out, the loop ends with no proxy. */
  lemma ResumeAtEnd(start: seq<Borrowed>, k: nat)
    requires k == |start| && k < BORROW_RETRY_COUNT && DeadPrefix(start, k)
    ensures Resume(start, k) == BorrowRun(None, k, Channels(start[..k]))
  {
    assert Channels(start[..k]) + [] == Channels(start[..k]);
  }

  /** A borrow that throws ends the loop with no proxy. */
  lemma ResumeAtThrown(start: seq<Borrowed>, k: nat)
    requires k < |start| && k < BORROW_RETRY_COUNT && DeadPrefix(start, k) && start[k] == Thrown
    ensures Resume(start, k) == BorrowRun(None, k + 1, Channels(start[..k]))
  {
    assert start[k..][0] == start[k];
    assert Channels(start[..k]) + [] == Channels(start[..k]);
  }

  /** A live proxy ends the loop in hand. */
  lemma ResumeAtLive(start: seq<Borrowed>, k: nat)
    requires k < |start| && k < BORROW_RETRY_COUNT && DeadPrefix(start, k)
    requires start[k].Lent? && start[k].channel.connection == Live
    ensures Resume(start, k) == BorrowRun(Some(start[k].channel), k + 1, Channels(start[..k]))
  {
    assert start[k..][0] == start[k];
    assert Channels(start[..k]) + [] == Channels(start[..k]);
  }

  /** A dead proxy is dropped: the loop goes on one retry later, or ends with none after the last retry. */
  lemma ResumeAtDead(start: seq<Borrowed>, k: nat)
    requires k < |start| && k < BORROW_RETRY_COUNT && DeadPrefix(start, k)
    requires start[k].Lent? && start[k].channel.connection == Dead
    ensures DeadPrefix(start, k + 1)
    ensures Channels(start[..k + 1]) == Channels(start[..k]) + [start[k].channel]
    ensures k + 1 < BORROW_RETRY_COUNT ==> Resume(start, k) == Resume(start, k + 1)
    ensures k + 1 == BORROW_RETRY_COUNT ==> Resume(start, k) == BorrowRun(None, k + 1, Channels(start[..k + 1]))
  {
    assert start[..k + 1][..k] == start[..k];
    assert start[k..][0] == start[k];
    if k + 1 < BORROW_RETRY_COUNT {
      assert start[k..][1..] == start[k + 1..];
      var rest := BorrowLoop(start[k + 1..], k + 1);
      assert Channels(start[..k]) + ([start[k].channel] + rest.invalidated) == Channels(start[..k + 1]) + rest.invalidated;
    }
  }

/** The generic object pool, reduced to what the channel pool sees of it. */
  class ObjectPool {
    var supply: seq<Borrowed>
    var closed: bool
    var invalidated: seq<PooledChannel>
    var returned: seq<PooledChannel>

    constructor (supply: seq<Borrowed>)
      ensures this.supply == supply && !closed && invalidated == [] && returned == []
    {
      this.supply := supply;
      closed := false;
      invalidated := [];
      returned := [];
    }

    /** What `borrowObject` can still do: throw every time once the pool is closed. */
    function Available(): seq<Borrowed>
      reads this
    {
      if closed then [] else supply
    }

    /** `borrowObject`: the next proxy, or None where it throws; only an exhausted script is left as it is. */
    method BorrowObject() returns (r: Option<PooledChannel>)
      modifies this
      ensures old(Available()) == [] ==> r.None? && unchanged(this)
      ensures old(Available()) != [] ==>
        && (r.Some? <==> old(Available())[0].Lent?)
        && (r.Some? ==> r.value == old(Available())[0].channel)
        && Available() == old(Available())[1..]
      ensures closed == old(closed) && invalidated == old(invalidated) && returned == old(returned)
    {
      if closed || |supply| == 0 {
        return None;
      }
      r := if supply[0].Lent? then Some(supply[0].channel) else None;
      supply := supply[1..];
    }

    /** `invalidateObject`. */
    method InvalidateObject(c: PooledChannel)
      modifies this
      ensures invalidated == old(invalidated) + [c]
      ensures supply == old(supply) && closed == old(closed) && returned == old(returned)
    {
      invalidated := invalidated + [c];
    }

    /** `returnObject`. */
    method ReturnObject(c: PooledChannel)
      modifies this
      ensures returned == old(returned) + [c]
      ensures supply == old(supply) && closed == old(closed) && invalidated == old(invalidated)
    {
      returned := returned + [c];
    }

    /** `close`. */
    method Close()
      modifies this
      ensures closed && supply == old(supply) && invalidated == old(invalidated) && returned == old(returned)
    {
      closed := true;
    }
  }

  /** `ProtobufRpcClientChannelPool`: the pool and, when logging is on, the count of proxies out on loan. */
  class ProtobufRpcClientChannelPool {
    const pool: ObjectPool
    const loggingEnabled: bool
    var borrowedObjectCount: int

    constructor (supply: seq<Borrowed>, loggingEnabled: bool)
      ensures fresh(pool) && pool.supply == supply && !pool.closed && pool.invalidated == [] && pool.returned == []
      ensures this.loggingEnabled == loggingEnabled && borrowedObjectCount == 0
    {
      pool := new ObjectPool(supply);
      this.loggingEnabled := loggingEnabled;
      borrowedObjectCount := 0;
    }

    /**
     * `getResource`: the proxy the borrow loop ends with, or an IOException when it ends with none;
     * the pool is left as the loop leaves it, and the loan is counted when logging is on.
     */
    method GetResource() returns (r: Result<PooledChannel, Throwable>)
      modifies this, pool
      ensures var run := BorrowLoop(old(pool.Available()), 0);
        && pool.Available() == old(pool.Available())[run.taken..]
        && pool.invalidated == old(pool.invalidated) + run.invalidated
        && pool.returned == old(pool.returned) && pool.closed == old(pool.closed)
        && (run.result.None? ==> r == Failure(IOException("Unable to borrow channel resource."))
                                 && borrowedObjectCount == old(borrowedObjectCount))
        && (run.result.Some? ==> r == Success(run.result.value)
                                 && borrowedObjectCount == old(borrowedObjectCount) + (if loggingEnabled then 1 else 0))
    {
      var result := RunBorrowLoop();
      if result.None? {
        return Failure(IOException("Unable to borrow channel resource."));
      }
      if loggingEnabled {
        borrowedObjectCount := borrowedObjectCount + 1;
      }
      return Success(result.value);
    }

    /** The retry loop of `getResource`, left with the proxy in hand or null; it does what `BorrowLoop` describes. */
    method RunBorrowLoop() returns (result: Option<PooledChannel>)
      modifies pool
      ensures var run := BorrowLoop(old(pool.Available()), 0);
        && result == run.result
        && pool.Available() == old(pool.Available())[run.taken..]
        && pool.invalidated == old(pool.invalidated) + run.invalidated
        && pool.returned == old(pool.returned) && pool.closed == old(pool.closed)
    {
      ghost var start := pool.Available();
      ghost var invalidated0 := pool.invalidated;
      ghost var run := BorrowLoop(start, 0);
      result := None;
      var retryCount: nat := 0;
      var stop := false;
      ResumeFromStart(start);
      while !stop
        invariant retryCount < BORROW_RETRY_COUNT || stop
        invariant pool.returned == old(pool.returned) && pool.closed == old(pool.closed)
        invariant !stop ==>
          && DeadPrefix(start, retryCount)
          && pool.Available() == start[retryCount..]
          && pool.invalidated == invalidated0 + Channels(start[..retryCount])
          && run == Resume(start, retryCount)
        invariant stop ==>
          && result == run.result
          && pool.Available() == start[run.taken..]
          && pool.invalidated == invalidated0 + run.invalidated
        decreases if stop then 0 else BORROW_RETRY_COUNT - retryCount
      {
        result, stop := BorrowOnce(start, invalidated0, run, retryCount);
        if !stop {
          retryCount := retryCount + 1;
        }
      }
    }

    /**
     * One turn of the borrow loop at retry count `retryCount`: borrow, then keep a live proxy, or
     * invalidate a dead one and go on unless that was the last retry; a borrow that throws ends
     * the loop with nothing in hand.
     */
    method BorrowOnce(ghost start: seq<Borrowed>, ghost invalidated0: seq<PooledChannel>, ghost run: BorrowRun, retryCount: nat)
      returns (result: Option<PooledChannel>, stop: bool)
      requires retryCount < BORROW_RETRY_COUNT && DeadPrefix(start, retryCount)
      requires pool.Available() == start[retryCount..] && pool.invalidated == invalidated0 + Channels(start[..retryCount])
      requires run == Resume(start, retryCount)
      modifies pool
      ensures pool.returned == old(pool.returned) && pool.closed == old(pool.closed)
      ensures stop ==>
        && result == run.result
        && pool.Available() == start[run.taken..]
        && pool.invalidated == invalidated0 + run.invalidated
      ensures !stop ==>
        && retryCount + 1 < BORROW_RETRY_COUNT && DeadPrefix(start, retryCount + 1)
        && pool.Available() == start[retryCount + 1..]
        && pool.invalidated == invalidated0 + Channels(start[..retryCount + 1])
        && run == Resume(start, retryCount + 1)
    {
      var borrowed := pool.BorrowObject();
      if borrowed.None? {
        if retryCount == |start| {
          ResumeAtEnd(start, retryCount);
        } else {
          ResumeAtThrown(start, retryCount);
        }
        return None, true;
      }
      if borrowed.value.connection == Live {
        ResumeAtLive(start, retryCount);
        return borrowed, true;
      }
      pool.InvalidateObject(borrowed.value);
      ResumeAtDead(start, retryCount);
      return None, retryCount + 1 >= BORROW_RETRY_COUNT;
    }

    /**
     * `returnResource` (and so the proxy's `close`): the loan count goes down when logging is on;
     * a live proxy goes back to the pool and a dead one is invalidated.
     */
    method ReturnResource(c: PooledChannel)
      modifies this, pool
      ensures borrowedObjectCount == old(borrowedObjectCount) - (if loggingEnabled then 1 else 0)
      ensures pool.supply == old(pool.supply) && pool.closed == old(pool.closed)
      ensures c.connection == Live ==> pool.returned == old(pool.returned) + [c] && pool.invalidated == old(pool.invalidated)
      ensures c.connection == Dead ==> pool.invalidated == old(pool.invalidated) + [c] && pool.returned == old(pool.returned)
    {
      if loggingEnabled {
        borrowedObjectCount := borrowedObjectCount - 1;
      }
      if c.connection == Live {
        pool.ReturnObject(c);
      } else {
        pool.InvalidateObject(c);
      }
    }

    /** `close`: closes the pool, after which every borrow fails. */
    method Close()
      modifies pool
      ensures pool.closed && pool.Available() == []
      ensures pool.invalidated == old(pool.invalidated) && pool.returned == old(pool.returned)
    {
      pool.Close();
    }
  }
}
