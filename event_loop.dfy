/**
 * The shared event-loop group of a process, kept by a static reference count (the server's
 * boss and worker groups, and the client's group, each have their own copy of this code). The
 * group is created when the count goes from 0 to 1 and shut down when it comes back to 0.
 * Groups are named by the number of groups created before them.
 */
module EventLoop {
  import opened Basics

  /** The static count, the group field (None for null), how many groups were created, and those shut down. */
  datatype GroupState = GroupState(refCount: int, group: Option<nat>, created: nat, shutDown: seq<nat>)

  /**
   * A group exists exactly while the count is positive; it is the last one created and has not
   * been shut down; every shut-down group was created, and none was shut down twice.
   */
  predicate GroupInv(s: GroupState) {
    && (s.group.Some? <==> s.refCount >= 1)
    && (s.group.Some? ==> s.group.value + 1 == s.created && s.group.value !in s.shutDown)
    && (forall i | 0 <= i < |s.shutDown| :: s.shutDown[i] < s.created)
    && (forall i, j | 0 <= i < j < |s.shutDown| :: s.shutDown[i] != s.shutDown[j])
  }

  /** The state before any server or client was built. */
  function InitialGroupState(): (s: GroupState)
    ensures GroupInv(s) && s.refCount == 0 && s.created == 0
  {
    GroupState(0, None, 0, [])
  }

  /**
   * `acquire...EventLoopGroup`: a new group only when the count is 0, then the count goes up by
   * one; the group handed out is the group field afterwards.
   */
  function Acquire(s: GroupState): (r: GroupState)
    ensures r.refCount == s.refCount + 1 && r.shutDown == s.shutDown
    ensures s.refCount == 0 ==> r.created == s.created + 1 && r.group == Some(s.created)
    ensures s.refCount != 0 ==> r.created == s.created && r.group == s.group
    ensures GroupInv(s) ==> GroupInv(r)
    ensures GroupInv(s) ==> (r.group.None? <==> s.refCount < 0)
  {
    if s.refCount == 0 then
      GroupState(s.refCount + 1, Some(s.created), s.created + 1, s.shutDown)
    else
      s.(refCount := s.refCount + 1)
  }

  /**
   * `return...EventLoopGroup`: the count goes down by one, and the group is shut down and
   * forgotten exactly when the count reaches 0.
   */
  function Release(s: GroupState): (r: GroupState)
    requires GroupInv(s)
    ensures r.refCount == s.refCount - 1 && r.created == s.created
    ensures r.refCount == 0 ==> r.group.None? && r.shutDown == s.shutDown + [s.group.value]
    ensures r.refCount != 0 ==> r.group == s.group && r.shutDown == s.shutDown
    ensures GroupInv(r)
  {
    if s.refCount - 1 == 0 then
      GroupState(0, None, s.created, s.shutDown + [s.group.value])
    else
      s.(refCount := s.refCount - 1)
  }

  /** n acquisitions in a row. */
  function AcquireN(s: GroupState, n: nat): GroupState
    decreases n
  {
    if n == 0 then s else AcquireN(Acquire(s), n - 1)
  }

  /**
   * n acquisitions for bootstraps, each handing its group to `group(...)`: they stop at the first
   * one that hands out no group, where `group(null)` throws; the flag says whether all n got one.
   */
  function AcquireAll(s: GroupState, n: nat): (r: (GroupState, bool))
    ensures r.1 ==> r.0.refCount == s.refCount + n
    ensures !r.1 ==> n >= 1 && r.0.group.None?
    ensures r.0.shutDown == s.shutDown
    decreases n
  {
    if n == 0 then (s, true)
    else
      var s1 := Acquire(s);
      if s1.group.None? then (s1, false) else AcquireAll(s1, n - 1)
  }

  /**
   * From a count that is not negative every acquisition hands out a group, so all n succeed and
   * the state is that of n plain acquisitions; from a negative count the first one fails.
   */
  lemma {:induction false} AcquireAllOutcome(s: GroupState, n: nat)
    requires GroupInv(s)
    ensures s.refCount >= 0 ==> AcquireAll(s, n) == (AcquireN(s, n), true)
    ensures s.refCount < 0 && n >= 1 ==> AcquireAll(s, n) == (Acquire(s), false)
    decreases n
  {
    if n > 0 && s.refCount >= 0 {
      AcquireAllOutcome(Acquire(s), n - 1);
    }
  }

  /** n releases in a row. */
  function ReleaseN(s: GroupState, n: nat): GroupState
    requires GroupInv(s)
    decreases n
  {
    if n == 0 then s else ReleaseN(Release(s), n - 1)
  }

  /** Acquisitions from a positive count create nothing and shut nothing down. */
  lemma {:induction false} AcquireNFromActive(s: GroupState, n: nat)
    requires GroupInv(s) && s.refCount >= 1
    ensures var r := AcquireN(s, n);
      r.refCount == s.refCount + n && r.group == s.group && r.created == s.created && r.shutDown == s.shutDown
    decreases n
  {
    if n > 0 {
      AcquireNFromActive(Acquire(s), n - 1);
    }
  }

  /** Releases that keep the count positive shut nothing down. */
  lemma {:induction false} ReleaseNKeepsActive(s: GroupState, n: nat)
    requires GroupInv(s) && s.refCount > n
    ensures GroupInv(ReleaseN(s, n))
    ensures var r := ReleaseN(s, n);
      r.refCount == s.refCount - n && r.group == s.group && r.created == s.created && r.shutDown == s.shutDown
    decreases n
  {
    if n > 0 {
      ReleaseNKeepsActive(Release(s), n - 1);
    }
  }

  /**
   * Balanced use: starting with no users, n >= 1 acquisitions followed by n releases create
   * exactly one group, shut exactly that group down, and leave the count at 0.
   */
  lemma {:induction false} BalancedUseShutsDownOnce(s: GroupState, n: nat)
    requires GroupInv(s) && s.refCount == 0 && n >= 1
    ensures GroupInv(AcquireN(s, n))
    ensures var r := ReleaseN(AcquireN(s, n), n);
      && r.refCount == 0 && r.group.None?
      && r.created == s.created + 1
      && r.shutDown == s.shutDown + [s.created]
  {
    var a := Acquire(s);
    AcquireNFromActive(a, n - 1);
    var full := AcquireN(a, n - 1);
    assert AcquireN(s, n) == full;
    ReleaseNKeepsActive(full, n - 1);
    var last := ReleaseN(full, n - 1);
    assert last.refCount == 1;
    ReleaseNSplit(full, n - 1);
  }

  /** n releases are n - 1 releases followed by one more. */
  lemma {:induction false} ReleaseNSplit(s: GroupState, n: nat)
    requires GroupInv(s)
    ensures GroupInv(ReleaseN(s, n))
    ensures ReleaseN(s, n + 1) == Release(ReleaseN(s, n))
    decreases n
  {
    if n > 0 {
      ReleaseNSplit(Release(s), n - 1);
    }
  }

  /**
   * The static fields of one group: the server's boss group, the server's worker group, or the
   * client's group, three independent holders. Every object of a class holds a reference to the
   * same holder, as every instance sees the class's static fields.
   */
  class EventLoopGroupHolder {
    var refCount: int
    var group: Option<nat>
    var created: nat
    var shutDown: seq<nat>

    function View(): GroupState
      reads this
    {
      GroupState(refCount, group, created, shutDown)
    }

    ghost predicate Valid()
      reads this
    {
      GroupInv(View())
    }

    constructor ()
      ensures Valid() && View() == InitialGroupState()
    {
      refCount := 0;
      group := None;
      created := 0;
      shutDown := [];
    }

    /** `acquire...EventLoopGroup`. */
    method AcquireGroup() returns (g: Option<nat>)
      modifies this
      ensures View() == Acquire(old(View()))
      ensures g == group
      ensures old(Valid()) ==> Valid()
    {
      if refCount == 0 {
        group := Some(created);
        created := created + 1;
      }
      refCount := refCount + 1;
      g := group;
    }

    /** `return...EventLoopGroup`. */
    method ReturnGroup()
      requires Valid()
      modifies this
      ensures Valid() && View() == Release(old(View()))
    {
      refCount := refCount - 1;
      if refCount == 0 {
        shutDown := shutDown + [group.value];
        group := None;
      }
    }
  }
}
