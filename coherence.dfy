/**
 * The coherence protocol of `_data_host_view`, stated on values.
 *
 * A `Cache` is everything one view can observe: the shared cache-state cell,
 * the home buffer (absent for a view built directly around a device buffer),
 * the device ("CL") buffer and `buffer_size`. Each operation of the view is a
 * function from the cache before to a `Step`: the cache after, the copy that
 * was made (so that a test can count copies) and the address handed back
 * to the caller. The class in module HsaManage is proved to
 * follow these functions; the lemmas here say what the protocol guarantees.
 */
module Coherence {
  import opened Wrappers
  import opened Memory

  /** The shared cache-state cell's three values. */
  datatype CacheState =
    | HostOwned  // the home buffer is newest; the device buffer must be refreshed before a kernel runs
    | ClOwned    // a kernel may have written the device buffer; the home buffer is stale
    | Shared     // both buffers hold the newest bytes

  datatype Cache = Cache(state: CacheState, home: Option<seq<bv8>>, device: seq<bv8>, size: nat)

  /** Which copy an operation made, and how many bytes it moved. */
  datatype Transfer = NoCopy | HomeToDevice(bytes: nat) | DeviceToHome(bytes: nat)

  /** Which pointer an operation returned: the home pointer, the device pointer, or none / null. */
  datatype Address = HomeAddress | DeviceAddress | NoAddress

  datatype Step = Step(after: Cache, transfer: Transfer, addr: Address)

  /** `buffer_size` fits both buffers, and a view without a home buffer has `buffer_size` 0. */
  predicate WellFormed(c: Cache)
  {
    && c.size <= |c.device|
    && (c.home.None? ==> c.size == 0)
    && (c.home.Some? ==> c.size <= |c.home.value|)
  }

  /** `d` has the same buffers as `c`: same presence, same lengths, same `buffer_size`. */
  predicate SameShape(c: Cache, d: Cache)
  {
    && d.size == c.size
    && |d.device| == |c.device|
    && d.home.Some? == c.home.Some?
    && (c.home.Some? ==> |d.home.value| == |c.home.value|)
  }

  /** The bytes a reader must see: the device copy while a kernel owns it, the home copy otherwise. */
  function Latest(c: Cache): seq<bv8>
    requires WellFormed(c)
  {
    if c.state == ClOwned || c.home.None? then c.device[..c.size] else c.home.value[..c.size]
  }

  /** The protocol invariant: in SHARED state both buffers agree on the first `buffer_size` bytes. */
  predicate Coherent(c: Cache)
  {
    && WellFormed(c)
    && (c.state == Shared && c.home.Some? ==> c.home.value[..c.size] == c.device[..c.size])
  }

  /** The first `buffer_size` bytes at the address a step handed out. */
  function Seen(r: Step): seq<bv8>
    requires WellFormed(r.after)
  {
    match r.addr
    case HomeAddress => if r.after.home.Some? then r.after.home.value[..r.after.size] else []
    case DeviceAddress => r.after.device[..r.after.size]
    case NoAddress => []
  }

  /** `refresh`: copy home to device when there is a home buffer; the state cell is never written. */
  function RefreshStep(c: Cache): (r: Step)
    requires WellFormed(c)
    ensures SameShape(c, r.after) && WellFormed(r.after)
    ensures r.after.state == c.state && r.after.home == c.home && r.addr == NoAddress
    ensures c.home.Some? ==>
      && r.transfer == HomeToDevice(c.size)
      && r.after.device[..c.size] == c.home.value[..c.size]
      && r.after.device[c.size..] == c.device[c.size..]
    ensures c.home.None? ==> r.after == c && r.transfer == NoCopy
  {
    match c.home
    case Some(h) => Step(c.(device := Copied(c.device, h, c.size)), HomeToDevice(c.size), NoAddress)
    case None => Step(c, NoCopy, NoAddress)
  }

  /**
   * `synchronize`: in CL_OWNED, copy device to home and move to SHARED;
   * otherwise change nothing. A view without a home buffer still moves to
   * SHARED (its copy moves `buffer_size` = 0 bytes).
   */
  function SynchronizeStep(c: Cache): (r: Step)
    requires WellFormed(c)
    ensures SameShape(c, r.after) && WellFormed(r.after)
    ensures r.after.device == c.device && r.addr == NoAddress
    ensures r.after.state == (if c.state == ClOwned then Shared else c.state)
    ensures c.state == ClOwned ==> r.transfer == DeviceToHome(c.size)
    ensures c.state == ClOwned && c.home.Some? ==>
      && r.after.home.value[..c.size] == c.device[..c.size]
      && r.after.home.value[c.size..] == c.home.value[c.size..]
    ensures c.state != ClOwned ==> r.after == c && r.transfer == NoCopy
  {
    if c.state == ClOwned then
      var home := match c.home
        case Some(h) => Some(Copied(h, c.device, c.size))
        case None => None;
      Step(c.(state := Shared, home := home), DeviceToHome(c.size), NoAddress)
    else
      Step(c, NoCopy, NoAddress)
  }

  /**
   * `get_mutable`: with a home buffer, synchronize, force HOST_OWNED and
   * return the home pointer; without one, return the device pointer and
   * change nothing.
   */
  function GetMutableStep(c: Cache): (r: Step)
    requires WellFormed(c)
    ensures SameShape(c, r.after) && WellFormed(r.after) && r.after.device == c.device
    ensures c.home.Some? ==>
      && r.after.state == HostOwned
      && r.addr == HomeAddress
      && r.after.home == SynchronizeStep(c).after.home
      && r.transfer == SynchronizeStep(c).transfer
    ensures c.home.None? ==> r == Step(c, NoCopy, DeviceAddress)
  {
    if c.home.Some? then
      var s := SynchronizeStep(c);
      Step(s.after.(state := HostOwned), s.transfer, HomeAddress)
    else
      Step(c, NoCopy, DeviceAddress)
  }

  /**
   * Const `get`: with a home buffer, synchronize and return the home pointer;
   * without one, return the device pointer. The state is never forced to
   * HOST_OWNED.
   */
  function GetConstStep(c: Cache): (r: Step)
    requires WellFormed(c)
    ensures SameShape(c, r.after) && WellFormed(r.after) && r.after.device == c.device
    ensures c.home.Some? ==> r == SynchronizeStep(c).(addr := HomeAddress)
    ensures c.home.None? ==> r == Step(c, NoCopy, DeviceAddress)
    ensures r.after.state == HostOwned <==> c.state == HostOwned
    ensures r.after.state == (if c.state == ClOwned && c.home.Some? then Shared else c.state)
  {
    if c.home.Some? then SynchronizeStep(c).(addr := HomeAddress) else Step(c, NoCopy, DeviceAddress)
  }

  /** `get_home_ptr`: as `get_mutable` with a home buffer; a null pointer and no change without one. */
  function GetHomePtrStep(c: Cache): (r: Step)
    requires WellFormed(c)
    ensures SameShape(c, r.after) && WellFormed(r.after)
    ensures c.home.Some? ==> r == GetMutableStep(c) && r.addr == HomeAddress && r.after.state == HostOwned
    ensures c.home.None? ==> r == Step(c, NoCopy, NoAddress)
  {
    if c.home.Some? then GetMutableStep(c) else Step(c, NoCopy, NoAddress)
  }

  /**
   * `__cxxamp_serialize`, marshal-for-kernel: with a home buffer in
   * HOST_OWNED, copy home to device and move to CL_OWNED; in every case hand
   * out the device pointer.
   */
  function SerializeStep(c: Cache): (r: Step)
    requires WellFormed(c)
    ensures SameShape(c, r.after) && WellFormed(r.after)
    ensures r.addr == DeviceAddress && r.after.home == c.home
    ensures c.home.Some? && c.state == HostOwned ==>
      && r.after.state == ClOwned
      && r.transfer == HomeToDevice(c.size)
      && r.after.device[..c.size] == c.home.value[..c.size]
      && r.after.device[c.size..] == c.device[c.size..]
    ensures !(c.home.Some? && c.state == HostOwned) ==> r.after == c && r.transfer == NoCopy
  {
    if c.home.Some? && c.state == HostOwned then
      Step(c.(device := Copied(c.device, c.home.value, c.size), state := ClOwned),
           HomeToDevice(c.size), DeviceAddress)
    else
      Step(c, NoCopy, DeviceAddress)
  }

  /**
   * Marshal-for-kernel as the CL_OWNED comment of the cache-state enum
   * intends it: a view handed to a kernel is presumed dirtied by it. As
   * `SerializeStep`, a HOST_OWNED home buffer is first copied to the device;
   * unlike it, every view with a home buffer ends CL_OWNED, from SHARED too.
   */
  function SerializeCorrectedStep(c: Cache): (r: Step)
    requires WellFormed(c)
    ensures SameShape(c, r.after) && WellFormed(r.after)
    ensures r.addr == DeviceAddress && r.after.home == c.home
    ensures c.home.Some? ==> r.after.state == ClOwned
    ensures c.home.Some? && c.state == HostOwned ==>
      && r.transfer == HomeToDevice(c.size)
      && r.after.device[..c.size] == c.home.value[..c.size]
      && r.after.device[c.size..] == c.device[c.size..]
    ensures c.home.Some? && c.state != HostOwned ==> r.after.device == c.device && r.transfer == NoCopy
    ensures c.home.None? ==> r.after == c && r.transfer == NoCopy
  {
    if c.home.Some? && c.state != HostOwned then
      Step(c.(state := ClOwned), NoCopy, DeviceAddress)
    else
      SerializeStep(c)
  }

  // ---------------------------------------------------------------------------
  // Properties of single operations
  // ---------------------------------------------------------------------------

  /** A second `synchronize` right after the first copies nothing and changes nothing. */
  lemma SynchronizeIdempotent(c: Cache)
    requires WellFormed(c)
    ensures SynchronizeStep(SynchronizeStep(c).after) == Step(SynchronizeStep(c).after, NoCopy, NoAddress)
    ensures SynchronizeStep(c).after.state != ClOwned
  {
  }

  /** Two const `get`s in a row: the second copies nothing and leaves the cache as the first left it. */
  lemma GetConstTwiceCopiesOnce(c: Cache)
    requires WellFormed(c)
    ensures var first := GetConstStep(c).after;
      GetConstStep(first).transfer == NoCopy && GetConstStep(first).after == first
  {
  }

  /**
   * Marshal flips ownership once: from HOST_OWNED with a home buffer the
   * first call copies home to device and leaves CL_OWNED; a second call with
   * nothing in between copies nothing.
   */
  lemma SerializeTwiceCopiesOnce(c: Cache)
    requires WellFormed(c)
    ensures var first := SerializeStep(c);
      && SerializeStep(first.after).transfer == NoCopy
      && SerializeStep(first.after).after == first.after
      && (c.home.Some? && c.state == HostOwned ==> first.after.state == ClOwned && first.transfer == HomeToDevice(c.size))
  {
  }

  /**
   * `refresh` makes the home bytes the newest and restores the invariant,
   * whatever the state: this is how a home buffer written behind the view's
   * back is pushed out again.
   */
  lemma RefreshPublishesHome(c: Cache)
    requires WellFormed(c) && c.home.Some?
    ensures Coherent(RefreshStep(c).after)
    ensures Latest(RefreshStep(c).after) == c.home.value[..c.size]
  {
  }

  /**
   * Every accessor of a coherent cache hands out an address holding the
   * newest bytes: the home pointer from `get`, `get_mutable` and
   * `get_home_ptr`, the device pointer from marshal-for-kernel.
   */
  lemma AccessorsSeeLatest(c: Cache)
    requires Coherent(c)
    ensures Seen(GetConstStep(c)) == Latest(c)
    ensures Seen(GetMutableStep(c)) == Latest(c)
    ensures c.home.Some? ==> Seen(GetHomePtrStep(c)) == Latest(c)
    ensures Seen(SerializeStep(c)) == Latest(c)
  {
  }

  // ---------------------------------------------------------------------------
  // Runs of operations under the access discipline
  // ---------------------------------------------------------------------------

  /** The view's operations, and the writes the host and a kernel make through the pointers they were handed. */
  datatype Op =
    | Refresh
    | Synchronize
    | GetMutable
    | GetConst
    | GetHomePtr
    | Serialize
    | SerializeCorrected            // marshal as `SerializeCorrectedStep` defines it
    | HostWrite(at: nat, b: bv8)    // a store through the home pointer
    | KernelWrite(at: nat, b: bv8)  // a store by a kernel into the device buffer

  /**
   * The access discipline the view relies on: the host stores into the home
   * buffer only after `get_mutable` made it HOST_OWNED, a kernel stores only
   * into a device buffer that marshal made CL_OWNED, and `refresh` is not
   * used while a kernel's bytes are still only on the device.
   */
  predicate Permitted(c: Cache, op: Op)
  {
    match op
    case Refresh => c.state != ClOwned
    case HostWrite(at, _) => c.home.Some? && c.state == HostOwned && at < c.size
    case KernelWrite(at, _) => c.state == ClOwned && at < c.size
    case _ => true
  }

  function Apply(c: Cache, op: Op): (r: Step)
    requires WellFormed(c)
    ensures SameShape(c, r.after) && WellFormed(r.after)
  {
    match op
    case Refresh => RefreshStep(c)
    case Synchronize => SynchronizeStep(c)
    case GetMutable => GetMutableStep(c)
    case GetConst => GetConstStep(c)
    case GetHomePtr => GetHomePtrStep(c)
    case Serialize => SerializeStep(c)
    case SerializeCorrected => SerializeCorrectedStep(c)
    case HostWrite(at, b) =>
      if c.home.Some? && at < |c.home.value|
      then Step(c.(home := Some(c.home.value[at := b])), NoCopy, NoAddress)
      else Step(c, NoCopy, NoAddress)
    case KernelWrite(at, b) =>
      if at < |c.device| then Step(c.(device := c.device[at := b]), NoCopy, NoAddress)
      else Step(c, NoCopy, NoAddress)
  }

  /** The effect of one operation on the logical contents: only the two writes change them. */
  function Write(s: seq<bv8>, op: Op): seq<bv8>
  {
    match op
    case HostWrite(at, b) => if at < |s| then s[at := b] else s
    case KernelWrite(at, b) => if at < |s| then s[at := b] else s
    case _ => s
  }

  /** The cache after the operations of `ops`, in order; the buffers keep their shape throughout. */
  function Run(c: Cache, ops: seq<Op>): (r: Cache)
    requires WellFormed(c)
    ensures WellFormed(r) && SameShape(c, r)
    decreases |ops|
  {
    if ops == [] then c else Run(Apply(c, ops[0]).after, ops[1..])
  }

  predicate PermittedRun(c: Cache, ops: seq<Op>)
    requires WellFormed(c)
    decreases |ops|
  {
    ops == [] || (Permitted(c, ops[0]) && PermittedRun(Apply(c, ops[0]).after, ops[1..]))
  }

  function Replay(s: seq<bv8>, ops: seq<Op>): seq<bv8>
    decreases |ops|
  {
    if ops == [] then s else Replay(Write(s, ops[0]), ops[1..])
  }

  /**
   * One permitted operation keeps the invariant, and changes the newest
   * bytes exactly as its write does: the coherence operations never lose or
   * invent a byte.
   */
  lemma StepKeepsLatest(c: Cache, op: Op)
    requires Coherent(c) && Permitted(c, op)
    ensures Coherent(Apply(c, op).after)
    ensures Latest(Apply(c, op).after) == Write(Latest(c), op)
  {
  }

  /**
   * Coherence after write-then-read, for any permitted run: the invariant
   * holds throughout, and the newest bytes at the end are the starting bytes
   * with every host and kernel write replayed in order.
   */
  lemma {:induction false} RunKeepsLatest(c: Cache, ops: seq<Op>)
    requires Coherent(c) && PermittedRun(c, ops)
    ensures Coherent(Run(c, ops))
    ensures Latest(Run(c, ops)) == Replay(Latest(c), ops)
    decreases |ops|
  {
    if ops != [] {
      StepKeepsLatest(c, ops[0]);
      RunKeepsLatest(Apply(c, ops[0]).after, ops[1..]);
    }
  }

  /** A run of two operations is the second applied after the first. */
  lemma RunOfTwo(c: Cache, first: Op, second: Op)
    requires WellFormed(c)
    ensures var mid := Apply(c, first).after;
      && Run(c, [first, second]) == Apply(mid, second).after
      && (PermittedRun(c, [first, second]) <==> Permitted(c, first) && Permitted(mid, second))
      && (forall s :: Replay(s, [first, second]) == Write(Write(s, first), second))
  {
    var ops := [first, second];
    var mid := Apply(c, first).after;
    assert ops[1..] == [second] && [second][1..] == [];
    assert Run(c, ops) == Run(mid, [second]) == Run(Apply(mid, second).after, []);
    assert PermittedRun(c, ops) == (Permitted(c, first) && PermittedRun(mid, [second]));
    assert PermittedRun(mid, [second]) == (Permitted(mid, second) && PermittedRun(Apply(mid, second).after, []));
    forall s
      ensures Replay(s, ops) == Write(Write(s, first), second)
    {
      assert Replay(s, ops) == Replay(Write(s, first), [second]);
      assert Replay(Write(s, first), [second]) == Replay(Write(Write(s, first), second), []);
    }
  }

  /**
   * The write-then-read scenario through one view: take the mutable home
   * pointer, store a byte, then read through const `get` twice. The read
   * sees the byte and no other byte moved, and the second read copies
   * nothing.
   */
  lemma WriteThenRead(c: Cache, at: nat, b: bv8)
    requires Coherent(c) && c.home.Some? && at < c.size
    ensures var written := Run(c, [GetMutable, HostWrite(at, b)]);
      var first := GetConstStep(written);
      && Seen(first) == Latest(c)[at := b]
      && Seen(first)[at] == b
      && GetConstStep(first.after).transfer == NoCopy
  {
    var ops := [GetMutable, HostWrite(at, b)];
    RunOfTwo(c, GetMutable, HostWrite(at, b));
    RunKeepsLatest(c, ops);
    var written := Run(c, ops);
    AccessorsSeeLatest(written);
  }

  // ---------------------------------------------------------------------------
  // A kernel store after marshalling a SHARED view
  // ---------------------------------------------------------------------------

  /**
   * As written, marshalling a SHARED view leaves it SHARED. A kernel then
   * stores into the device buffer, and the next const `get` copies nothing:
   * the home address it hands out does not hold the kernel's byte.
   */
  lemma SharedMarshalLosesKernelWrite(c: Cache, at: nat, b: bv8)
    requires Coherent(c) && c.home.Some? && c.state == Shared && at < c.size && c.device[at] != b
    ensures var k := Apply(SerializeStep(c).after, KernelWrite(at, b)).after;
      && !Permitted(SerializeStep(c).after, KernelWrite(at, b))
      && GetConstStep(k).transfer == NoCopy
      && Seen(GetConstStep(k))[at] != b
  {
  }

  /**
   * With the corrected marshal, a kernel may store after any marshal of a
   * view with a home buffer, whatever its state was, and the next const
   * `get` hands out exactly the starting bytes with that store applied.
   */
  lemma CorrectedMarshalKeepsKernelWrite(c: Cache, at: nat, b: bv8)
    requires Coherent(c) && c.home.Some? && at < c.size
    ensures var ops := [SerializeCorrected, KernelWrite(at, b)];
      && PermittedRun(c, ops)
      && Seen(GetConstStep(Run(c, ops))) == Latest(c)[at := b]
  {
    var ops := [SerializeCorrected, KernelWrite(at, b)];
    RunOfTwo(c, SerializeCorrected, KernelWrite(at, b));
    RunKeepsLatest(c, ops);
    AccessorsSeeLatest(Run(c, ops));
  }
}
