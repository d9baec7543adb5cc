/**
 * `_data_host_view`: a handle mirroring a byte buffer between a home buffer
 * in host memory and a reference-counted device ("CL") buffer, with a
 * cache-state cell shared by every alias of the view.
 *
 * The shared cell is a `StateCell` object and the shared device buffer a
 * `DeviceBuffer` object carrying its use count; copying a view copies the
 * references, so a transition made through one alias is seen by all. Each
 * operation is proved to move the view's observable cache (`Abs`) exactly as
 * the matching function of module Coherence says, and to write nothing
 * outside its `modifies` clause.
 */
module HsaManage {
  import opened Wrappers
  import opened Memory
  import opened Coherence

  /** The cell `state_ptr` points to. */
  class StateCell {
    var value: CacheState

    constructor (value: CacheState)
      ensures this.value == value
    {
      this.value := value;
    }
  }

  /** How the device buffer is released once its last owner drops it. */
  datatype Deleter =
    | DefaultDelete         // the `shared_ptr` default
    | CustomDeleter(id: nat)  // a caller-supplied deleter, known only by name

  /** The buffer `cl_buffer` points to, with the use count of the `shared_ptr`s that own it. */
  class DeviceBuffer {
    const data: array<bv8>
    const deleter: Deleter
    var useCount: nat

    constructor (data: array<bv8>, deleter: Deleter)
      ensures this.data == data && this.deleter == deleter && useCount == 1
    {
      this.data := data;
      this.deleter := deleter;
      useCount := 1;
    }
  }

  class DataHostView {
    var device: DeviceBuffer?  // cl_buffer; null after `reset`
    var state: StateCell?      // state_ptr; null after `reset`
    const home: array?<bv8>    // home_ptr; null for a view built around a device buffer alone
    const size: nat            // buffer_size, in bytes

    /**
     * The view holds both shared references or neither; `buffer_size` fits
     * both buffers; a view without a home buffer has `buffer_size` 0; the
     * home and device buffers are distinct memory.
     */
    ghost predicate Valid()
      reads this, device
    {
      && (device == null <==> state == null)
      && (home == null ==> size == 0)
      && (home != null ==> size <= home.Length)
      && (device != null ==> 1 <= device.useCount && size <= device.data.Length && home != device.data)
    }

    /** The view still holds its device buffer and state cell (it was not `reset`). */
    predicate Live()
      reads this
    {
      device != null
    }

    /** What the view observes: the shared state, the home bytes, the device bytes and `buffer_size`. */
    ghost function Abs(): (c: Cache)
      requires Valid() && Live()
      reads this, device, state, device.data, home
      ensures WellFormed(c)
    {
      Cache(state.value, if home == null then None else Some(home[..]), device.data[..], size)
    }

    /** The pointer an `Address` of module Coherence stands for in this view. */
    function AddressOf(a: Address): array?<bv8>
      reads this, device
    {
      match a
      case HomeAddress => home
      case DeviceAddress => if device == null then null else device.data
      case NoAddress => null
    }

    /**
     * A view of a home buffer, mirrored by a device buffer `cache` that the
     * view now owns and releases through `deleter`. The state starts
     * HOST_OWNED: the home buffer is newest.
     */
    constructor FromHome(cache: array<bv8>, deleter: Deleter, home: array<bv8>, size: nat)
      requires size <= cache.Length && size <= home.Length && cache != home
      ensures Valid() && Live() && fresh(device) && fresh(state)
      ensures device.data == cache && device.deleter == deleter && device.useCount == 1
      ensures this.home == home && this.size == size
      ensures Abs() == Cache(HostOwned, Some(home[..]), cache[..], size)
    {
      this.home := home;
      this.size := size;
      device := new DeviceBuffer(cache, deleter);
      state := new StateCell(HostOwned);
    }

    /**
     * A view of a device buffer alone (no home buffer, `buffer_size` 0). The
     * state starts CL_OWNED: the device buffer is the only copy.
     */
    constructor FromDevice(cache: array<bv8>, deleter: Deleter)
      ensures Valid() && Live() && fresh(device) && fresh(state)
      ensures device.data == cache && device.deleter == deleter && device.useCount == 1
      ensures home == null && size == 0
      ensures Abs() == Cache(ClOwned, None, cache[..], 0)
    {
      home := null;
      size := 0;
      device := new DeviceBuffer(cache, deleter);
      state := new StateCell(ClOwned);
    }

    /**
     * An alias of `other`: the same device buffer, the same state cell, the
     * same home buffer and `buffer_size`. The device buffer gains an owner.
     */
    constructor Copy(other: DataHostView)
      requires other.Valid()
      modifies other.device
      ensures Valid() && other.Valid()
      ensures device == other.device && state == other.state
      ensures home == other.home && size == other.size
      ensures other.device != null ==> other.device.useCount == old(other.device.useCount) + 1
    {
      device := other.device;
      state := other.state;
      home := other.home;
      size := other.size;
      new;
      if device != null {
        device.useCount := device.useCount + 1;
      }
    }

    /** `get_home_ptr`: the home pointer after synchronizing and forcing HOST_OWNED; null without a home buffer. */
    method GetHomePtr() returns (p: array?<bv8>)
      requires Valid() && (home != null ==> Live())
      modifies state, home
      ensures Live() ==> Abs() == GetHomePtrStep(old(Abs())).after
      ensures Live() ==> p == AddressOf(GetHomePtrStep(old(Abs())).addr)
      ensures p == home
    {
      if home != null {
        Synchronize();
        state.value := HostOwned;
        return home;
      }
      return null;
    }

    /** Drop this view's share of the device buffer and of the state cell. */
    method Reset()
      requires Valid()
      modifies this, device
      ensures Valid() && !Live() && state == null
      ensures old(device) != null ==> old(device).useCount == old(device.useCount) - 1
    {
      if device != null {
        device.useCount := device.useCount - 1;
      }
      device := null;
      state := null;
    }

    /**
     * `refresh`: the home buffer was written behind the view's back, so copy
     * it to the device buffer. The state cell is left alone.
     */
    method Refresh()
      requires Valid() && (home != null ==> Live())
      modifies if device != null then {device.data} else {}
      ensures Live() ==> Abs() == RefreshStep(old(Abs())).after
    {
      if home != null {
        Memcpy(device.data, home, size);
      }
    }

    /** `synchronize`: if a kernel owns the bytes, copy them to the home buffer and share. */
    method Synchronize()
      requires Valid() && Live()
      modifies state, home
      ensures Abs() == SynchronizeStep(old(Abs())).after
    {
      if state.value == ClOwned {
        // Without a home buffer `buffer_size` is 0 and the copy moves no byte.
        if home != null {
          Memcpy(home, device.data, size);
        }
        state.value := Shared;
      }
    }

    /** `is_last`: this view is the only owner of its device buffer. */
    method IsLast() returns (last: bool)
      requires Valid()
      ensures last <==> device != null && device.useCount == 1
    {
      last := device != null && device.useCount == 1;
    }

    /**
     * `get_mutable` (and `get` on a const view, which calls it): the home
     * pointer after synchronizing and forcing HOST_OWNED, or the device
     * pointer when there is no home buffer.
     */
    method GetMutable() returns (p: array?<bv8>)
      requires Valid() && (home != null ==> Live())
      modifies state, home
      ensures Live() ==> Abs() == GetMutableStep(old(Abs())).after
      ensures Live() ==> p == AddressOf(GetMutableStep(old(Abs())).addr)
      ensures !Live() ==> p == null
    {
      if home != null {
        Synchronize();
        state.value := HostOwned;
        return home;
      } else {
        return if device == null then null else device.data;
      }
    }

    /**
     * `get` returning a const pointer: the home pointer after synchronizing,
     * or the device pointer when there is no home buffer.
     */
    method GetConst() returns (p: array?<bv8>)
      requires Valid() && (home != null ==> Live())
      modifies state, home
      ensures Live() ==> Abs() == GetConstStep(old(Abs())).after
      ensures Live() ==> p == AddressOf(GetConstStep(old(Abs())).addr)
      ensures !Live() ==> p == null
    {
      if home != null {
        Synchronize();
        return home;
      } else {
        return if device == null then null else device.data;
      }
    }

    /**
     * `__cxxamp_serialize`, marshal-for-kernel: push a host-owned home buffer
     * to the device and hand the kernel the device pointer.
     */
    method Serialize() returns (p: array?<bv8>)
      requires Valid() && (home != null ==> Live())
      modifies state, if device != null then {device.data} else {}
      ensures Live() ==> Abs() == SerializeStep(old(Abs())).after
      ensures p == AddressOf(DeviceAddress)
    {
      if home != null && state.value == HostOwned {
        Memcpy(device.data, home, size);
        state.value := ClOwned;
      }
      p := if device == null then null else device.data;
    }
  }

  /**
   * Any live view that is the only owner of its device buffer, and a copy of
   * it: the copy makes `is_last` false on both; a marshal and a const read
   * made through either alias move the one shared cache, seen through the
   * other; resetting the copy makes `is_last` true again on the original.
   */
  method AliasesShareTransitions(v: DataHostView)
    requires v.Valid() && v.Live() && v.device.useCount == 1
    modifies v.device, v.state, v.device.data, v.home
  {
    var last := v.IsLast();
    assert last;

    var w := new DataHostView.Copy(v);
    last := v.IsLast();
    assert !last;
    last := w.IsLast();
    assert !last;

    ghost var before := v.Abs();
    var p := w.Serialize();
    assert p == v.device.data;
    assert v.Abs() == w.Abs() == SerializeStep(before).after;
    assert before.home.Some? && before.state == HostOwned ==> v.state.value == ClOwned;

    ghost var marshalled := w.Abs();
    var q := v.GetConst();
    assert w.Abs() == v.Abs() == GetConstStep(marshalled).after;

    w.Reset();
    last := v.IsLast();
    assert last;
  }

  /** A store of `x` into every byte of `a`, as a kernel or host code would make through a pointer. */
  method Fill(a: array<bv8>, x: bv8)
    modifies a
    ensures forall k :: 0 <= k < a.Length ==> a[k] == x
  {
    forall k | 0 <= k < a.Length {
      a[k] := x;
    }
  }

  /**
   * The end-to-end scenario: a 1024-byte home buffer of 0xAA is marshalled,
   * a kernel overwrites the device buffer with 0xBB, a const read brings
   * 0xBB home, a mutable access and host write of 0xCC follow, and the next
   * marshal carries 0xCC to the device.
   */
  method EndToEndScenario()
  {
    var home := new bv8[1024](_ => 0xAA);
    var cache := new bv8[1024];
    var v := new DataHostView.FromHome(cache, DefaultDelete, home, 1024);

    var p := v.Serialize();
    assert p == cache && v.state.value == ClOwned;
    assert cache[..1024] == home[..1024];
    assert cache[..1024][7] == 0xAA;

    Fill(cache, 0xBB);  // the kernel's writes
    var q := v.GetConst();
    assert q == home && v.state.value == Shared;
    assert home[..1024] == cache[..1024];
    assert home[..1024][7] == 0xBB;

    var r := v.GetMutable();
    assert r == home && v.state.value == HostOwned;
    Fill(home, 0xCC);  // the host's writes through the mutable pointer

    p := v.Serialize();
    assert p == cache && v.state.value == ClOwned;
    assert cache[..1024] == home[..1024];
    assert cache[..1024][7] == 0xCC;
  }
}
