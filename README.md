# Host/accelerator coherence cache (`_data_host_view`)

This project models `_data_host_view<T>` from `include/hsa_manage.h`, the handle behind
C++ AMP array views on HSA. A view mirrors a byte buffer between two places:

- a home buffer (`home_ptr`) in ordinary host memory;
- a device ("CL") buffer (`cl_buffer`), which is what a kernel is given.

Every alias of a view shares two things:

- one cache-state cell (`state_ptr`) holding `HOST_OWNED`, `CL_OWNED` or `SHARED`;
- the reference-counted device buffer.

The view's operations are a small state machine over that shared cell, plus whole-buffer copies
of `buffer_size` bytes in one direction or the other.

The project has four modules:

- `Wrappers` (wrappers.dfy): `Option`, standing in for a pointer that may be null.
- `Memory` (memory.dfy): `memcpy` on two distinct byte arrays, as a loop proved against the
  function `Copied`.
- `Coherence` (coherence.dfy): the protocol on values. A `Cache` holds the state, the optional
  home bytes, the device bytes and `buffer_size`. One function per operation returns a `Step`:
  the cache after the call, the copy that was made (its direction and byte count), and which
  pointer was handed back. The lemmas here state what the protocol guarantees:
  - `synchronize` is idempotent;
  - a second const read or a second marshal copies nothing;
  - every accessor of a coherent cache hands out the newest bytes;
  - along any run that respects the access discipline, the invariant "SHARED means both buffers
    agree" holds, and the newest bytes are the starting bytes with every host and kernel write
    replayed in order.
- `HsaManage` (hsa_manage.dfy): the imperative model. `StateCell` is the shared state cell.
  `DeviceBuffer` is the shared device buffer, with an explicit use count. `DataHostView` holds
  references to both, plus the home array and `buffer_size`. Each method mutates the shared
  objects in place. Each method is proved to move the view's observable cache (`Abs`) exactly
  as the matching `Coherence` function says. Its `modifies` clause bounds what it may write.
  Two client methods show what callers can prove from these contracts alone:
  - `AliasesShareTransitions`, for any live view that is the only owner of its device buffer:
    a copy turns `is_last` false on both views; a marshal and a const read made through either
    alias move the one shared cache, seen through the other; resetting the copy turns `is_last`
    true again on the original.
  - `EndToEndScenario`: a 1024-byte run of 0xAA, then 0xBB written by a kernel, then 0xCC
    written by the host.

Bytes are `bv8`. `buffer_size` is a byte count, as `memcpy` uses it.

Two points of the code are worth knowing:

- `synchronize` (include/hsa_manage.h:186-194) does not check for a home buffer. On a view built
  around a device buffer alone (state `CL_OWNED`), it copies `buffer_size` = 0 bytes and still
  moves the state to `SHARED`. `SynchronizeStep` and `DataHostView.Synchronize` follow the code.
- Marshal (include/hsa_manage.h:236-244) moves a view into `CL_OWNED` only from `HOST_OWNED`
  with a home buffer. This disagrees with the enum's own comment (lines 76-77), under which a view
  used in a kernel invocation is presumed dirtied by it. See "## Findings".

## Model

| member | source | states |
|---|---|---|
| `Memory.Copied` | include/hsa_manage.h:181-182 | The bytes after a copy: the first `n` bytes are the source's, the rest are the destination's, and the length is kept. |
| `Coherence.RefreshStep` | include/hsa_manage.h:178-184 | With a home buffer, `buffer_size` bytes are copied home to device and nothing past them. Without one, nothing happens. The state never changes. |
| `Coherence.SynchronizeStep` | include/hsa_manage.h:188-194 | In `CL_OWNED`, the first `buffer_size` bytes are copied device to home, the rest of home is kept, and the state becomes `SHARED`. In `HOST_OWNED` or `SHARED`, no copy and no change. The device bytes are never touched. |
| `Coherence.GetMutableStep` | include/hsa_manage.h:204-215 | With a home buffer: synchronize, then force `HOST_OWNED` and return the home address. Without one: return the device address and change nothing. |
| `Coherence.GetConstStep` | include/hsa_manage.h:220-227 | With a home buffer: synchronize and return the home address. Without one: return the device address. The state ends `HOST_OWNED` exactly when it started so; `CL_OWNED` with a home buffer becomes `SHARED`. |
| `Coherence.GetHomePtrStep` | include/hsa_manage.h:103-110 | With a home buffer, the same as the mutable access (synchronize, force `HOST_OWNED`, home address). Without one, a null pointer and no change. |
| `Coherence.SerializeStep` | include/hsa_manage.h:236-244 | The device address is always handed out. With a home buffer in `HOST_OWNED`, `buffer_size` bytes are first copied home to device and the state becomes `CL_OWNED`. Otherwise, no copy and no change. |
| `Coherence.SynchronizeIdempotent` | include/hsa_manage.h:186-194 | A second `synchronize` right after the first copies nothing and changes nothing. After either call the state is not `CL_OWNED`. |
| `Coherence.GetConstTwiceCopiesOnce` | include/hsa_manage.h:217-227 | Two const reads in a row: the second makes no copy and leaves the cache as the first left it. |
| `Coherence.SerializeTwiceCopiesOnce` | include/hsa_manage.h:229-244 | From `HOST_OWNED` with a home buffer, the first marshal copies home to device and leaves `CL_OWNED`. A second marshal with nothing in between copies nothing. |
| `Coherence.RefreshPublishesHome` | include/hsa_manage.h:175-184 | After `refresh`, the home bytes are the newest bytes and the SHARED-means-equal invariant holds, whatever the state was. This is how a home buffer written outside the view is pushed to the device. |
| `Coherence.AccessorsSeeLatest` | include/hsa_manage.h:73-84 | On a coherent cache, each accessor hands out an address holding the newest bytes: the home address from const `get`, `get_mutable` and `get_home_ptr`, the device address from marshal. The state meanings are those of the enum's comment. |
| `Coherence.StepKeepsLatest` | include/hsa_manage.h:73-84 | One operation allowed by the access discipline keeps the SHARED-means-equal invariant. It changes the newest bytes exactly as its own store does, and coherence operations do not change them at all. |
| `Coherence.RunKeepsLatest` | include/hsa_manage.h:73-84 | For any run that respects the discipline, the invariant holds at the end. The newest bytes at the end are the starting bytes with every host and kernel store replayed in order. |
| `Coherence.WriteThenRead` | include/hsa_manage.h:201-227 | A store through the mutable home pointer is seen by the next const read, which hands out exactly the starting bytes with that one byte replaced. A second const read copies nothing. |
| `Coherence.SerializeCorrectedStep` | include/hsa_manage.h:76-77 | Marshal as the `CL_OWNED` comment intends: every view with a home buffer ends `CL_OWNED`. A `HOST_OWNED` one is first copied home to device. Otherwise no copy is made. The device address is always handed out. |
| `Coherence.SharedMarshalLosesKernelWrite` | include/hsa_manage.h:236-244 | As written, marshalling a `SHARED` view leaves it `SHARED`. A kernel store into the device buffer is then not allowed by the discipline, and the next const `get` copies nothing. The home address it hands out does not hold the kernel's byte. |
| `Coherence.CorrectedMarshalKeepsKernelWrite` | include/hsa_manage.h:76-77 | With the corrected marshal, a kernel store after a marshal of any view with a home buffer is allowed whatever the earlier state. The next const `get` then hands out the starting bytes with that store applied. |
| `Memory.Memcpy` | include/hsa_manage.h:239-240 | The destination array becomes `Copied(old destination, source, n)`. |
| `HsaManage.DataHostView.FromHome` | include/hsa_manage.h:114-123 | The new view owns a fresh device buffer with use count 1 and the given deleter (default or custom). It records the home buffer and `buffer_size = size`. A fresh state cell holds `HOST_OWNED`. |
| `HsaManage.DataHostView.FromDevice` | include/hsa_manage.h:125-135 | The new view has no home buffer and `buffer_size` 0. It owns a fresh device buffer with use count 1. A fresh state cell holds `CL_OWNED`. |
| `HsaManage.DataHostView.Copy` | include/hsa_manage.h:137-139 | The alias shares the same device buffer and the same state cell, and copies the home pointer and `buffer_size`. The device buffer's use count goes up by one. |
| `HsaManage.DataHostView.GetHomePtr` | include/hsa_manage.h:103-110 | The view's cache moves as `GetHomePtrStep` says, and the home pointer (null when there is none) is returned. |
| `HsaManage.DataHostView.Reset` | include/hsa_manage.h:170-173 | The view drops its device buffer and state cell, and the device buffer's use count goes down by one. |
| `HsaManage.DataHostView.Refresh` | include/hsa_manage.h:178-184 | The device array and the state cell move as `RefreshStep` says. Only the device array may change. |
| `HsaManage.DataHostView.Synchronize` | include/hsa_manage.h:188-194 | The home array and the state cell move as `SynchronizeStep` says. Only those two may change. |
| `HsaManage.DataHostView.IsLast` | include/hsa_manage.h:196-199 | True exactly when the view holds its device buffer and that buffer's use count is 1. |
| `HsaManage.DataHostView.GetMutable` | include/hsa_manage.h:201-215 | The cache moves as `GetMutableStep` says, and the pointer returned is the one it names. A reset view without a home buffer returns null. |
| `HsaManage.DataHostView.GetConst` | include/hsa_manage.h:217-227 | The cache moves as `GetConstStep` says, and the pointer returned is the one it names. A reset view without a home buffer returns null. |
| `HsaManage.DataHostView.Serialize` | include/hsa_manage.h:229-244 | The cache moves as `SerializeStep` says, and the device pointer is returned. Only the state cell and the device array may change. |

## Left out

- Allocation (`CLAllocator::allocate`, with `memalign` and `HSA::RegisterMemory`) and `CLDeleter`
  (`free`) are foreign calls. A device buffer is any array the caller passes in, and a deleter
  is recorded as an opaque `Deleter` value.
- Destruction and the deleter call are not modelled. A view dropping its share is visible only
  through the use count, which `Reset` decrements.
- `_data<T>` and `_data_host<T>` are left out. They are thin pointer and `shared_ptr` wrappers
  with no logic.
- The const, non-const and cross-element-type conversion constructors (include/hsa_manage.h:141-168)
  have no separate member. Bytes are untyped here, so each of them is `DataHostView.Copy`: an
  alias sharing the buffer and the state. The conversions at lines 147-149 and 152-154 both
  call `other.get_home_ptr()` (lines 149 and 154). That call synchronizes and forces `HOST_OWNED`
  on the shared cell, so those two conversions are not plain aliases. This side effect is not
  modelled.
- The conversions from `_data_host` (lines 156 and 161) are not modelled. They leave the state
  pointer null.
- The `nullptr` constructor (line 159) is not modelled. It leaves `home_ptr` uninitialised. A
  reset view plays the part of the empty view.
- `get_gmac_buffer`, `get_state_ptr` and `get_buffer_size` (lines 102, 111, 112) are plain
  field reads. Callers read `device`, `state` and `size` directly.
- `Serialize::AppendPtr` and the compiler annotations (`serialize`, `user_deserialize`,
  `restrict(cpu, amp)`, `__global`) are left out. Marshal returns the device array instead of
  appending it to a kernel-argument stream.
- Thread safety is left out. The state cell is a plain shared cell, and host use and kernel
  use of a view are assumed to be serialized.
- Host and kernel stores are modelled as single-byte writes (`Coherence.HostWrite`,
  `Coherence.KernelWrite`) in the run theorem. The client scenario writes whole arrays directly.
- The `shared_ptr` use count is not tied to the set of live views. Only `Copy` and `Reset`
  change it, so a view that is never reset is never counted as gone.
- `Coherence.RunKeepsLatest` lets a kernel store only while the state is `CL_OWNED`. Under the
  marshal as written (`SerializeStep`), a kernel store made after marshalling a `SHARED` view is
  outside the theorem and is lost (`SharedMarshalLosesKernelWrite`). Only the corrected marshal
  (`Op.SerializeCorrected`) lets a kernel store after every marshal of a view with a home buffer.
- `DataHostView.Serialize` models the marshal as written, because the class follows the code
  line by line. The corrected marshal exists only on values: it is `SerializeCorrectedStep`,
  used by the run theorem through `Op.SerializeCorrected`.

## Findings

| source | as written | input that shows it | evidently intended | confidence | as-written member | corrected member |
|---|---|---|---|---|---|---|
| include/hsa_manage.h:236-244 | Marshal moves the state to `CL_OWNED` only from `HOST_OWNED`. A `SHARED` view handed to a kernel stays `SHARED`. | A view in `SHARED` with a home buffer is marshalled. The kernel stores a new byte into the device buffer. A const `get` then copies nothing and returns the home buffer without that byte. | Every view with a home buffer that is handed to a kernel ends `CL_OWNED`. This is what the enum comment at lines 76-77 presumes, so the next host access copies the kernel's bytes back. | medium; not executed | `Coherence.SharedMarshalLosesKernelWrite` | `Coherence.CorrectedMarshalKeepsKernelWrite` |
