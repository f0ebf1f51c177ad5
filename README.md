# persistent-evdev-rs, modelled in Dafny

persistent-evdev-rs is a daemon that keeps a virtual (uinput) twin of each
configured input device. The twin survives the physical device being
unplugged and replugged. The daemon does three things:

- When it first opens a device, it captures the device's capabilities into a
  `Capabilities` record. The record holds plain lists of `u16` codes, the
  calibration of each absolute axis and the force-feedback effect maximum.
  The record is written to a per-device cache file, named after the device
  by `with_extension("json")`, so two names that differ only after a last
  dot that is not their first character (`pad.left` and `pad.right`) share
  one file.
- It replays that record through the evdev `VirtualDeviceBuilder` to create
  the twin, either at start-up from the cache or on first open.
- It then grabs the physical device and forwards every batch of events to
  the twin. When forwarding ends, the device record goes back to a queue and
  waits for the device to reappear.

The project has four files:

- `wrappers.dfy`: `Option` and `Result`.
- `evdev.dfy` (module `Evdev`): the parts of the evdev library the daemon
  relies on, reduced to values:
  - fixed-width integers and Rust's `as u32` cast;
  - the calibration record and input events;
  - the iteration order of an `AttributeSet`, which is ascending because it
    is a bitset;
  - the builder as a list of `Step`s, applied by `Run`, which stops at the
    first step the uinput subsystem refuses. The subsystem is an oracle,
    `Subsystem.accepts`.
- `caps.dfy` (module `Caps`): `src/capabilities.rs`.
  - Capture: `get_capabilities` and `map_to_primitive!`.
  - Replay: the `map_from_primitive!` accessors, `properties()` and
    `absolute_axes()`.
  - `create_device_with_capabilities`, an imperative method that makes the
    builder calls one after another. It is proved equal to running the
    call list `Plan`, and the order and content of `Plan` are proved
    separately.
- `daemon.dfy` (module `Daemon`): `src/main.rs`.
  - The device record is a `Device` class whose `uinput` field is set once.
  - The opened physical device is a `PhysicalDevice` class. The kernel's
    answers are oracles, indexed by how many queries of that kind came
    before. Its variable fields record the queries made and the events
    written.
  - The virtual device is a `Uinput` class that records the batches
    written to it.
  - The daemon's queue and its spawned tasks are a `State` class.

## Model

| member | source | states |
|---|---|---|
| Evdev.AsU32 | src/capabilities.rs:64 | `max_ff_effects as u32` keeps the value when it fits in 32 bits and is otherwise congruent to it modulo 2^32 |
| Evdev.Ascending | src/capabilities.rs:76 | iterating an attribute set yields exactly its members, each once, in strictly increasing order |
| Evdev.AscendingCardinality | src/main.rs:126 | iterating the key state visits as many codes as there are held keys |
| Evdev.AscendingPair | src/main.rs:126 | two held codes are visited lower code first, and nothing else is visited |
| Evdev.AscendingEmpty | src/main.rs:134 | iteration yields nothing exactly when the set is empty |
| Evdev.Run | src/capabilities.rs:38-70 | the `?` chain of builder calls: each call is applied after those before it and the first refused fallible call ends the chain; what this means is stated by `RunStopsAtFirstRefusal` |
| Evdev.RunStopsAtFirstRefusal | src/capabilities.rs:38-70 | a builder chain yields a device exactly when every call is accepted, and the device then holds every call in order; otherwise it stops at the first refused call, which is a fallible call, and applies nothing after it |
| Evdev.RunFromScratch | src/capabilities.rs:38-70 | the same, for a chain started from a fresh builder: a failed chain builds no device, and the calls applied are a proper prefix of the plan |
| Caps.ToPrimitive | src/capabilities.rs:73-79 | a group becomes the list of exactly its codes in increasing order; an absent group becomes the empty list; the list is empty exactly when the group is absent or empty |
| Caps.AbsEntries | src/capabilities.rs:95-110 | one entry per reported axis, in order, with the same code and the six calibration values copied as value, minimum, maximum, fuzz, flat, resolution |
| Caps.GetCapabilities | src/capabilities.rs:81-125 | `get_capabilities`, field by field; its contents are stated by `Captured` and `CaptureThenReplay` |
| Caps.Captured | src/capabilities.rs:81-125 | `get_capabilities` captures every group (properties always present) with `ToPrimitive`, the axes with `AbsEntries` or as no axes when `get_absinfo` fails, and copies `max_ff_effects` unchanged |
| Caps.FromIter | src/capabilities.rs:134 | `AttributeSet::from_iter` is `Members` of the list: exactly the listed codes, duplicates collapsed, so it is never larger than the list |
| Caps.FromPrimitive | src/capabilities.rs:127-138 | an optional group is `None` exactly when the stored list is empty; otherwise it is a set holding exactly the stored codes |
| Caps.Properties | src/capabilities.rs:141-148 | `properties()` is always a set, possibly empty, of exactly the stored property codes |
| Caps.Ff | src/capabilities.rs:150 | `ff()` is `None` exactly when no force-feedback code is stored, else the stored codes as a set |
| Caps.Keys | src/capabilities.rs:151 | `keys()` is `None` exactly when no key is stored, else the stored keys as a set |
| Caps.Msc | src/capabilities.rs:152 | `msc()` is `None` exactly when no misc code is stored, else the stored codes as a set |
| Caps.Switches | src/capabilities.rs:153 | `switches()` is `None` exactly when no switch is stored, else the stored switches as a set |
| Caps.RelativeAxes | src/capabilities.rs:154 | `relative_axes()` is `None` exactly when no relative axis is stored, else the stored axes as a set |
| Caps.AbsSetups | src/capabilities.rs:156-175 | one setup per stored entry, in stored order, with the same code and the six calibration values copied positionally |
| Caps.AbsoluteAxes | src/capabilities.rs:156-175 | `absolute_axes()` yields one setup per stored entry, in stored order, each with the entry's code and its six calibration values in place |
| Caps.AbsSteps | src/capabilities.rs:48-50 | the `i`-th call is `with_absolute_axis` of the `i`-th setup, and there is no other kind of call |
| Caps.GroupRoundTrip | src/capabilities.rs:73-79 | capturing a group and reading it back through its accessor gives the reported set when it has codes, and `None` when the group was absent or empty |
| Caps.AxesRoundTrip | src/capabilities.rs:94-113 | capturing the axis calibrations and replaying them through `absolute_axes()` gives the reported setups unchanged, in order |
| Caps.CaptureThenReplay | src/capabilities.rs:81-175 | what the builder is handed for a captured device: its property set; each group that has codes and nothing for an absent or empty group; every reported calibration in order; `max_ff_effects as u32` |
| Caps.Pieces | src/capabilities.rs:38-70 | the replay is split into twelve stages, one per kind of builder call |
| Caps.Plan | src/capabilities.rs:38-70 | the builder calls `create_device_with_capabilities` makes; their order, content and shape are stated by `PlanInOrder`, `PlanCalls` and `PlanShape` |
| Caps.PlanInOrder | src/capabilities.rs:38-70 | the builder calls come in the fixed order: creation, name, phys, properties, keys, absolute axes, relative axes, switches, ff, ff-effects-max, msc, build. No kind of call occurs twice except the absolute-axis calls, which stand together |
| Caps.PlanCalls | src/capabilities.rs:38-70 | the calls of each kind are exactly those of its stage. Creation, name, phys, properties (even when empty), ff-effects-max and build occur once each. Keys, relative axes, switches, ff and msc occur once, with the accessor's set, exactly when the accessor returns one. There is one absolute-axis call per setup, in order |
| Caps.PlanShape | src/capabilities.rs:38-70 | the plan written out call by call, in the order the function makes them |
| Caps.Apply | src/capabilities.rs:42 | one `device = device.with_...(...)?` call: a refused call ends the chain with that call as the failure, and an accepted one extends the builder |
| Caps.ApplyGroup | src/capabilities.rs:44-46 | an optional group's call is made only when the accessor returns a set, and a refusal ends the chain with that call |
| Caps.ApplyAxes | src/capabilities.rs:48-50 | the axis loop makes the axis calls in order and ends the chain at the first refused one |
| Caps.StartBuilder | src/capabilities.rs:38-40 | creation, name and phys come first; a refused creation or phys ends the chain |
| Caps.CreateDeviceWithCapabilities | src/capabilities.rs:34-71 | the outcome is exactly that of running `Plan`: a device holding every call when all are accepted, otherwise the error of the first refused call, with no later call made |
| Daemon.RunLength | src/main.rs:126-129 | the number of consecutive successful answers before the first failure, up to a limit: all counted answers succeed, and the next one, if within the limit, fails |
| Daemon.RunLengthUnique | src/main.rs:126-129 | any count with those two properties is that number |
| Daemon.Presses | src/main.rs:128 | one event per key, in key order, each of type EV_KEY (1) with that key's code and value 1 |
| Daemon.ReleaseWrites | src/main.rs:123-131 | `release` either writes one press for every held key, lowest code first, and succeeds, or writes a prefix of those presses and stops at the first refused write, or writes nothing when the key state cannot be read. Every event written is a press of a held key |
| Daemon.SendPresses | src/main.rs:126-129 | the send loop writes the presses up to the first refused write and reports whether all of them went through |
| Daemon.Release | src/main.rs:123-131 | `release` reads the key state once, writes the events of `ReleaseSent` and succeeds exactly when `ReleaseOk` |
| Daemon.AnyHeld | src/main.rs:134 | `iter().next().is_some()` holds exactly when a key is held |
| Daemon.Wait | src/main.rs:133-138 | the polls of `wait_for_release` and how the wait ends, as stated by `WaitObserves` |
| Daemon.WaitObserves | src/main.rs:133-138 | the wait ends `Ok` only right after a query that found no key held, and `Err` only right after a failed query. Every earlier query found keys held |
| Daemon.WaitForRelease | src/main.rs:133-138 | the polling loop's result and number of queries are those of `Wait` |
| Daemon.Grab | src/main.rs:140-145 | release, then wait, then grab. A failed release skips the wait and the grab. A wait that does not end `Ok` skips the grab. The device is grabbed exactly when all three succeed, and only release writes events |
| Daemon.Batches | src/main.rs:150-156 | the batches of consecutive successful fetches, in fetch order |
| Daemon.CollectBatch | src/main.rs:151-154 | the inner loop copies a fetched batch whole and in order |
| Daemon.Forward | src/main.rs:150-156 | every successfully fetched batch is written whole to the twin, in fetch order, until the first failed fetch |
| Daemon.EventProxy | src/main.rs:147-157 | `event_proxy` never returns `Ok`. It releases, waits and grabs as `Grab` does. Something is fetched exactly when all three succeeded; then every batch up to the first failed fetch is forwarded in order, and only that failed fetch ends it before the horizon. Otherwise nothing is forwarded and the failing stage gives the result |
| Daemon.LastDot | src/main.rs:72 | the position of the last '.' of a name, or none when it has no '.' |
| Daemon.LastDotAt | src/main.rs:72 | a '.' with no '.' after it is the last one |
| Daemon.CacheFile | src/main.rs:72 | the cache file of a device ends in `.json` after a prefix of its name, and is the whole name plus `.json` when no '.' follows its first character |
| Daemon.SharedCacheFile | src/main.rs:72 | names that differ only after a last '.' that is not their first character (`pad.left` and `pad.right`) have the same cache file, so each device loads the record the other saved |
| Daemon.Device.OpenUinput | src/main.rs:86-101 | a record that already has a twin is left unchanged and nothing is saved. Otherwise the device's capabilities are captured and saved to its cache file, and the twin is created from them. The twin is kept exactly when creation succeeds, so `uinput` is set at most once and never replaced or cleared |
| Daemon.NewDevice | src/main.rs:71-84 | the new record has a twin exactly when its cache file holds a record. The twin is built from that record. A failed build in that case aborts construction |
| Daemon.TaskDevices | src/main.rs:176 | the records held by the spawned tasks, task by task |
| Daemon.Requeue | src/main.rs:180 | sending the head record back to the end of the queue loses and duplicates no record |
| Daemon.Dispatch | src/main.rs:174-177 | handing the head record to a new task loses and duplicates no record |
| Daemon.Finish | src/main.rs:167 | a task sending its record back to the queue loses and duplicates no record |
| Daemon.State.DispatchHead | src/main.rs:173-177 | the head record gets its twin as `open_uinput` gives it and moves to a new task; records are conserved |
| Daemon.State.RequeueHead | src/main.rs:180 | the head record goes back to the end of the queue; records are conserved |
| Daemon.State.FinishTask | src/main.rs:167 | an ending task's record goes to the end of the queue and the task is removed; records are conserved |
| Daemon.State.UpdateStep | src/main.rs:170-182 | one round of `update_devices`. With an empty queue the loop ends. Otherwise, when its path exists and it opens, the head record goes to a new task with the twin and saved record `open_uinput` gives it; else it goes back to the end of the same queue unchanged and nothing is saved. Queued plus dispatched records are conserved |
| Daemon.State.EvdevThread | src/main.rs:159-168 | the proxy runs exactly when the record has a twin, with the effect `EventProxy` states on the device and the twin. The record goes back to the queue whenever the proxy returns, whatever its result, and right away when there is no twin. Records are conserved |

## Left out

- Two notes on the code as written, which the model follows:
  - `release`'s name says it lets keys go, but the event it writes has value 1 (src/main.rs:128), which the Linux input protocol reads as a key press. `Daemon.Presses` models value 1.
  - `update_devices` sends a record it cannot dispatch back on the channel it is draining (src/main.rs:171,180), so its loop ends only when every queued record has been dispatched. The model has one round of the loop (`Daemon.State.UpdateStep`) and the conservation of records. It does not claim the loop terminates.
- `Capabilities::save` and `load` (src/capabilities.rs:177-187) are JSON encoding and file I/O.
  - The cache is a map from cache file name to the record that loads; a file that is missing or does not parse is absent.
  - `Daemon.Device.OpenUinput` returns the file and record it hands to `save`. Whether the write succeeds is only logged, so it is not modelled, and the map is not updated by it.
- `Daemon.CacheFile`: a device name is taken to be one plain path component. A name holding a '/', or the names "", "." and "..", would make `join` and `with_extension` reach outside the cache file's name; that is not modelled.
- `Config::new`, the `lazy_static` configuration, `State::new` and `main` (src/main.rs:26-62, 109-121, 201-214) are command-line parsing, file I/O and logging. `State::new` builds a record per configured device, each with `Device::new`; the `State` constructor takes that initial queue as given.
- The udev monitor and `udev_loop` (src/main.rs:184-199) are I/O and timing.
- tokio is not modelled: no concurrency, no `.await` suspension, and no 100 ms or `udev_interval` sleeps.
  - The unbounded channel is the sequence `State.queue`.
  - A spawned task is an entry of `State.tasks`, run to its next stopping point by `State.EvdevThread`.
  - Interleavings of tasks are not modelled.
- Kernel calls are oracle answers fixed when the device is opened:
  - `get_key_state`, `send_events`, `grab` and `fetch_events` are `PhysicalDevice` fields;
  - the builder's fallible calls are `Subsystem.accepts`;
  - path existence and `Device::open` are parameters of `State.UpdateStep`.
  - `emit` errors are ignored by the code, so every batch `emit` is given counts as written.
  - Event timestamps (`new_now`) are not modelled.
- `Daemon.WaitForRelease`: models at most `horizon` polls and answers `Running` when all of them found keys held. `wait_for_release` itself may poll forever.
- `Daemon.Forward`: models at most `horizon` fetch rounds and answers `Running` after them. `event_proxy`'s loop has no bound.
- `Daemon.EventProxy`: uses one `horizon` for both the wait and the forwarding loop.
- `Daemon.State.EvdevThread`: a task still waiting for release or forwarding at the horizon keeps its record, because the code sends the record back only after the proxy returns.
- `Daemon.Release`: the list of key names `release` builds for formatting (src/main.rs:125,127) is never used and is not modelled.
- `CString::new("rs-evdev-uinput")` cannot fail, because the literal has no NUL byte. It is folded into the phys call, whose own error is the subsystem's refusal.
- Builder errors and panics carry no message: a refused call is reported as the call itself.
