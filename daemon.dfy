/**
 * The daemon's device records (src/main.rs): each configured input device
 * is a record that waits in a queue until its device node can be opened,
 * gets a virtual uinput twin created at most once, and is then served by a
 * task that grabs the physical device and forwards its events, handing the
 * record back to the queue when the task ends.
 */
module Daemon {
  import opened Wrappers
  import opened Evdev
  import opened Caps

  /** The capability cache: the record that loads from each file of the cache directory; a file that fails to load is absent. */
  type Cache = map<string, Capabilities>

  // ---------------------------------------------------------------------
  // Cache file names

  /** The position of the last '.' in `name`, if it has one. */
  function LastDot(name: string): (r: Option<nat>)
    ensures r.Some? ==> r.value < |name| && name[r.value] == '.' && '.' !in name[r.value + 1..]
    ensures r.None? ==> '.' !in name
  {
    if name == [] then None
    else if name[|name| - 1] == '.' then Some(|name| - 1)
    else
      var r := LastDot(name[..|name| - 1]);
      assert name == name[..|name| - 1] + [name[|name| - 1]];
      if r.Some? then
        assert name[r.value + 1..] == name[..|name| - 1][r.value + 1..] + [name[|name| - 1]];
        r
      else r
  }

  /** A '.' with no '.' after it is the last one. */
  lemma LastDotAt(name: string, k: nat)
    requires k < |name| && name[k] == '.' && '.' !in name[k + 1..]
    ensures LastDot(name) == Some(k)
  {
  }

  /**
   * The cache file of a device, `cache.join(name).with_extension("json")`,
   * as a name inside the cache directory: the part of `name` after its last
   * '.' is its extension and is replaced by `json`; a name with no '.', or
   * whose only '.' is its first character (a hidden file name), has no
   * extension and gets `.json` appended.
   */
  function CacheFile(name: string): (file: string)
    ensures |file| >= 5 && file[|file| - 5..] == ".json"
    ensures file[..|file| - 5] <= name
    ensures (forall k :: 0 < k < |name| ==> name[k] != '.') ==> file == name + ".json"
  {
    var dot := LastDot(name);
    var stem := if dot.Some? && dot.value > 0 then name[..dot.value] else name;
    assert (stem + ".json")[..|stem|] == stem;
    stem + ".json"
  }

  /**
   * Two device names that differ only after their last '.' share one cache
   * file: each reads the record the other saved.
   */
  lemma SharedCacheFile(stem: string, a: string, b: string)
    requires stem != [] && '.' !in a && '.' !in b
    ensures CacheFile(stem + "." + a) == CacheFile(stem + "." + b) == stem + ".json"
  {
    var dotted := stem + ".";
    assert (dotted + a)[..|stem|] == stem && (dotted + a)[|stem| + 1..] == a;
    LastDotAt(dotted + a, |stem|);
    assert (dotted + b)[..|stem|] == stem && (dotted + b)[|stem| + 1..] == b;
    LastDotAt(dotted + b, |stem|);
  }

  /** How an operation on a device ended; `Running` means it was still polling or forwarding at the horizon. */
  datatype Outcome = Ok | Err | Running

  // ---------------------------------------------------------------------
  // Runs of consecutive successes

  /** How many of the answers `ok(start)`, `ok(start + 1)`, ... are true before the first false one, counting at most `limit`. */
  function RunLength(ok: nat -> bool, start: nat, limit: nat): (n: nat)
    ensures n <= limit
    ensures forall k :: start <= k < start + n ==> ok(k)
    ensures n < limit ==> !ok(start + n)
    decreases limit
  {
    if limit == 0 || !ok(start) then 0 else 1 + RunLength(ok, start + 1, limit - 1)
  }

  /** A run stops at the first false answer: any count with those two facts is the run length. */
  lemma {:induction false} RunLengthUnique(ok: nat -> bool, start: nat, limit: nat, n: nat)
    requires n <= limit
    requires forall k :: start <= k < start + n ==> ok(k)
    requires n < limit ==> !ok(start + n)
    ensures RunLength(ok, start, limit) == n
    decreases limit
  {
    if limit > 0 && ok(start) && n > 0 {
      RunLengthUnique(ok, start + 1, limit - 1, n - 1);
    }
  }

  // ---------------------------------------------------------------------
  // The physical input device

  /** The key-press event `release` writes for a held key: type EV_KEY, the key's code, value 1. */
  function Press(key: U16): InputEvent {
    InputEvent(EV_KEY, key, 1)
  }

  function Presses(keys: seq<U16>): (r: seq<InputEvent>)
    ensures |r| == |keys|
    ensures forall i :: 0 <= i < |r| ==> r[i] == Press(keys[i])
  {
    seq(|keys|, i requires 0 <= i < |keys| => Press(keys[i]))
  }

  /** A key state that still holds keys: a successful query with at least one key down. */
  predicate Held(state: Option<set<U16>>) {
    state.Some? && state.value != {}
  }

  function FetchedAt(fetchAt: nat -> Option<seq<InputEvent>>): nat -> bool {
    (k: nat) => fetchAt(k).Some?
  }

  /**
   * An opened `evdev::Device`. The kernel's answers are oracles indexed by
   * how many queries came before: the key state at each query (`None` is a
   * failed query), whether each event write is accepted, whether grabbing
   * succeeds, and the batch of each fetch (`None` is a failed fetch). The
   * variable fields count the queries made and record what was written.
   */
  class PhysicalDevice {
    const reported: Reported
    const keyStateAt: nat -> Option<set<U16>>
    const sendOk: nat -> bool
    const grabSucceeds: bool
    const fetchAt: nat -> Option<seq<InputEvent>>
    var polls: nat
    var sent: seq<InputEvent>
    var grabbed: bool
    var fetched: nat

    constructor (reported: Reported, keyStateAt: nat -> Option<set<U16>>, sendOk: nat -> bool,
                 grabSucceeds: bool, fetchAt: nat -> Option<seq<InputEvent>>)
      ensures this.reported == reported && this.keyStateAt == keyStateAt && this.sendOk == sendOk
      ensures this.grabSucceeds == grabSucceeds && this.fetchAt == fetchAt
      ensures polls == 0 && sent == [] && !grabbed && fetched == 0
    {
      this.reported := reported;
      this.keyStateAt := keyStateAt;
      this.sendOk := sendOk;
      this.grabSucceeds := grabSucceeds;
      this.fetchAt := fetchAt;
      polls, sent, grabbed, fetched := 0, [], false, 0;
    }
  }

  /** The presses `release` writes for key state `state` when the writes from number `start` on are answered by `ok`. */
  function ReleaseSent(state: Option<set<U16>>, ok: nat -> bool, start: nat): seq<InputEvent> {
    if state.None? then []
    else
      var presses := Presses(Ascending(state.value));
      presses[..RunLength(ok, start, |presses|)]
  }

  /** `release` succeeds: the key state was read and every press was written. */
  predicate ReleaseOk(state: Option<set<U16>>, ok: nat -> bool, start: nat) {
    state.Some? && RunLength(ok, start, |state.value|) == |state.value|
  }

  /**
   * A successful release writes one press per held key, lowest code first;
   * a failed one writes a prefix of those presses and stops at the first
   * write refused, or writes nothing when the key state cannot be read.
   */
  lemma ReleaseWrites(state: Option<set<U16>>, ok: nat -> bool, start: nat)
    ensures var sent := ReleaseSent(state, ok, start);
            && (state.Some? ==> sent == Presses(Ascending(state.value))[..|sent|])
            && (ReleaseOk(state, ok, start) <==> state.Some? && |sent| == |state.value|)
            && (ReleaseOk(state, ok, start) ==> sent == Presses(Ascending(state.value)))
            && (state.Some? && !ReleaseOk(state, ok, start) ==> !ok(start + |sent|))
            && (forall e :: e in sent ==> e.eventType == EV_KEY && e.value == 1 && state.Some? && e.code in state.value)
  {
    if state.Some? {
      AscendingCardinality(state.value);
      var presses := Presses(Ascending(state.value));
      var sent := ReleaseSent(state, ok, start);
      forall e | e in sent ensures e.eventType == EV_KEY && e.value == 1 && e.code in state.value {
        var i :| 0 <= i < |sent| && sent[i] == e;
        assert e == Press(Ascending(state.value)[i]);
      }
    }
  }

  /**
   * The loop of `release`: writes one press per key of `keys`, in order,
   * stopping at the first write the kernel refuses.
   */
  method SendPresses(dev: PhysicalDevice, keys: seq<U16>) returns (ok: bool)
    modifies dev`sent
    ensures var n := RunLength(dev.sendOk, |old(dev.sent)|, |keys|);
            && dev.sent == old(dev.sent) + Presses(keys)[..n]
            && (ok <==> n == |keys|)
  {
    ghost var start := |dev.sent|;
    ghost var presses := Presses(keys);
    for i := 0 to |keys|
      invariant dev.sent == old(dev.sent) + presses[..i]
      invariant forall k :: start <= k < start + i ==> dev.sendOk(k)
    {
      if !dev.sendOk(|dev.sent|) {
        RunLengthUnique(dev.sendOk, start, |keys|, i);
        return false;
      }
      dev.sent := dev.sent + [Press(keys[i])];
      assert presses[..i + 1] == presses[..i] + [Press(keys[i])];
    }
    RunLengthUnique(dev.sendOk, start, |keys|, |keys|);
    assert presses[..|keys|] == presses;
    return true;
  }

  /**
   * `release`: reads the key state once and writes, for each held key in
   * iteration order, a key event with value 1, stopping at the first write
   * the kernel refuses.
   */
  method Release(dev: PhysicalDevice) returns (res: Outcome)
    modifies dev`polls, dev`sent
    ensures dev.polls == old(dev.polls) + 1
    ensures dev.sent == old(dev.sent) + ReleaseSent(dev.keyStateAt(old(dev.polls)), dev.sendOk, |old(dev.sent)|)
    ensures res == Ok <==> ReleaseOk(dev.keyStateAt(old(dev.polls)), dev.sendOk, |old(dev.sent)|)
    ensures res != Running
  {
    var state := dev.keyStateAt(dev.polls);
    dev.polls := dev.polls + 1;
    if state.None? { return Err; }
    AscendingCardinality(state.value);
    var ok := SendPresses(dev, Ascending(state.value));
    res := if ok then Ok else Err;
  }

  /** `key_state.iter().next().is_some()`: iterating the key state yields a first key exactly when some key is held. */
  function AnyHeld(keys: set<U16>): (held: bool)
    ensures held <==> keys != {}
  {
    AscendingEmpty(keys);
    Ascending(keys) != []
  }

  /**
   * The polls of `wait_for_release` from query number `start` on: how the
   * wait ends and how many queries it makes, at most `horizon`.
   */
  function Wait(keyStateAt: nat -> Option<set<U16>>, start: nat, horizon: nat): (Outcome, nat)
    decreases horizon
  {
    if horizon == 0 then (Running, 0)
    else if keyStateAt(start).None? then (Err, 1)
    else if keyStateAt(start).value == {} then (Ok, 1)
    else
      var (outcome, polls) := Wait(keyStateAt, start + 1, horizon - 1);
      (outcome, polls + 1)
  }

  /**
   * The wait ends `Ok` only right after a query that found no key held,
   * `Err` right after a failed query, and every query before the last
   * found keys held; `Running` means all `horizon` queries found keys held.
   */
  lemma {:induction false} WaitObserves(keyStateAt: nat -> Option<set<U16>>, start: nat, horizon: nat)
    ensures var (outcome, polls) := Wait(keyStateAt, start, horizon);
            && polls <= horizon
            && (outcome == Running <==> polls == horizon && forall k :: start <= k < start + polls ==> Held(keyStateAt(k)))
            && (outcome == Ok <==> 0 < polls && keyStateAt(start + polls - 1) == Some({}))
            && (outcome == Err <==> 0 < polls && keyStateAt(start + polls - 1).None?)
            && (forall k :: start <= k < start + polls - 1 ==> Held(keyStateAt(k)))
    decreases horizon
  {
    if horizon > 0 && Held(keyStateAt(start)) {
      WaitObserves(keyStateAt, start + 1, horizon - 1);
    }
  }

  /**
   * `wait_for_release`: polls the key state until no key is held, giving
   * up at the first failed query; `Running` when `horizon` polls all found
   * keys still held (`wait_for_release` itself keeps polling).
   */
  method WaitForRelease(dev: PhysicalDevice, horizon: nat) returns (res: Outcome)
    modifies dev`polls
    ensures (res, dev.polls - old(dev.polls)) == Wait(dev.keyStateAt, old(dev.polls), horizon)
  {
    ghost var start := dev.polls;
    var rounds := 0;
    while rounds < horizon
      invariant rounds <= horizon && dev.polls == start + rounds
      invariant Wait(dev.keyStateAt, start, horizon) ==
                  var (outcome, polls) := Wait(dev.keyStateAt, dev.polls, horizon - rounds);
                  (outcome, polls + rounds)
    {
      var state := dev.keyStateAt(dev.polls);
      dev.polls := dev.polls + 1;
      if state.None? { return Err; }
      if !AnyHeld(state.value) { return Ok; }
      rounds := rounds + 1;
    }
    return Running;
  }

  /**
   * `grab`: release, then wait for release, then grab the device; an error
   * at any stage skips the stages after it.
   */
  method Grab(dev: PhysicalDevice, horizon: nat) returns (res: Outcome)
    modifies dev`polls, dev`sent, dev`grabbed
    ensures dev.sent == old(dev.sent) + ReleaseSent(dev.keyStateAt(old(dev.polls)), dev.sendOk, |old(dev.sent)|)
    ensures var released := ReleaseOk(dev.keyStateAt(old(dev.polls)), dev.sendOk, |old(dev.sent)|);
            var (waited, polls) := Wait(dev.keyStateAt, old(dev.polls) + 1, horizon);
            && (!released ==> res == Err && dev.polls == old(dev.polls) + 1)
            && (released ==> dev.polls == old(dev.polls) + 1 + polls)
            && res == (if !released then Err else if waited != Ok then waited else if dev.grabSucceeds then Ok else Err)
    ensures dev.grabbed == (old(dev.grabbed) || res == Ok)
  {
    res := Release(dev);
    if res != Ok { return; }
    res := WaitForRelease(dev, horizon);
    if res != Ok { return; }
    if dev.grabSucceeds {
      dev.grabbed := true;
      res := Ok;
    } else {
      res := Err;
    }
  }

  // ---------------------------------------------------------------------
  // The virtual device and the forwarding loop

  /** A built uinput device; `emitted` is every batch written to it, in order. */
  class Uinput {
    const device: VirtualDevice
    var emitted: seq<seq<InputEvent>>

    constructor (device: VirtualDevice)
      ensures this.device == device && emitted == []
    {
      this.device := device;
      emitted := [];
    }
  }

  /** The batches of `n` consecutive successful fetches from fetch number `start` on. */
  function Batches(fetchAt: nat -> Option<seq<InputEvent>>, start: nat, n: nat): (r: seq<seq<InputEvent>>)
    requires forall k :: start <= k < start + n ==> FetchedAt(fetchAt)(k)
    ensures |r| == n
    ensures forall i :: 0 <= i < n ==> Some(r[i]) == fetchAt(start + i)
  {
    if n == 0 then []
    else
      assert FetchedAt(fetchAt)(start + n - 1);
      Batches(fetchAt, start, n - 1) + [fetchAt(start + n - 1).value]
  }

  /** `for event in batch { events.push(event); }`: the batch copied event by event. */
  method CollectBatch(batch: seq<InputEvent>) returns (events: seq<InputEvent>)
    ensures events == batch
  {
    events := [];
    for i := 0 to |batch|
      invariant events == batch[..i]
    {
      events := events + [batch[i]];
    }
  }

  /**
   * The forwarding loop of `event_proxy`: each fetched batch is written
   * whole to the virtual device, in fetch order, until a fetch fails;
   * `Running` after `horizon` rounds (`event_proxy` itself loops forever).
   */
  method Forward(dev: PhysicalDevice, out: Uinput, horizon: nat) returns (res: Outcome)
    modifies dev`fetched, out`emitted
    ensures var n := RunLength(FetchedAt(dev.fetchAt), old(dev.fetched), horizon);
            && out.emitted == old(out.emitted) + Batches(dev.fetchAt, old(dev.fetched), n)
            && dev.fetched == old(dev.fetched) + n + (if n < horizon then 1 else 0)
            && (res == Running <==> n == horizon)
            && (res == Err <==> n < horizon)
  {
    ghost var start := dev.fetched;
    var rounds := 0;
    while rounds < horizon
      invariant rounds <= horizon && dev.fetched == start + rounds
      invariant forall k :: start <= k < start + rounds ==> FetchedAt(dev.fetchAt)(k)
      invariant out.emitted == old(out.emitted) + Batches(dev.fetchAt, start, rounds)
    {
      var batch := dev.fetchAt(dev.fetched);
      dev.fetched := dev.fetched + 1;
      if batch.None? {
        RunLengthUnique(FetchedAt(dev.fetchAt), start, horizon, rounds);
        return Err;
      }
      var events := CollectBatch(batch.value);
      out.emitted := out.emitted + [events];
      rounds := rounds + 1;
    }
    RunLengthUnique(FetchedAt(dev.fetchAt), start, horizon, horizon);
    return Running;
  }

  /**
   * What `event_proxy` does to the physical device and the virtual one,
   * from the state before it to the state after: the release, the wait and
   * the grab as `Grab` makes them; then, exactly when all three succeeded,
   * the batches of the successful fetches are forwarded in order and only
   * a failed fetch ends it before `horizon` rounds. When the grab did not
   * succeed, nothing is fetched or forwarded and the stage that failed
   * gives the result.
   */
  twostate predicate Proxied(dev: PhysicalDevice, out: Uinput, horizon: nat, res: Outcome)
    reads dev, out
  {
    var released := ReleaseOk(dev.keyStateAt(old(dev.polls)), dev.sendOk, |old(dev.sent)|);
    var (waited, polls) := Wait(dev.keyStateAt, old(dev.polls) + 1, horizon);
    var grabbed := released && waited == Ok && dev.grabSucceeds;
    var n := RunLength(FetchedAt(dev.fetchAt), old(dev.fetched), horizon);
    && dev.sent == old(dev.sent) + ReleaseSent(dev.keyStateAt(old(dev.polls)), dev.sendOk, |old(dev.sent)|)
    && dev.polls == old(dev.polls) + 1 + (if released then polls else 0)
    && dev.grabbed == (old(dev.grabbed) || grabbed)
    && (dev.fetched != old(dev.fetched) <==> grabbed)
    && (grabbed ==>
          && out.emitted == old(out.emitted) + Batches(dev.fetchAt, old(dev.fetched), n)
          && dev.fetched == old(dev.fetched) + n + (if n < horizon then 1 else 0)
          && (res == Running <==> n == horizon)
          && (res == Err <==> n < horizon))
    && (!grabbed ==>
          && out.emitted == old(out.emitted)
          && res == (if released && waited != Ok then waited else Err))
  }

  /**
   * `event_proxy`: grabs the device, then forwards its events forever. It
   * never ends with `Ok`: the only way out is a failed grab or fetch.
   */
  method EventProxy(dev: PhysicalDevice, out: Uinput, horizon: nat) returns (res: Outcome)
    modifies dev`polls, dev`sent, dev`grabbed, dev`fetched, out`emitted
    ensures res != Ok
    ensures Proxied(dev, out, horizon, res)
  {
    res := Grab(dev, horizon);
    if res != Ok { return; }
    assert horizon > 0;
    res := Forward(dev, out, horizon);
  }

  // ---------------------------------------------------------------------
  // Device records

  /** A configured device: its name, its device-node path, and its virtual twin once created. */
  class Device {
    const name: string
    const path: string
    var uinput: Option<Uinput>

    constructor (name: string, path: string, uinput: Option<Uinput>)
      ensures this.name == name && this.path == path && this.uinput == uinput
    {
      this.name := name;
      this.path := path;
      this.uinput := uinput;
    }

    /**
     * `open_uinput`: when the record has no virtual device yet, captures
     * the opened device's capabilities, saves them to the record's cache
     * file (`saved` is that file and what is written to it; a failed save
     * is only logged) and creates the virtual device from them, keeping it
     * only when creation succeeds. A record that already has one is left
     * exactly as it is.
     */
    method OpenUinput(evdev: PhysicalDevice, sub: Subsystem) returns (saved: Option<(string, Capabilities)>)
      modifies this`uinput
      ensures Opened(this, evdev, sub, saved)
    {
      saved := None;
      if uinput.None? {
        var caps := GetCapabilities(evdev.reported);
        saved := Some((CacheFile(name), caps));
        var built := CreateDeviceWithCapabilities(sub, name, caps);
        if built.Built? {
          var twin := new Uinput(built.device);
          uinput := Some(twin);
        }
      }
    }
  }

  /** The virtual device a record has after `open_uinput`, and the cache file and capabilities it saved. */
  twostate predicate Opened(device: Device, evdev: PhysicalDevice, sub: Subsystem, new saved: Option<(string, Capabilities)>)
    reads device, if device.uinput.Some? then {device.uinput.value} else {}
  {
    && (old(device.uinput).Some? ==> device.uinput == old(device.uinput) && saved == None)
    && (old(device.uinput).None? ==>
          var caps := GetCapabilities(evdev.reported);
          var built := Run(sub, [], Plan(device.name, caps));
          && saved == Some((CacheFile(device.name), caps))
          && (device.uinput.Some? <==> built.Built?)
          && (device.uinput.Some? ==>
                fresh(device.uinput.value) && device.uinput.value.device == built.device && device.uinput.value.emitted == []))
  }

  /**
   * `Device::new`: a record whose virtual device is created from the cached
   * capabilities when they load; a failed creation in that case aborts
   * (the `Failure` carries the refused builder chain).
   */
  method NewDevice(name: string, path: string, cache: Cache, sub: Subsystem) returns (r: Result<Device, BuildResult>)
    ensures r.Failure? <==> CacheFile(name) in cache && Run(sub, [], Plan(name, cache[CacheFile(name)])).Rejected?
    ensures r.Failure? ==> r.error == Run(sub, [], Plan(name, cache[CacheFile(name)]))
    ensures r.Success? ==>
              && fresh(r.value) && r.value.name == name && r.value.path == path
              && (r.value.uinput.Some? <==> CacheFile(name) in cache)
              && (r.value.uinput.Some? ==>
                    && fresh(r.value.uinput.value)
                    && r.value.uinput.value.device == Run(sub, [], Plan(name, cache[CacheFile(name)])).device
                    && r.value.uinput.value.emitted == [])
  {
    var uinput: Option<Uinput> := None;
    var file := CacheFile(name);
    if file in cache {
      var built := CreateDeviceWithCapabilities(sub, name, cache[file]);
      if built.Rejected? { return Failure(built); }
      var twin := new Uinput(built.device);
      uinput := Some(twin);
    }
    var device := new Device(name, path, uinput);
    return Success(device);
  }

  // ---------------------------------------------------------------------
  // The queue of records and the tasks serving them

  /** A spawned `evdev_thread`: the record it holds and the physical device it serves. */
  datatype Task = Task(device: Device, evdev: PhysicalDevice)

  function TaskDevices(tasks: seq<Task>): (r: seq<Device>)
    ensures |r| == |tasks|
    ensures forall i :: 0 <= i < |tasks| ==> r[i] == tasks[i].device
  {
    if tasks == [] then [] else [tasks[0].device] + TaskDevices(tasks[1..])
  }

  lemma TaskDevicesConcat(a: seq<Task>, b: seq<Task>)
    ensures TaskDevices(a + b) == TaskDevices(a) + TaskDevices(b)
  {
  }

  /** Every record the daemon holds: those queued and those held by a task. */
  function Records(queue: seq<Device>, tasks: seq<Task>): multiset<Device> {
    multiset(queue) + multiset(TaskDevices(tasks))
  }

  /** Sending the first queued record back to the end of the queue loses and duplicates nothing. */
  lemma Requeue(queue: seq<Device>, tasks: seq<Task>)
    requires queue != []
    ensures Records(queue[1..] + [queue[0]], tasks) == Records(queue, tasks)
  {
    assert queue == [queue[0]] + queue[1..];
  }

  /** Handing the first queued record to a new task loses and duplicates nothing. */
  lemma Dispatch(queue: seq<Device>, tasks: seq<Task>, evdev: PhysicalDevice)
    requires queue != []
    ensures Records(queue[1..], tasks + [Task(queue[0], evdev)]) == Records(queue, tasks)
  {
    assert queue == [queue[0]] + queue[1..];
    TaskDevicesConcat(tasks, [Task(queue[0], evdev)]);
  }

  /** A task ending and sending its record back to the queue loses and duplicates nothing. */
  lemma Finish(queue: seq<Device>, tasks: seq<Task>, i: nat)
    requires i < |tasks|
    ensures Records(queue + [tasks[i].device], tasks[..i] + tasks[i + 1..]) == Records(queue, tasks)
  {
    assert tasks == tasks[..i] + [tasks[i]] + tasks[i + 1..];
    TaskDevicesConcat(tasks[..i] + [tasks[i]], tasks[i + 1..]);
    TaskDevicesConcat(tasks[..i], [tasks[i]]);
    TaskDevicesConcat(tasks[..i], tasks[i + 1..]);
  }

  /**
   * The daemon's state: the records waiting in the channel, in order, and
   * the spawned tasks, each holding one record until it ends.
   */
  class State {
    var queue: seq<Device>
    var tasks: seq<Task>

    constructor (queue: seq<Device>)
      ensures this.queue == queue && tasks == []
    {
      this.queue := queue;
      tasks := [];
    }

    /** The first queued record, given its virtual device, goes to a new task serving `node`. */
    method DispatchHead(node: PhysicalDevice, sub: Subsystem) returns (saved: Option<(string, Capabilities)>)
      requires queue != []
      modifies this`queue, this`tasks, queue[0]
      ensures queue == old(queue)[1..] && tasks == old(tasks) + [Task(old(queue)[0], node)]
      ensures Records(queue, tasks) == Records(old(queue), old(tasks))
      ensures Opened(old(queue)[0], node, sub, saved)
    {
      var device := queue[0];
      saved := device.OpenUinput(node, sub);
      Dispatch(queue, tasks, node);
      queue, tasks := queue[1..], tasks + [Task(device, node)];
    }

    /** The first queued record goes back to the end of the queue, untouched. */
    method RequeueHead()
      requires queue != []
      modifies this`queue
      ensures queue == old(queue)[1..] + [old(queue)[0]]
      ensures Records(queue, tasks) == Records(old(queue), tasks)
    {
      Requeue(queue, tasks);
      queue := queue[1..] + [queue[0]];
    }

    /**
     * One round of `update_devices`: takes the first queued record (none:
     * the loop ends); when its path exists and the device opens, makes
     * sure it has a virtual device and hands it to a new task; otherwise
     * sends it back to the end of the same queue. `pathExists` and
     * `node` are what the file system and the kernel answer.
     */
    method UpdateStep(pathExists: bool, node: Option<PhysicalDevice>, sub: Subsystem)
        returns (received: bool, saved: Option<(string, Capabilities)>)
      modifies this, if queue != [] then {queue[0]} else {}
      ensures received <==> old(queue) != []
      ensures Records(queue, tasks) == Records(old(queue), old(tasks))
      ensures !received ==> queue == old(queue) && tasks == old(tasks) && saved == None
      ensures received && pathExists && node.Some? ==>
                && queue == old(queue)[1..]
                && tasks == old(tasks) + [Task(old(queue)[0], node.value)]
                && Opened(old(queue)[0], node.value, sub, saved)
      ensures received && !(pathExists && node.Some?) ==>
                && queue == old(queue)[1..] + [old(queue)[0]]
                && tasks == old(tasks)
                && old(queue)[0].uinput == old(queue[0].uinput)
                && saved == None
    {
      saved := None;
      if queue == [] { return false, saved; }
      if pathExists && node.Some? {
        saved := DispatchHead(node.value, sub);
      } else {
        RequeueHead();
      }
      received := true;
    }

    /** Task `i` ends and sends its record back to the end of the queue. */
    method FinishTask(i: nat)
      requires i < |tasks|
      modifies this`queue, this`tasks
      ensures queue == old(queue) + [old(tasks[i].device)] && tasks == old(tasks[..i] + tasks[i + 1..])
      ensures Records(queue, tasks) == Records(old(queue), old(tasks))
    {
      Finish(queue, tasks, i);
      queue, tasks := queue + [tasks[i].device], tasks[..i] + tasks[i + 1..];
    }

    /**
     * `evdev_thread`: runs the event proxy only when the record has a
     * virtual device (`proxied` is its result), then sends the record back
     * to the queue whatever that result. The task keeps the record only
     * while the proxy is still forwarding at `horizon`.
     */
    method EvdevThread(i: nat, horizon: nat) returns (finished: bool, proxied: Option<Outcome>)
      requires i < |tasks|
      modifies this, tasks[i].evdev, if tasks[i].device.uinput.Some? then {tasks[i].device.uinput.value} else {}
      ensures Records(queue, tasks) == Records(old(queue), old(tasks))
      ensures finished ==> queue == old(queue) + [old(tasks[i].device)] && tasks == old(tasks[..i] + tasks[i + 1..])
      ensures !finished ==> queue == old(queue) && tasks == old(tasks)
      ensures proxied.Some? <==> old(tasks[i].device.uinput).Some?
      ensures proxied.Some? ==>
                && Proxied(old(tasks[i].evdev), old(tasks[i].device.uinput).value, horizon, proxied.value)
                && proxied.value != Ok
                && (finished <==> proxied.value != Running)
      ensures proxied.None? ==> finished && unchanged(old(tasks[i].evdev))
    {
      var task := tasks[i];
      proxied := None;
      if task.device.uinput.Some? {
        var res := EventProxy(task.evdev, task.device.uinput.value, horizon);
        proxied := Some(res);
        if res == Running { return false, proxied; }
      }
      FinishTask(i);
      finished := true;
    }
  }
}
