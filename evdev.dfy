/**
 * The parts of the evdev library and of the kernel that the daemon talks to,
 * reduced to values and oracle answers: fixed-width integers, calibration
 * records, input events, the iteration order of an attribute set, and the
 * virtual-device builder as a list of applied steps.
 */
module Evdev {
  import opened Wrappers

  type U16 = x: int | 0 <= x < 0x1_0000
  type U32 = x: int | 0 <= x < 0x1_0000_0000
  type I32 = x: int | -0x8000_0000 <= x < 0x8000_0000
  type Usize = x: int | 0 <= x < 0x1_0000_0000_0000_0000

  /** Event type of key events in the Linux input protocol. */
  const EV_KEY: U16 := 1

  /** Physical location string every virtual device is built with. */
  const PHYS: string := "rs-evdev-uinput"

  /** The kernel's calibration of one absolute axis (input_absinfo). */
  datatype AbsInfo = AbsInfo(value: I32, minimum: I32, maximum: I32, fuzz: I32, flat: I32, resolution: I32)

  /** One absolute axis as handed to the virtual-device builder. */
  datatype UinputAbsSetup = UinputAbsSetup(code: U16, info: AbsInfo)

  /** A raw input event; its timestamp is opaque and not modelled. */
  datatype InputEvent = InputEvent(eventType: U16, code: U16, value: I32)

  /**
   * What an opened physical device reports about its capability groups.
   * A group the device does not support at all is `None`; `absInfo` is
   * `None` when querying the axes' calibration fails.
   */
  datatype Reported = Reported(
    properties: set<U16>,
    ff: Option<set<U16>>,
    keys: Option<set<U16>>,
    misc: Option<set<U16>>,
    switches: Option<set<U16>>,
    relativeAxes: Option<set<U16>>,
    absInfo: Option<seq<(U16, AbsInfo)>>,
    maxFfEffects: Usize)

  /** Rust's `as u32` on a usize: keeps the low 32 bits. */
  function AsU32(n: Usize): (r: U32)
    ensures n < 0x1_0000_0000 ==> r == n
    ensures (r - n) % 0x1_0000_0000 == 0
  {
    n % 0x1_0000_0000
  }

  /**
   * The codes of an attribute set from `from` upwards, in the order the
   * library's bitset iterator yields them: ascending.
   */
  function AscendingFrom(s: set<U16>, from: int): (r: seq<U16>)
    requires 0 <= from <= 0x1_0000
    ensures forall x :: x in r <==> x in s && from <= x
    ensures forall i, j :: 0 <= i < j < |r| ==> r[i] < r[j]
    decreases 0x1_0000 - from
  {
    if from == 0x1_0000 then []
    else
      var rest := AscendingFrom(s, from + 1);
      assert forall i :: 0 <= i < |rest| ==> from < rest[i] by {
        forall i | 0 <= i < |rest| ensures from < rest[i] { assert rest[i] in rest; }
      }
      if from in s then [from as U16] + rest else rest
  }

  /** Iteration order of an attribute set: every member once, ascending. */
  function Ascending(s: set<U16>): (r: seq<U16>)
    ensures forall x :: x in r <==> x in s
    ensures forall i, j :: 0 <= i < j < |r| ==> r[i] < r[j]
  {
    AscendingFrom(s, 0)
  }

  /** The codes a sequence holds, duplicates collapsed. */
  function Members(r: seq<U16>): set<U16> {
    set x | x in r
  }

  /** A strictly increasing sequence holds as many codes as the set of its codes. */
  lemma {:induction false} IncreasingHasNoDuplicates(r: seq<U16>)
    requires forall i, j :: 0 <= i < j < |r| ==> r[i] < r[j]
    ensures |Members(r)| == |r|
  {
    if r != [] {
      var tail := r[1..];
      IncreasingHasNoDuplicates(tail);
      assert Members(r) == {r[0]} + Members(tail) by {
        forall x | x in r ensures x == r[0] || x in tail {
          var i :| 0 <= i < |r| && r[i] == x;
          if i > 0 { assert tail[i - 1] == x; }
        }
      }
      assert r[0] !in Members(tail) by {
        forall i | 0 <= i < |tail| ensures tail[i] != r[0] { assert tail[i] == r[i + 1]; }
      }
    }
  }

  /** Iterating an attribute set visits exactly as many codes as the set holds. */
  lemma AscendingCardinality(s: set<U16>)
    ensures |Ascending(s)| == |s|
  {
    var r := Ascending(s);
    IncreasingHasNoDuplicates(r);
    assert Members(r) == s;
  }

  /** Two held codes are visited lower code first, and nothing else is visited. */
  lemma AscendingPair(a: U16, b: U16)
    requires a < b
    ensures Ascending({a, b}) == [a, b]
  {
    var r := Ascending({a, b});
    AscendingCardinality({a, b});
    assert |r| == 2;
    assert r[0] in r && r[1] in r;
  }

  /** An empty attribute set iterates to nothing. */
  lemma AscendingEmpty(s: set<U16>)
    ensures Ascending(s) == [] <==> s == {}
  {
    var r := Ascending(s);
    if r != [] { assert r[0] in r; }
    if s != {} { var x :| x in s; assert x in r; }
  }

  /**
   * The calls made on a `VirtualDeviceBuilder`, in the order they are made.
   * A built virtual device is identified by the steps it was built with.
   */
  datatype Step =
    | NewBuilder
    | WithName(name: string)
    | WithPhys(phys: string)
    | WithProperties(properties: set<U16>)
    | WithKeys(keys: set<U16>)
    | WithAbsoluteAxis(setup: UinputAbsSetup)
    | WithRelativeAxes(relativeAxes: set<U16>)
    | WithSwitches(switches: set<U16>)
    | WithFf(ff: set<U16>)
    | WithFfEffectsMax(max: U32)
    | WithMsc(msc: set<U16>)
    | Build

  /** `name` and `with_ff_effects_max` cannot fail; every other builder call can. */
  predicate Fallible(s: Step) {
    !(s.WithName? || s.WithFfEffectsMax?)
  }

  /**
   * The uinput subsystem as an oracle: whether it accepts a builder call
   * after the calls already applied.
   */
  datatype Subsystem = Subsystem(accepts: (seq<Step>, Step) -> bool)

  predicate Accepted(sub: Subsystem, applied: seq<Step>, s: Step) {
    !Fallible(s) || sub.accepts(applied, s)
  }

  datatype VirtualDevice = VirtualDevice(setup: seq<Step>)

  /** Outcome of a builder chain: a device, or the calls applied before the one that failed. */
  datatype BuildResult = Built(device: VirtualDevice) | Rejected(applied: seq<Step>, failed: Step)

  /** Applies `todo` after `applied`, stopping at the first call the subsystem refuses. */
  function Run(sub: Subsystem, applied: seq<Step>, todo: seq<Step>): BuildResult
    decreases |todo|
  {
    if todo == [] then Built(VirtualDevice(applied))
    else if !Accepted(sub, applied, todo[0]) then Rejected(applied, todo[0])
    else Run(sub, applied + [todo[0]], todo[1..])
  }

  /** Every call of `plan` before position `n` was accepted after the calls before it. */
  ghost predicate AcceptedBefore(sub: Subsystem, plan: seq<Step>, n: int)
    requires n <= |plan|
  {
    forall k :: 0 <= k < n ==> Accepted(sub, plan[..k], plan[k])
  }

  /**
   * A builder chain yields a device exactly when every call is accepted, and
   * the device then holds every call in order; otherwise it stops at the
   * first refused call and applies none after it.
   */
  lemma {:induction false} RunStopsAtFirstRefusal(sub: Subsystem, applied: seq<Step>, todo: seq<Step>)
    requires AcceptedBefore(sub, applied + todo, |applied|)
    ensures var plan := applied + todo;
            var r := Run(sub, applied, todo);
            && (r.Built? <==> AcceptedBefore(sub, plan, |plan|))
            && (r.Built? ==> r.device.setup == plan)
            && (r.Rejected? ==>
                  && |applied| <= |r.applied| < |plan|
                  && r.applied == plan[..|r.applied|]
                  && r.failed == plan[|r.applied|]
                  && Fallible(r.failed)
                  && !sub.accepts(r.applied, r.failed)
                  && AcceptedBefore(sub, plan, |r.applied|))
    decreases |todo|
  {
    var plan := applied + todo;
    if todo == [] {
      assert plan == applied;
    } else if !Accepted(sub, applied, todo[0]) {
      assert plan[..|applied|] == applied;
    } else {
      var next := applied + [todo[0]];
      assert next + todo[1..] == plan;
      assert next == plan[..|applied| + 1];
      RunStopsAtFirstRefusal(sub, next, todo[1..]);
    }
  }

  /** `RunStopsAtFirstRefusal` for a chain started from an empty builder. */
  lemma RunFromScratch(sub: Subsystem, plan: seq<Step>)
    ensures var r := Run(sub, [], plan);
            && (r.Built? <==> AcceptedBefore(sub, plan, |plan|))
            && (r.Built? ==> r.device.setup == plan)
            && (r.Rejected? ==>
                  && |r.applied| < |plan|
                  && r.applied == plan[..|r.applied|]
                  && r.failed == plan[|r.applied|]
                  && !sub.accepts(r.applied, r.failed)
                  && AcceptedBefore(sub, plan, |r.applied|))
  {
    assert [] + plan == plan;
    RunStopsAtFirstRefusal(sub, [], plan);
  }
}
