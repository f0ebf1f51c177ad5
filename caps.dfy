/**
 * Capability capture and replay (src/capabilities.rs): a device's feature
 * groups flattened into plain code lists, and turned back into attribute
 * sets and the ordered builder calls that recreate the device.
 */
module Caps {
  import opened Wrappers
  import opened Evdev

  /** Cached calibration of one absolute axis. */
  datatype AbsInfoData = AbsInfoData(value: I32, minimum: I32, maximum: I32, fuzz: I32, flat: I32, resolution: I32)

  /** The capability record as stored in the cache: one code list per group. */
  datatype Capabilities = Capabilities(
    properties: seq<U16>,
    keys: seq<U16>,
    relativeAxes: seq<U16>,
    absoluteAxes: seq<(U16, AbsInfoData)>,
    switches: seq<U16>,
    ff: seq<U16>,
    maxFfEffects: Usize,
    msc: seq<U16>)

  // ---------------------------------------------------------------------
  // Capture: from a device's reported groups to stored code lists

  /** `list` holds exactly the codes of `group` (none when it is absent), in increasing order. */
  ghost predicate Captures(list: seq<U16>, group: Option<set<U16>>) {
    && (forall c :: c in list <==> group.Some? && c in group.value)
    && (forall i, j :: 0 <= i < j < |list| ==> list[i] < list[j])
  }

  /** `map_to_primitive!`: a group's codes as a list, or the empty list when the group is absent. */
  function ToPrimitive(group: Option<set<U16>>): (r: seq<U16>)
    ensures Captures(r, group)
    ensures r == [] <==> group.None? || group.value == {}
  {
    if group.Some? then
      AscendingEmpty(group.value);
      Ascending(group.value)
    else []
  }

  /** The calibration of each reported axis, its six values copied positionally. */
  function AbsEntries(info: seq<(U16, AbsInfo)>): (r: seq<(U16, AbsInfoData)>)
    ensures |r| == |info|
    ensures forall i :: 0 <= i < |r| ==>
              var (code, a) := info[i];
              && r[i].0 == code
              && r[i].1.value == a.value && r[i].1.minimum == a.minimum
              && r[i].1.maximum == a.maximum && r[i].1.fuzz == a.fuzz
              && r[i].1.flat == a.flat && r[i].1.resolution == a.resolution
  {
    if info == [] then []
    else
      var (code, a) := info[0];
      [(code, AbsInfoData(a.value, a.minimum, a.maximum, a.fuzz, a.flat, a.resolution))] + AbsEntries(info[1..])
  }

  /** `get_capabilities`: the capability record of a device, as `Captured` describes it. */
  function GetCapabilities(dev: Reported): Capabilities
  {
    Capabilities(
      properties := ToPrimitive(Some(dev.properties)),
      keys := ToPrimitive(dev.keys),
      relativeAxes := ToPrimitive(dev.relativeAxes),
      absoluteAxes := if dev.absInfo.Some? then AbsEntries(dev.absInfo.value) else [],
      switches := ToPrimitive(dev.switches),
      ff := ToPrimitive(dev.ff),
      maxFfEffects := dev.maxFfEffects,
      msc := ToPrimitive(dev.misc))
  }

  /**
   * Every group flattened to its codes in increasing order, an absent group
   * to the empty list; every axis calibration copied, and none when the
   * calibration cannot be read; the effect maximum copied.
   */
  lemma Captured(dev: Reported)
    ensures var c := GetCapabilities(dev);
            && Captures(c.properties, Some(dev.properties))
            && Captures(c.keys, dev.keys)
            && Captures(c.relativeAxes, dev.relativeAxes)
            && Captures(c.switches, dev.switches)
            && Captures(c.ff, dev.ff)
            && Captures(c.msc, dev.misc)
            && (dev.absInfo.None? ==> c.absoluteAxes == [])
            && (dev.absInfo.Some? ==> c.absoluteAxes == AbsEntries(dev.absInfo.value))
            && c.maxFfEffects == dev.maxFfEffects
  {
  }

  // ---------------------------------------------------------------------
  // Replay: from stored code lists back to attribute sets

  /** `AttributeSet::from_iter`: the codes of a list, duplicates collapsed. */
  function FromIter(codes: seq<U16>): (r: set<U16>)
    ensures r == Members(codes)
    ensures |r| <= |codes|
  {
    if codes == [] then {} else {codes[0]} + FromIter(codes[1..])
  }

  /** One optional group: absent when nothing is stored, else the stored codes as a set. */
  function FromPrimitive(codes: seq<U16>): (r: Option<set<U16>>)
    ensures r.None? <==> codes == []
    ensures r.Some? ==> forall c :: c in r.value <==> c in codes
  {
    if codes == [] then None else Some(FromIter(codes))
  }

  /** Device properties are always handed over as a set, possibly empty. */
  function Properties(caps: Capabilities): (r: set<U16>)
    ensures forall c :: c in r <==> c in caps.properties
  {
    FromIter(caps.properties)
  }

  function Ff(caps: Capabilities): (r: Option<set<U16>>)
    ensures r.None? <==> caps.ff == []
    ensures r.Some? ==> forall c :: c in r.value <==> c in caps.ff
  {
    FromPrimitive(caps.ff)
  }

  function Keys(caps: Capabilities): (r: Option<set<U16>>)
    ensures r.None? <==> caps.keys == []
    ensures r.Some? ==> forall c :: c in r.value <==> c in caps.keys
  {
    FromPrimitive(caps.keys)
  }

  function Msc(caps: Capabilities): (r: Option<set<U16>>)
    ensures r.None? <==> caps.msc == []
    ensures r.Some? ==> forall c :: c in r.value <==> c in caps.msc
  {
    FromPrimitive(caps.msc)
  }

  function Switches(caps: Capabilities): (r: Option<set<U16>>)
    ensures r.None? <==> caps.switches == []
    ensures r.Some? ==> forall c :: c in r.value <==> c in caps.switches
  {
    FromPrimitive(caps.switches)
  }

  function RelativeAxes(caps: Capabilities): (r: Option<set<U16>>)
    ensures r.None? <==> caps.relativeAxes == []
    ensures r.Some? ==> forall c :: c in r.value <==> c in caps.relativeAxes
  {
    FromPrimitive(caps.relativeAxes)
  }

  /** One builder setup per stored axis entry, the six calibration values copied positionally. */
  function AbsSetups(entries: seq<(U16, AbsInfoData)>): (r: seq<UinputAbsSetup>)
    ensures |r| == |entries|
    ensures forall i :: 0 <= i < |r| ==>
              var (code, d) := entries[i];
              && r[i].code == code
              && r[i].info.value == d.value && r[i].info.minimum == d.minimum
              && r[i].info.maximum == d.maximum && r[i].info.fuzz == d.fuzz
              && r[i].info.flat == d.flat && r[i].info.resolution == d.resolution
  {
    if entries == [] then []
    else
      var (code, d) := entries[0];
      [UinputAbsSetup(code, AbsInfo(d.value, d.minimum, d.maximum, d.fuzz, d.flat, d.resolution))]
        + AbsSetups(entries[1..])
  }

  function AbsoluteAxes(caps: Capabilities): (r: seq<UinputAbsSetup>)
    ensures |r| == |caps.absoluteAxes|
    ensures forall i :: 0 <= i < |r| ==>
              var (code, d) := caps.absoluteAxes[i];
              r[i] == UinputAbsSetup(code, AbsInfo(d.value, d.minimum, d.maximum, d.fuzz, d.flat, d.resolution))
  {
    AbsSetups(caps.absoluteAxes)
  }

  // ---------------------------------------------------------------------
  // The builder calls that recreate a device

  function AbsSteps(setups: seq<UinputAbsSetup>): (r: seq<Step>)
    ensures |r| == |setups|
    ensures forall i :: 0 <= i < |r| ==> r[i] == WithAbsoluteAxis(setups[i])
    ensures forall s :: s in r ==> s.WithAbsoluteAxis?
  {
    seq(|setups|, i requires 0 <= i < |setups| => WithAbsoluteAxis(setups[i]))
  }

  /** The optional capability groups, each replayed by one builder call. */
  datatype Group = KeysGroup | RelativeAxesGroup | SwitchesGroup | FfGroup | MscGroup

  function GroupStep(group: Group, codes: set<U16>): Step {
    match group
    case KeysGroup => WithKeys(codes)
    case RelativeAxesGroup => WithRelativeAxes(codes)
    case SwitchesGroup => WithSwitches(codes)
    case FfGroup => WithFf(codes)
    case MscGroup => WithMsc(codes)
  }

  /** The call for an optional group: none when the group is absent. */
  function OptionalStep(group: Group, codes: Option<set<U16>>): seq<Step> {
    if codes.Some? then [GroupStep(group, codes.value)] else []
  }

  /**
   * What the accessors hand to the builder for a device named `name`: the
   * properties set, each optional group, the absolute-axis setups and the
   * effect maximum cast to u32.
   */
  datatype Replay = Replay(
    name: string,
    properties: set<U16>,
    keys: Option<set<U16>>,
    absoluteAxes: seq<UinputAbsSetup>,
    relativeAxes: Option<set<U16>>,
    switches: Option<set<U16>>,
    ff: Option<set<U16>>,
    ffEffectsMax: U32,
    msc: Option<set<U16>>)

  function ReplayOf(name: string, caps: Capabilities): Replay {
    Replay(name, Properties(caps), Keys(caps), AbsoluteAxes(caps), RelativeAxes(caps),
           Switches(caps), Ff(caps), AsU32(caps.maxFfEffects), Msc(caps))
  }

  // ---------------------------------------------------------------------
  // Capture then replay

  /** What replay makes of a reported group: the group itself when it has codes, else nothing. */
  function Present(group: Option<set<U16>>): Option<set<U16>> {
    if group.Some? && group.value != {} then group else None
  }

  /** The builder setups of a device's reported axis calibrations, in reported order. */
  function ReportedSetups(absInfo: Option<seq<(U16, AbsInfo)>>): seq<UinputAbsSetup> {
    if absInfo.None? then []
    else seq(|absInfo.value|, i requires 0 <= i < |absInfo.value| => UinputAbsSetup(absInfo.value[i].0, absInfo.value[i].1))
  }

  /** A group captured and handed back is the reported set, or absent when the device reported none or an empty one. */
  lemma GroupRoundTrip(group: Option<set<U16>>)
    ensures FromPrimitive(ToPrimitive(group)) == Present(group)
  {
    var list := ToPrimitive(group);
    if list != [] {
      assert FromIter(list) == group.value;
    }
  }

  /** Every axis calibration survives capture and replay unchanged, in order. */
  lemma AxesRoundTrip(info: seq<(U16, AbsInfo)>)
    ensures AbsSetups(AbsEntries(info)) == ReportedSetups(Some(info))
  {
    var r := AbsSetups(AbsEntries(info));
    forall i | 0 <= i < |r| ensures r[i] == ReportedSetups(Some(info))[i] {
      assert r[i].info == info[i].1;
    }
  }

  /**
   * Replaying what `get_capabilities` captured hands the builder the
   * device's own property set, each reported group that has codes (and
   * nothing for an absent or empty group), every reported axis calibration
   * in order, and the effect maximum cast to u32.
   */
  lemma CaptureThenReplay(name: string, dev: Reported)
    ensures ReplayOf(name, GetCapabilities(dev)) ==
      Replay(name, dev.properties, Present(dev.keys), ReportedSetups(dev.absInfo),
             Present(dev.relativeAxes), Present(dev.switches), Present(dev.ff),
             AsU32(dev.maxFfEffects), Present(dev.misc))
  {
    var caps := GetCapabilities(dev);
    Captured(dev);
    assert Properties(caps) == dev.properties;
    GroupRoundTrip(dev.keys);
    GroupRoundTrip(dev.relativeAxes);
    GroupRoundTrip(dev.switches);
    GroupRoundTrip(dev.ff);
    GroupRoundTrip(dev.misc);
    if dev.absInfo.Some? {
      AxesRoundTrip(dev.absInfo.value);
    }
  }

  /** The position of each kind of call in the fixed application order. */
  function Rank(s: Step): nat {
    match s
    case NewBuilder => 0
    case WithName(_) => 1
    case WithPhys(_) => 2
    case WithProperties(_) => 3
    case WithKeys(_) => 4
    case WithAbsoluteAxis(_) => 5
    case WithRelativeAxes(_) => 6
    case WithSwitches(_) => 7
    case WithFf(_) => 8
    case WithFfEffectsMax(_) => 9
    case WithMsc(_) => 10
    case Build => 11
  }

  /**
   * The calls of each rank that replaying `r` takes, lowest rank first:
   * builder creation, name, phys and properties always; the keys call only
   * when keys are present; one call per absolute axis; the relative axes,
   * switches and force-feedback calls only when present; the effect maximum
   * always; the misc call only when present; `build` last.
   */
  function Pieces(r: Replay): (p: seq<seq<Step>>)
    ensures |p| == 12
  {
    [ [NewBuilder],
      [WithName(r.name)],
      [WithPhys(PHYS)],
      [WithProperties(r.properties)],
      OptionalStep(KeysGroup, r.keys),
      AbsSteps(r.absoluteAxes),
      OptionalStep(RelativeAxesGroup, r.relativeAxes),
      OptionalStep(SwitchesGroup, r.switches),
      OptionalStep(FfGroup, r.ff),
      [WithFfEffectsMax(r.ffEffectsMax)],
      OptionalStep(MscGroup, r.msc),
      [Build] ]
  }

  /** The calls of `pieces[from..]`, one piece after another. */
  function Concat(pieces: seq<seq<Step>>, from: nat): seq<Step>
    decreases |pieces| - from
  {
    if from >= |pieces| then [] else pieces[from] + Concat(pieces, from + 1)
  }

  lemma Unfold(pieces: seq<seq<Step>>, from: nat)
    requires from < |pieces|
    ensures Concat(pieces, from) == pieces[from] + Concat(pieces, from + 1)
    ensures from + 1 == |pieces| ==> Concat(pieces, from + 1) == []
  {
  }

  /** The builder calls `create_device_with_capabilities` makes, in the order it makes them. */
  function Plan(name: string, caps: Capabilities): seq<Step> {
    Concat(Pieces(ReplayOf(name, caps)), 0)
  }

  /**
   * Calls come in strictly increasing rank, except that the absolute-axis
   * calls, which share a rank, stand next to each other.
   */
  ghost predicate InOrder(steps: seq<Step>) {
    forall i, j :: 0 <= i < j < |steps| ==>
      Rank(steps[i]) < Rank(steps[j]) || (steps[i].WithAbsoluteAxis? && steps[j].WithAbsoluteAxis?)
  }

  /** Every call of `steps` has a rank in `[lo, hi)`. */
  ghost predicate RanksIn(steps: seq<Step>, lo: nat, hi: nat) {
    forall i :: 0 <= i < |steps| ==> lo <= Rank(steps[i]) < hi
  }

  lemma InOrderConcat(a: seq<Step>, b: seq<Step>, lo: nat, mid: nat, hi: nat)
    requires lo <= mid <= hi
    requires InOrder(a) && RanksIn(a, lo, mid)
    requires InOrder(b) && RanksIn(b, mid, hi)
    ensures InOrder(a + b) && RanksIn(a + b, lo, hi)
  {
    forall i, j | 0 <= i < j < |a + b|
      ensures Rank((a + b)[i]) < Rank((a + b)[j]) || ((a + b)[i].WithAbsoluteAxis? && (a + b)[j].WithAbsoluteAxis?)
    {
      if j < |a| {
        assert (a + b)[i] == a[i] && (a + b)[j] == a[j];
      } else if i >= |a| {
        assert (a + b)[i] == b[i - |a|] && (a + b)[j] == b[j - |a|];
      } else {
        assert (a + b)[i] == a[i] && (a + b)[j] == b[j - |a|];
      }
    }
    forall i | 0 <= i < |a + b| ensures lo <= Rank((a + b)[i]) < hi {
      if i < |a| { assert (a + b)[i] == a[i]; } else { assert (a + b)[i] == b[i - |a|]; }
    }
  }

  lemma SingleInOrder(s: Step)
    ensures InOrder([s]) && RanksIn([s], Rank(s), Rank(s) + 1)
  {
  }

  function GroupRank(group: Group): nat {
    match group
    case KeysGroup => 4
    case RelativeAxesGroup => 6
    case SwitchesGroup => 7
    case FfGroup => 8
    case MscGroup => 10
  }

  lemma OptionalStepInOrder(group: Group, codes: Option<set<U16>>)
    ensures InOrder(OptionalStep(group, codes))
    ensures RanksIn(OptionalStep(group, codes), GroupRank(group), GroupRank(group) + 1)
  {
  }

  lemma AbsStepsInOrder(setups: seq<UinputAbsSetup>)
    ensures InOrder(AbsSteps(setups)) && RanksIn(AbsSteps(setups), 5, 6)
  {
  }

  /** Piece `k` holds calls of rank `k` only. */
  ghost predicate Ranked(pieces: seq<seq<Step>>) {
    forall k :: 0 <= k < |pieces| ==> RanksIn(pieces[k], k, k + 1)
  }

  /** Each piece is in order on its own. */
  ghost predicate EachInOrder(pieces: seq<seq<Step>>) {
    forall k :: 0 <= k < |pieces| ==> InOrder(pieces[k])
  }

  lemma PiecesRanked(r: Replay)
    ensures Ranked(Pieces(r)) && EachInOrder(Pieces(r))
  {
    HeadRanked(r);
    MiddleRanked(r);
    TailRanked(r);
  }

  lemma HeadRanked(r: Replay)
    ensures forall k :: 0 <= k < 4 ==> InOrder(Pieces(r)[k]) && RanksIn(Pieces(r)[k], k, k + 1)
  {
    SingleInOrder(NewBuilder);
    SingleInOrder(WithName(r.name));
    SingleInOrder(WithPhys(PHYS));
    SingleInOrder(WithProperties(r.properties));
  }

  lemma MiddleRanked(r: Replay)
    ensures forall k :: 4 <= k < 8 ==> InOrder(Pieces(r)[k]) && RanksIn(Pieces(r)[k], k, k + 1)
  {
    OptionalStepInOrder(KeysGroup, r.keys);
    AbsStepsInOrder(r.absoluteAxes);
    OptionalStepInOrder(RelativeAxesGroup, r.relativeAxes);
    OptionalStepInOrder(SwitchesGroup, r.switches);
  }

  lemma TailRanked(r: Replay)
    ensures forall k :: 8 <= k < 12 ==> InOrder(Pieces(r)[k]) && RanksIn(Pieces(r)[k], k, k + 1)
  {
    OptionalStepInOrder(FfGroup, r.ff);
    SingleInOrder(WithFfEffectsMax(r.ffEffectsMax));
    OptionalStepInOrder(MscGroup, r.msc);
    SingleInOrder(Build);
  }

  lemma {:induction false} ConcatInOrder(pieces: seq<seq<Step>>, from: nat)
    requires Ranked(pieces) && EachInOrder(pieces) && from <= |pieces|
    ensures InOrder(Concat(pieces, from)) && RanksIn(Concat(pieces, from), from, |pieces|)
    decreases |pieces| - from
  {
    if from < |pieces| {
      ConcatInOrder(pieces, from + 1);
      InOrderConcat(pieces[from], Concat(pieces, from + 1), from, from + 1, |pieces|);
    }
  }

  /**
   * The fixed application order: builder creation, name, phys, properties,
   * keys, the absolute axes, relative axes, switches, force-feedback codes,
   * the effect maximum, misc codes, `build`; no kind of call twice except
   * the absolute axes.
   */
  lemma PlanInOrder(name: string, caps: Capabilities)
    ensures InOrder(Plan(name, caps))
  {
    PiecesRanked(ReplayOf(name, caps));
    ConcatInOrder(Pieces(ReplayOf(name, caps)), 0);
  }

  /** The calls of `steps` that have rank `rank`, in their order. */
  function OfRank(steps: seq<Step>, rank: nat): seq<Step> {
    if steps == [] then []
    else (if Rank(steps[0]) == rank then [steps[0]] else []) + OfRank(steps[1..], rank)
  }

  lemma {:induction false} OfRankConcat(a: seq<Step>, b: seq<Step>, rank: nat)
    ensures OfRank(a + b, rank) == OfRank(a, rank) + OfRank(b, rank)
  {
    if a == [] {
      assert a + b == b;
    } else {
      assert (a + b)[0] == a[0] && (a + b)[1..] == a[1..] + b;
      OfRankConcat(a[1..], b, rank);
    }
  }

  lemma {:induction false} OfRankAll(steps: seq<Step>, rank: nat)
    requires RanksIn(steps, rank, rank + 1)
    ensures OfRank(steps, rank) == steps
  {
    if steps != [] {
      assert forall i :: 0 <= i < |steps[1..]| ==> steps[1..][i] == steps[i + 1];
      OfRankAll(steps[1..], rank);
    }
  }

  lemma {:induction false} OfRankNone(steps: seq<Step>, rank: nat, lo: nat, hi: nat)
    requires RanksIn(steps, lo, hi) && !(lo <= rank < hi)
    ensures OfRank(steps, rank) == []
  {
    if steps != [] {
      assert forall i :: 0 <= i < |steps[1..]| ==> steps[1..][i] == steps[i + 1];
      OfRankNone(steps[1..], rank, lo, hi);
    }
  }

  /** Putting calls that all have rank `k` in front of `tail`. */
  lemma LayerOfRank(piece: seq<Step>, k: nat, tail: seq<Step>, rank: nat)
    requires RanksIn(piece, k, k + 1)
    ensures OfRank(piece + tail, rank) == (if rank == k then piece else []) + OfRank(tail, rank)
  {
    OfRankConcat(piece, tail, rank);
    if rank == k {
      OfRankAll(piece, rank);
    } else {
      OfRankNone(piece, rank, k, k + 1);
    }
  }

  lemma {:induction false} ConcatOfRank(pieces: seq<seq<Step>>, from: nat, rank: nat)
    requires Ranked(pieces) && from <= |pieces|
    ensures OfRank(Concat(pieces, from), rank) == if from <= rank < |pieces| then pieces[rank] else []
    decreases |pieces| - from
  {
    if from == |pieces| {
      assert OfRank([], rank) == [];
    } else {
      var tail := Concat(pieces, from + 1);
      ConcatOfRank(pieces, from + 1, rank);
      Unfold(pieces, from);
      LayerOfRank(pieces[from], from, tail, rank);
      if rank == from {
        assert OfRank(tail, rank) == [];
        assert pieces[from] + [] == pieces[from];
      } else {
        assert OfRank(Concat(pieces, from), rank) == [] + OfRank(tail, rank);
      }
    }
  }

  /**
   * Each kind of builder call occurs in the chain exactly as `Pieces`
   * prescribes: builder creation, name, phys, properties, the effect
   * maximum and `build` once each; the keys, relative-axes, switches,
   * force-feedback and misc calls once, with the accessor's set, exactly
   * when the accessor returns one; one absolute-axis call per setup, in
   * order.
   */
  lemma PlanCalls(name: string, caps: Capabilities, rank: nat)
    ensures OfRank(Plan(name, caps), rank) == if rank < 12 then Pieces(ReplayOf(name, caps))[rank] else []
  {
    PiecesRanked(ReplayOf(name, caps));
    ConcatOfRank(Pieces(ReplayOf(name, caps)), 0, rank);
  }

  /**
   * One builder call (`device = device.with_...(...)?`), followed in the
   * chain by `tail`; a refused call leaves the builder as it was.
   */
  method Apply(sub: Subsystem, device: seq<Step>, step: Step, ghost tail: seq<Step>)
    returns (next: seq<Step>, refused: bool)
    ensures refused <==> !Accepted(sub, device, step)
    ensures refused ==> next == device && Run(sub, device, [step] + tail) == Rejected(device, step)
    ensures !refused ==> next == device + [step] && Run(sub, device, [step] + tail) == Run(sub, next, tail)
  {
    refused := !Accepted(sub, device, step);
    next := if refused then device else device + [step];
    assert ([step] + tail)[1..] == tail;
  }

  /**
   * `if let Some(codes) = group { device = device.with_...(&codes)?; }`:
   * the call for an optional group, made only when the group is present.
   */
  method ApplyGroup(sub: Subsystem, device: seq<Step>, group: Group, codes: Option<set<U16>>, ghost tail: seq<Step>)
    returns (next: seq<Step>, refused: bool, failed: Step)
    ensures refused ==> codes.Some? && failed == GroupStep(group, codes.value)
    ensures refused ==> Run(sub, device, OptionalStep(group, codes) + tail) == Rejected(next, failed)
    ensures !refused ==> Run(sub, device, OptionalStep(group, codes) + tail) == Run(sub, next, tail)
  {
    if codes.Some? {
      failed := GroupStep(group, codes.value);
      next, refused := Apply(sub, device, failed, tail);
    } else {
      assert OptionalStep(group, codes) + tail == tail;
      next, refused, failed := device, false, Build;
    }
  }

  /** `for abs_setup in ... { device = device.with_absolute_axis(&abs_setup)?; }` */
  method ApplyAxes(sub: Subsystem, device: seq<Step>, axes: seq<UinputAbsSetup>, ghost tail: seq<Step>)
    returns (next: seq<Step>, refused: bool, failed: Step)
    ensures refused ==> Run(sub, device, AbsSteps(axes) + tail) == Rejected(next, failed)
    ensures !refused ==> Run(sub, device, AbsSteps(axes) + tail) == Run(sub, next, tail)
  {
    next, refused, failed := device, false, Build;
    for i := 0 to |axes|
      invariant Run(sub, device, AbsSteps(axes) + tail) == Run(sub, next, AbsSteps(axes[i..]) + tail)
    {
      var step := WithAbsoluteAxis(axes[i]);
      assert AbsSteps(axes[i..]) + tail == [step] + (AbsSteps(axes[i + 1..]) + tail);
      next, refused := Apply(sub, next, step, AbsSteps(axes[i + 1..]) + tail);
      if refused { return next, true, step; }
    }
    assert AbsSteps(axes[|axes|..]) + tail == tail;
  }

  /** `VirtualDeviceBuilder::new()?.name(name).with_phys(...)?`, followed in the chain by `tail`. */
  method StartBuilder(sub: Subsystem, name: string, ghost tail: seq<Step>)
    returns (device: seq<Step>, refused: bool, failed: Step)
    ensures refused ==> Run(sub, [], [NewBuilder, WithName(name), WithPhys(PHYS)] + tail) == Rejected(device, failed)
    ensures !refused ==> Run(sub, [], [NewBuilder, WithName(name), WithPhys(PHYS)] + tail) == Run(sub, device, tail)
  {
    ghost var afterName := [WithPhys(PHYS)] + tail;
    ghost var afterNew := [WithName(name)] + afterName;
    assert [NewBuilder, WithName(name), WithPhys(PHYS)] + tail == [NewBuilder] + afterNew;
    device, refused := Apply(sub, [], NewBuilder, afterNew);
    if refused { return device, true, NewBuilder; }
    device, refused := Apply(sub, device, WithName(name), afterName);
    device, refused := Apply(sub, device, WithPhys(PHYS), tail);
    failed := WithPhys(PHYS);
  }

  lemma ShapeFromFfMax(r: Replay)
    ensures Concat(Pieces(r), 9) == [WithFfEffectsMax(r.ffEffectsMax)] + (OptionalStep(MscGroup, r.msc) + [Build])
  {
    Unfold(Pieces(r), 9);
    Unfold(Pieces(r), 10);
    Unfold(Pieces(r), 11);
    assert [Build] + [] == [Build];
  }

  lemma ShapeFromRelativeAxes(r: Replay)
    ensures Concat(Pieces(r), 6) ==
      OptionalStep(RelativeAxesGroup, r.relativeAxes)
      + (OptionalStep(SwitchesGroup, r.switches)
      + (OptionalStep(FfGroup, r.ff)
      + Concat(Pieces(r), 9)))
  {
    Unfold(Pieces(r), 6);
    Unfold(Pieces(r), 7);
    Unfold(Pieces(r), 8);
  }

  lemma ShapeFromProperties(r: Replay)
    ensures Concat(Pieces(r), 3) ==
      [WithProperties(r.properties)]
      + (OptionalStep(KeysGroup, r.keys)
      + (AbsSteps(r.absoluteAxes)
      + Concat(Pieces(r), 6)))
  {
    Unfold(Pieces(r), 3);
    Unfold(Pieces(r), 4);
    Unfold(Pieces(r), 5);
  }

  /** The chain written out call by call, as `create_device_with_capabilities` makes them. */
  lemma PlanShape(r: Replay)
    ensures Concat(Pieces(r), 0) ==
      [NewBuilder, WithName(r.name), WithPhys(PHYS)]
      + ([WithProperties(r.properties)]
      + (OptionalStep(KeysGroup, r.keys)
      + (AbsSteps(r.absoluteAxes)
      + (OptionalStep(RelativeAxesGroup, r.relativeAxes)
      + (OptionalStep(SwitchesGroup, r.switches)
      + (OptionalStep(FfGroup, r.ff)
      + ([WithFfEffectsMax(r.ffEffectsMax)]
      + (OptionalStep(MscGroup, r.msc)
      + [Build]))))))))
  {
    Unfold(Pieces(r), 0);
    Unfold(Pieces(r), 1);
    Unfold(Pieces(r), 2);
    ShapeFromProperties(r);
    ShapeFromRelativeAxes(r);
    ShapeFromFfMax(r);
  }

  /**
   * `create_device_with_capabilities`: makes the builder calls of `Plan` one
   * after another, giving up at the first call the subsystem refuses.
   */
  method CreateDeviceWithCapabilities(sub: Subsystem, name: string, caps: Capabilities) returns (r: BuildResult)
    ensures r == Run(sub, [], Plan(name, caps))
  {
    var replay := ReplayOf(name, caps);
    var properties := WithProperties(replay.properties);
    var ffMax := WithFfEffectsMax(replay.ffEffectsMax);
    // the part of the chain still to be made after each stage
    ghost var afterMsc := [Build];
    ghost var afterFfMax := OptionalStep(MscGroup, replay.msc) + afterMsc;
    ghost var afterFf := [ffMax] + afterFfMax;
    ghost var afterSwitches := OptionalStep(FfGroup, replay.ff) + afterFf;
    ghost var afterRelative := OptionalStep(SwitchesGroup, replay.switches) + afterSwitches;
    ghost var afterAxes := OptionalStep(RelativeAxesGroup, replay.relativeAxes) + afterRelative;
    ghost var afterKeys := AbsSteps(replay.absoluteAxes) + afterAxes;
    ghost var afterProperties := OptionalStep(KeysGroup, replay.keys) + afterKeys;
    ghost var afterPhys := [properties] + afterProperties;
    PlanShape(replay);

    var device, refused, failed := StartBuilder(sub, name, afterPhys);
    if refused { return Rejected(device, failed); }

    device, refused := Apply(sub, device, properties, afterProperties);
    if refused { return Rejected(device, properties); }
    device, refused, failed := ApplyGroup(sub, device, KeysGroup, replay.keys, afterKeys);
    if refused { return Rejected(device, failed); }

    device, refused, failed := ApplyAxes(sub, device, replay.absoluteAxes, afterAxes);
    if refused { return Rejected(device, failed); }

    device, refused, failed := ApplyGroup(sub, device, RelativeAxesGroup, replay.relativeAxes, afterRelative);
    if refused { return Rejected(device, failed); }
    device, refused, failed := ApplyGroup(sub, device, SwitchesGroup, replay.switches, afterSwitches);
    if refused { return Rejected(device, failed); }
    device, refused, failed := ApplyGroup(sub, device, FfGroup, replay.ff, afterFf);
    if refused { return Rejected(device, failed); }
    device, refused := Apply(sub, device, ffMax, afterFfMax);
    device, refused, failed := ApplyGroup(sub, device, MscGroup, replay.msc, afterMsc);
    if refused { return Rejected(device, failed); }
    assert afterMsc == [Build] + [];
    device, refused := Apply(sub, device, Build, []);
    if refused { return Rejected(device, Build); }
    return Built(VirtualDevice(device));
  }
}
