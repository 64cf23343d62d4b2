/**
 * `OPERATION_LIST`: the fixed table between the host's thermostat modes and the
 * vendor's operation-mode labels, its lookup in both directions, and the mode
 * the entity reports.
 */
module Modes {
  import opened Wrappers

  /** The host's thermostat modes. `Auto` has no entry in the table. */
  datatype HvacMode = Off | Heat | Cool | HeatCool | Auto | Dry | FanOnly

  /** `OPERATION_LIST`, in its declaration order. */
  const OperationList: seq<(HvacMode, string)> := [
    (Off, "Off"),
    (Heat, "Heat"),
    (Cool, "Cool"),
    (HeatCool, "Auto"),
    (Dry, "Dry"),
    (FanOnly, "Fan")
  ]

  /** The vendor labels of the table. */
  const Labels: set<string> := {"Off", "Heat", "Cool", "Auto", "Dry", "Fan"}

  /** The label of `m` among the entries from index `i` on. */
  function LabelFrom(m: HvacMode, i: nat): Option<string>
    decreases |OperationList| - i
  {
    if i >= |OperationList| then None
    else if OperationList[i].0 == m then Some(OperationList[i].1)
    else LabelFrom(m, i + 1)
  }

  /** The first mode labelled `name` among the entries from index `i` on. */
  function ModeFrom(name: string, i: nat): Option<HvacMode>
    decreases |OperationList| - i
  {
    if i >= |OperationList| then None
    else if OperationList[i].1 == name then Some(OperationList[i].0)
    else ModeFrom(name, i + 1)
  }

  /** `OPERATION_LIST[m]`: the vendor label of `m`, or `None` where the table raises a key error. */
  function Label(m: HvacMode): (r: Option<string>)
    ensures r.Some? <==> m != Auto
    ensures r.Some? ==> r.value in Labels
  {
    LabelFrom(m, 0)
  }

  /** The reverse lookup: the first mode of the table whose label is `name`, or `None`. */
  function ModeOf(name: string): (r: Option<HvacMode>)
    ensures r.None? <==> name !in Labels
    ensures r.Some? ==> Label(r.value) == Some(name)
  {
    ModeFrom(name, 0)
  }

  /** The mode the entity reports: `Off` while powered off, otherwise the reverse lookup. */
  function EffectiveMode(isOn: bool, name: string): (r: Option<HvacMode>)
    ensures !isOn ==> r == Some(Off)
  {
    if !isOn then Some(Off) else ModeOf(name)
  }

  /** `hvac_modes`: the keys of the table, in order. */
  function HvacModes(): (r: seq<HvacMode>)
    ensures |r| == |OperationList| == 6
    ensures forall i :: 0 <= i < |r| ==> r[i] == OperationList[i].0
    ensures forall i, j :: 0 <= i < j < |r| ==> r[i] != r[j]
    ensures forall m :: m in r <==> Label(m).Some?
  {
    var r := seq(|OperationList|, i requires 0 <= i < |OperationList| => OperationList[i].0);
    assert r == [Off, Heat, Cool, HeatCool, Dry, FanOnly];
    r
  }

  /** The table has six entries, with pairwise distinct modes and pairwise distinct labels. */
  lemma OperationListDistinct()
    ensures |OperationList| == 6
    ensures forall i, j :: 0 <= i < j < |OperationList| ==> OperationList[i].0 != OperationList[j].0
    ensures forall i, j :: 0 <= i < j < |OperationList| ==> OperationList[i].1 != OperationList[j].1
    ensures forall i :: 0 <= i < |OperationList| ==> OperationList[i].1 in Labels
  {
  }

  /** The reverse lookup finds a mode exactly for the six labels of the table. */
  lemma ModeOfDefined(name: string)
    ensures ModeOf(name).Some? <==> name in Labels
  {
    if name !in Labels {
      ModeFromMisses(name, 0);
    }
  }

  lemma {:induction false} ModeFromMisses(name: string, i: nat)
    requires name !in Labels
    ensures ModeFrom(name, i) == None
    decreases |OperationList| - i
  {
    if i < |OperationList| {
      OperationListDistinct();
      ModeFromMisses(name, i + 1);
    }
  }

  /** The reverse lookup and `Label` are inverse: label `name` gives mode `m` exactly when `m`'s entry carries it. */
  lemma ModeOfIsInverse(name: string, m: HvacMode)
    ensures ModeOf(name) == Some(m) <==> Label(m) == Some(name)
  {
    ModeOfDefined(name);
  }

  /** Round trip from the host side: every mode of the table comes back from its label. */
  lemma LabelRoundTrip(m: HvacMode)
    requires m != Auto
    ensures ModeOf(Label(m).value) == Some(m)
  {
    ModeOfIsInverse(Label(m).value, m);
  }

  /** Round trip from the vendor side: every label of the table is the label of its mode. */
  lemma ModeOfRoundTrip(name: string)
    requires name in Labels
    ensures ModeOf(name).Some? && Label(ModeOf(name).value) == Some(name)
  {
    ModeOfDefined(name);
    ModeOfIsInverse(name, ModeOf(name).value);
  }

  /** Two modes with the same label are the same mode. */
  lemma LabelInjective(m1: HvacMode, m2: HvacMode)
    requires Label(m1).Some? && Label(m1) == Label(m2)
    ensures m1 == m2
  {
    LabelRoundTrip(m1);
    LabelRoundTrip(m2);
  }

  /** While powered on, the reported mode is `m` exactly when the stored label is `m`'s, and unknown for a label outside the table. */
  lemma EffectiveModeWhenOn(name: string)
    ensures forall m :: EffectiveMode(true, name) == Some(m) <==> Label(m) == Some(name)
    ensures EffectiveMode(true, name) == None <==> name !in Labels
  {
    ModeOfDefined(name);
    forall m ensures EffectiveMode(true, name) == Some(m) <==> Label(m) == Some(name) {
      ModeOfIsInverse(name, m);
    }
  }

}
