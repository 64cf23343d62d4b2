/**
 * The enumerations of the vendor SDK (`FanSpeed`, `AirSwingUD`, `OperationMode`,
 * `AirSwingAutoMode`, `Power`), seen only through what the integration does with
 * them: iterate over their members, index them by name, read a member's name and
 * value. Their concrete members belong to the SDK and are a parameter here.
 */
module Vendor {
  import opened Wrappers

  /** One enumeration member: its symbolic name and its value. */
  datatype Member = Member(name: string, value: int)

  /** An enumeration: its members in definition order. */
  type Enum = seq<Member>

  /** The table of enumerations the device is constructed with. */
  datatype Constants = Constants(
    fanSpeed: Enum,
    airSwingUD: Enum,
    operationMode: Enum,
    airSwingAutoMode: Enum,
    power: Enum)

  /** True when some member of `e` is called `name`. */
  predicate HasName(e: Enum, name: string)
  {
    exists i :: 0 <= i < |e| && e[i].name == name
  }

  /**
   * Indexing an enumeration by name, `E[name]`: the member called `name`, or
   * `None` where the SDK raises a key error.
   */
  function Lookup(e: Enum, name: string): (r: Option<Member>)
    ensures r.Some? <==> HasName(e, name)
    ensures r.Some? ==> r.value in e && r.value.name == name
  {
    if e == [] then None
    else if e[0].name == name then Some(e[0])
    else
      var r := Lookup(e[1..], name);
      assert HasName(e[1..], name) ==> HasName(e, name) by {
        if HasName(e[1..], name) {
          var i :| 0 <= i < |e[1..]| && e[1..][i].name == name;
          assert e[i + 1].name == name;
        }
      }
      assert HasName(e, name) ==> HasName(e[1..], name) by {
        if HasName(e, name) {
          var i :| 0 <= i < |e| && e[i].name == name;
          assert i != 0 && e[1..][i - 1].name == name;
        }
      }
      r
  }

  /** `[f.name for f in E]`: the names of the members of `e`, in order. */
  function Names(e: Enum): (r: seq<string>)
    ensures |r| == |e|
    ensures forall i :: 0 <= i < |e| ==> r[i] == e[i].name
    ensures forall name :: name in r <==> HasName(e, name)
  {
    seq(|e|, i requires 0 <= i < |e| => e[i].name)
  }

}
