/**
 * The build matrix and the lookup tables the generators import from their
 * `Constants` module. That module is not part of this model: `Target` is an
 * enumeration with an ordered member list and an integer value per member, and
 * the tables indexed by LabVIEW version and target are kept symbolic.
 */
module Constants {
  import opened Wrappers
  import opened Strings

  /** `Target`: one platform/architecture/build-type combination. */
  datatype Target =
    | Windows_32_Release
    | Windows_32_Debug
    | Windows_64_Release
    | Windows_64_Debug
    | cRIO_Release
    | cRIO_Debug

  /** The members in declaration order (the order of `Target.__members__`). */
  const TargetMembers: seq<Target> :=
    [Windows_32_Release, Windows_32_Debug, Windows_64_Release, Windows_64_Debug, cRIO_Release, cRIO_Debug]

  /** A member's name: the key of its job and the job a fetch names. */
  function TargetName(t: Target): string {
    match t
    case Windows_32_Release => "Windows_32_Release"
    case Windows_32_Debug => "Windows_32_Debug"
    case Windows_64_Release => "Windows_64_Release"
    case Windows_64_Debug => "Windows_64_Debug"
    case cRIO_Release => "cRIO_Release"
    case cRIO_Debug => "cRIO_Debug"
  }

  /** `Target[name].value`: Windows targets below 4, debug builds odd. */
  function TargetValue(t: Target): nat {
    match t
    case Windows_32_Release => 0
    case Windows_32_Debug => 1
    case Windows_64_Release => 2
    case Windows_64_Debug => 3
    case cRIO_Release => 4
    case cRIO_Debug => 5
  }

  /** The values follow the names: below 4 exactly for the `Windows_*` members. */
  lemma {:induction false} WindowsValues(t: Target)
    ensures TargetValue(t) < 4 <==> StartsWith(TargetName(t), "Windows_")
  {
    var n := TargetName(t);
    if t in {cRIO_Release, cRIO_Debug} {
      assert n[0] == 'c';
      assert n[..8][0] != "Windows_"[0];
    } else {
      assert n[..8] == "Windows_";
    }
  }

  /** The values follow the names: odd exactly for the `*_Debug` members. */
  lemma {:induction false} DebugValues(t: Target)
    ensures TargetValue(t) % 2 == if EndsWith(TargetName(t), "_Debug") then 1 else 0
  {
    var n := TargetName(t);
    if t in {Windows_32_Debug, Windows_64_Debug, cRIO_Debug} {
      assert n[|n| - 6..] == "_Debug";
    } else {
      assert n[|n| - 1] == 'e';
      assert n[|n| - 6..][5] != "_Debug"[5];
    }
  }

  /** The 64-bit Windows members are the ones named `Windows_64_*`. */
  lemma {:induction false} Windows64Values(t: Target)
    ensures t in {Windows_64_Release, Windows_64_Debug} <==> StartsWith(TargetName(t), "Windows_64_")
  {
    var n := TargetName(t);
    if t in {Windows_64_Release, Windows_64_Debug} {
      assert n[..11] == "Windows_64_";
    } else if t in {Windows_32_Release, Windows_32_Debug} {
      assert n[8] == '3';
      assert n[..11][8] != "Windows_64_"[8];
    } else {
      assert n[0] == 'c';
      if |n| >= 11 {
        assert n[..11][0] != "Windows_64_"[0];
      }
    }
  }

  /** `Target[name]`: the member called `name`, or `KeyError`. */
  function TargetFromName(name: string): (r: Result<Target>)
    ensures r.Ok? ==> TargetName(r.value) == name
  {
    if name == "Windows_32_Release" then Ok(Windows_32_Release)
    else if name == "Windows_32_Debug" then Ok(Windows_32_Debug)
    else if name == "Windows_64_Release" then Ok(Windows_64_Release)
    else if name == "Windows_64_Debug" then Ok(Windows_64_Debug)
    else if name == "cRIO_Release" then Ok(cRIO_Release)
    else if name == "cRIO_Debug" then Ok(cRIO_Debug)
    else Err(KeyError(name))
  }

  /** Every member is listed once, and a member's name leads back to it. */
  lemma {:induction false} TargetMembersEnumerate(t: Target)
    ensures t in TargetMembers
    ensures forall i, j :: 0 <= i < j < |TargetMembers| ==> TargetMembers[i] != TargetMembers[j]
    ensures TargetFromName(TargetName(t)) == Ok(t)
  {
  }

  /** `Target._member_names_`. */
  const TargetMemberNames: seq<string> :=
    ["Windows_32_Release", "Windows_32_Debug", "Windows_64_Release", "Windows_64_Debug", "cRIO_Release", "cRIO_Debug"]

  /** The name list follows the member list, holds no name twice, and holds exactly the
    * names `Target[name]` accepts. */
  lemma {:induction false} MemberNames(name: string)
    ensures |TargetMemberNames| == |TargetMembers|
    ensures forall i :: 0 <= i < |TargetMembers| ==> TargetMemberNames[i] == TargetName(TargetMembers[i])
    ensures forall i, j :: 0 <= i < j < |TargetMemberNames| ==> TargetMemberNames[i] != TargetMemberNames[j]
    ensures name in TargetMemberNames <==> TargetFromName(name).Ok?
  {
  }

  /** `profileId[lv_version][target]`: the elastic agent profile of a job. */
  datatype ProfileId = ProfileId(lvVersion: string, target: Target)

  /** `labviewDir[lv_version][target]`: the LabVIEW installation a VI package goes into. */
  datatype LabVIEWDir = LabVIEWDir(lvVersion: string, target: Target)
}
