// File names for exported card images (lib/utils.ts).
module SnapshotName {

  datatype Side = Front | Back

  const Prefix := "snapshot-card-"
  const Extension := ".png"

  /** `snapshot-card-${id}${side === "back" ? "-back" : ""}.png`; `side` defaults to Front at the call site. */
  function BuildSnapshotFileName(templateId: string, side: Side): (name: string)
    ensures Prefix <= name
    ensures |name| >= |Prefix| + |templateId| + |Extension|
    ensures |name| >= |Extension| && name[|name| - |Extension|..] == Extension
    ensures name[|Prefix|..|Prefix| + |templateId|] == templateId
    ensures side == Front ==> |name| == |Prefix| + |templateId| + |Extension|
    ensures side == Back ==> |name| == |Prefix| + |templateId| + |"-back"| + |Extension|
                             && name[|Prefix| + |templateId|..|name| - |Extension|] == "-back"
  {
    Prefix + templateId + (if side == Back then "-back" else "") + Extension
  }

  /** The front and back exports of one template never overwrite each other. */
  lemma FrontAndBackNamesDiffer(templateId: string)
    ensures BuildSnapshotFileName(templateId, Front) != BuildSnapshotFileName(templateId, Back)
  {
    assert |BuildSnapshotFileName(templateId, Front)| < |BuildSnapshotFileName(templateId, Back)|;
  }

  /** Different templates get different names for the same side. */
  lemma {:induction false} NamesInjective(a: string, b: string, side: Side)
    requires BuildSnapshotFileName(a, side) == BuildSnapshotFileName(b, side)
    ensures a == b
  {
    var na, nb := BuildSnapshotFileName(a, side), BuildSnapshotFileName(b, side);
    assert |a| == |b|;
    assert a == na[|Prefix|..|Prefix| + |a|] == nb[|Prefix|..|Prefix| + |b|] == b;
  }
}
