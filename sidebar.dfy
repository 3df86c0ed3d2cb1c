/** The sidebar's derived view of the store: the per-door failure flag, labels, door count and client name. */
module Sidebar {
  import opened Text
  import opened Store

  /** `Object.values(door.responses).includes('Fail')`. */
  predicate HasFail(d: Door)
    ensures !HasFail(d) ==> forall k :: k in d.responses ==> d.responses[k] != Fail
    ensures d.responses == map[] ==> !HasFail(d)
  {
    Fail in d.responses.Values
  }

  /** A door has failed exactly when some answered question is a Fail; Pass and N/A answers never count. */
  lemma HasFailMeaning(d: Door)
    ensures HasFail(d) <==> exists k :: k in d.responses && d.responses[k] == Fail
    ensures d.responses == map[] ==> !HasFail(d)
  {
    if exists k :: k in d.responses && d.responses[k] == Fail {
      var k :| k in d.responses && d.responses[k] == Fail;
      assert k in d.responses.Keys;
    }
  }

  /** A single Fail marks the door; Pass and N/A answers, or no answers, do not. */
  lemma HasFailExamples(d: Door)
    ensures d.responses == map[3 := Fail] ==> HasFail(d)
    ensures d.responses == map[3 := Pass, 7 := NotApplicable] ==> !HasFail(d)
    ensures d.responses == map[] ==> !HasFail(d)
  {
    if d.responses == map[3 := Fail] {
      assert 3 in d.responses.Keys;
    }
    if d.responses == map[3 := Pass, 7 := NotApplicable] {
      HasFailMeaning(d);
    }
  }

  /** `door.labelId || "Door " + (index + 1)`. */
  function SidebarLabel(d: Door, index: nat): (r: string)
    ensures r != ""
    ensures d.labelId != "" ==> r == d.labelId
    ensures d.labelId == "" ==> r == "Door " + NatToString(index + 1)
  {
    if d.labelId != "" then d.labelId else "Door " + NatToString(index + 1)
  }

  /** Doors created in bulk always show their own "D<n>" label, never the fallback. */
  lemma NewDoorsShowOwnLabels(count: int, randoms: seq<string>)
    requires |randoms| >= DoorCountFor(count)
    ensures forall i :: 0 <= i < |NewDoors(count, randoms)| ==>
      SidebarLabel(NewDoors(count, randoms)[i], i) == "D" + NatToString(i + 1)
  {
  }

  datatype SidebarEntry = SidebarEntry(id: string, title: string, failing: bool)

  /** The `doors.map` of the sidebar: one entry per door, in list order. */
  function SidebarEntries(doors: seq<Door>): (r: seq<SidebarEntry>)
    ensures |r| == |doors|
    ensures forall i :: 0 <= i < |doors| ==>
      r[i].id == doors[i].id && r[i].title == SidebarLabel(doors[i], i) && (r[i].failing <==> HasFail(doors[i]))
  {
    seq(|doors|, i requires 0 <= i < |doors| => SidebarEntry(doors[i].id, SidebarLabel(doors[i], i), HasFail(doors[i])))
  }

  /** The "Doors (n)" heading: it counts exactly the entries listed beneath it. */
  function DoorCountShown(doors: seq<Door>): (n: nat)
    ensures n == |SidebarEntries(doors)|
  {
    |doors|
  }

  /** `siteDetails.businessName || 'N/A'`. */
  function ClientNameShown(s: SiteDetails): (r: string)
    ensures r != ""
    ensures s.businessName != "" ==> r == s.businessName
    ensures s.businessName == "" ==> r == "N/A"
  {
    if s.businessName != "" then s.businessName else "N/A"
  }
}
