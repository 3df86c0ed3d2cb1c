/**
 * The live report preview: the failure count folded over the doors, the per-door badge,
 * the first-ten door breakdown with its overflow line, and the site fallbacks.
 */
module Preview {
  import opened Wrappers
  import opened Text
  import opened Store
  import opened Sidebar

  /** The `reduce` callback run over `doors` from the left, starting at `acc`. */
  function FoldFailures(acc: nat, doors: seq<Door>): (n: nat)
    ensures acc <= n <= acc + |doors|
    decreases |doors|
  {
    if doors == [] then acc
    else FoldFailures(if HasFail(doors[0]) then acc + 1 else acc, doors[1..])
  }

  /** `totalFailures`. */
  function TotalFailures(doors: seq<Door>): (n: nat)
    ensures n <= |doors|
  {
    FoldFailures(0, doors)
  }

  /** `'Fail'` when the door has a failing answer, otherwise `'Pass'`. */
  function Badge(d: Door): (b: string)
    ensures b == "Fail" <==> HasFail(d)
    ensures b == "Fail" || b == "Pass"
  {
    if HasFail(d) then "Fail" else "Pass"
  }

  function Badges(doors: seq<Door>): (r: seq<string>)
    ensures |r| == |doors| && forall i :: 0 <= i < |doors| ==> r[i] == Badge(doors[i])
  {
    seq(|doors|, i requires 0 <= i < |doors| => Badge(doors[i]))
  }

  lemma {:induction false} FoldFailuresCountsFailBadges(acc: nat, doors: seq<Door>)
    ensures FoldFailures(acc, doors) == acc + multiset(Badges(doors))["Fail"]
    decreases |doors|
  {
    if doors != [] {
      assert Badges(doors) == [Badge(doors[0])] + Badges(doors[1..]);
      FoldFailuresCountsFailBadges(if HasFail(doors[0]) then acc + 1 else acc, doors[1..]);
    }
  }

  /** The failure total is the number of "Fail" badges over all doors. */
  lemma TotalFailuresCountsFailBadges(doors: seq<Door>)
    ensures TotalFailures(doors) == multiset(Badges(doors))["Fail"]
  {
    FoldFailuresCountsFailBadges(0, doors);
  }

  lemma {:induction false} FoldFailuresPositive(acc: nat, doors: seq<Door>)
    ensures FoldFailures(acc, doors) > acc <==> exists i :: 0 <= i < |doors| && HasFail(doors[i])
    decreases |doors|
  {
    if doors != [] {
      FoldFailuresPositive(if HasFail(doors[0]) then acc + 1 else acc, doors[1..]);
      if exists i :: 0 <= i < |doors[1..]| && HasFail(doors[1..][i]) {
        var i :| 0 <= i < |doors[1..]| && HasFail(doors[1..][i]);
        assert HasFail(doors[i + 1]);
      }
      if exists i :: 0 <= i < |doors| && HasFail(doors[i]) {
        var i :| 0 <= i < |doors| && HasFail(doors[i]);
        if i > 0 { assert HasFail(doors[1..][i - 1]); }
      }
    }
  }

  /** The failure tile is red exactly when some door has failed. */
  function FailureTileAlert(doors: seq<Door>): (red: bool)
    ensures red <==> exists i :: 0 <= i < |doors| && HasFail(doors[i])
  {
    FoldFailuresPositive(0, doors);
    TotalFailures(doors) > 0
  }

  /** At most this many doors are listed in the breakdown. */
  const PreviewLimit := 10

  datatype PreviewRow = PreviewRow(title: string, badge: string)

  /** "Door <n> (<label or N/A>)" with the door's badge; the number reads back as `i + 1`. */
  function PreviewRowOf(d: Door, i: nat): (r: PreviewRow)
    ensures r.badge == "Fail" <==> HasFail(d)
    ensures !HasFail(d) ==> r.badge == "Pass"
    ensures |r.title| > 5 + |NatToString(i + 1)| && r.title[..5] == "Door "
    ensures IsDigitString(r.title[5..5 + |NatToString(i + 1)|])
            && ParseDecimal(r.title[5..5 + |NatToString(i + 1)|]) == i + 1
    ensures var tag := if d.labelId != "" then d.labelId else "N/A";
            |r.title| >= |tag| + 3 && r.title[|r.title| - (|tag| + 3)..] == " (" + tag + ")"
    ensures var tag := if d.labelId != "" then d.labelId else "N/A";
            |r.title| == 5 + |NatToString(i + 1)| + |tag| + 3
  {
    var n := NatToString(i + 1);
    var tag := if d.labelId != "" then d.labelId else "N/A";
    var head, tail := "Door " + n, " (" + tag + ")";
    var title := head + tail;
    ParseNatToString(i + 1);
    assert title[..|head|] == head && title[|head|..] == tail;
    assert title[5..5 + |n|] == head[5..] == n;
    PreviewRow(title, Badge(d))
  }

  /** `doors.slice(0, 10).map(...)`: the first ten doors at most, in list order. */
  function PreviewRows(doors: seq<Door>): (r: seq<PreviewRow>)
    ensures |r| == Min(PreviewLimit, |doors|)
    ensures forall i :: 0 <= i < |r| ==> r[i] == PreviewRowOf(doors[i], i)
  {
    var shown := doors[..Min(PreviewLimit, |doors|)];
    seq(|shown|, i requires 0 <= i < |shown| => PreviewRowOf(shown[i], i))
  }

  /** The overflow line: "+<n - 10> more..." beyond ten doors, nothing otherwise. */
  function MoreLine(doors: seq<Door>): (r: Option<string>)
    ensures r.Some? <==> |doors| > PreviewLimit
    ensures |doors| > PreviewLimit ==> r == Some("+" + NatToString(|doors| - PreviewLimit) + " more...")
  {
    if |doors| > PreviewLimit then Some("+" + NatToString(|doors| - PreviewLimit) + " more...") else None
  }

  /** Listed rows and the hidden count account for every door. */
  lemma PreviewAccountsForAllDoors(doors: seq<Door>)
    ensures |PreviewRows(doors)| + (if MoreLine(doors).Some? then |doors| - PreviewLimit else 0) == |doors|
  {
  }

  /** Business name and site address, or the placeholders when empty. */
  function SiteHeading(s: SiteDetails): (r: (string, string))
    ensures r.0 != "" && r.1 != ""
    ensures s.businessName != "" ==> r.0 == s.businessName
    ensures s.siteAddress != "" ==> r.1 == s.siteAddress
    ensures s.businessName == "" ==> r.0 == "Client Name"
    ensures s.siteAddress == "" ==> r.1 == "Site Address"
  {
    (if s.businessName != "" then s.businessName else "Client Name",
     if s.siteAddress != "" then s.siteAddress else "Site Address")
  }
}
