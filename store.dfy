/**
 * The assessment store: one site record, an ordered list of doors and a sidebar flag,
 * with the partial-merge, bulk-initialise, map-update, filter-delete, toggle and
 * confirm-gated reset operations that change them, and the certificate number formatter.
 *
 * The clock, the random number source and the confirmation dialog are inputs:
 * an ISO-8601 date string, base-36 random strings (the text of `Math.random().toString(36)`)
 * and a boolean answer.
 */
module Store {
  import opened Wrappers
  import opened Text
  import opened Seqs

  /** The three answers a checklist question can receive. */
  datatype Verdict = Pass | Fail | NotApplicable

  datatype Door = Door(
    id: string,
    labelId: string,
    location: string,
    floorLevel: string,
    responses: map<int, Verdict>,   // question index -> answer; an absent key is unanswered
    images: seq<string>,
    notes: string,
    actionRequired: Option<string>)

  datatype SiteDetails = SiteDetails(
    businessName: string,
    customerName: string,
    siteAddress: string,
    customerPhone: string,
    customerEmail: string,
    certNumber: string,
    doorCount: int,
    engineerInitials: string,
    remedialRequired: bool,
    engineerSignature: string)

  /** A `Partial<SiteDetails>`: a field is `Some` exactly when the caller supplied it. */
  datatype SiteDetailsPatch = SiteDetailsPatch(
    businessName: Option<string>,
    customerName: Option<string>,
    siteAddress: Option<string>,
    customerPhone: Option<string>,
    customerEmail: Option<string>,
    certNumber: Option<string>,
    doorCount: Option<int>,
    engineerInitials: Option<string>,
    remedialRequired: Option<bool>,
    engineerSignature: Option<string>)

  const NoSiteChanges := SiteDetailsPatch(None, None, None, None, None, None, None, None, None, None)

  /** A `Partial<Door>`. `actionRequired` is itself optional, so supplying it is `Some(None)` or `Some(Some(text))`. */
  datatype DoorPatch = DoorPatch(
    id: Option<string>,
    labelId: Option<string>,
    location: Option<string>,
    floorLevel: Option<string>,
    responses: Option<map<int, Verdict>>,
    images: Option<seq<string>>,
    notes: Option<string>,
    actionRequired: Option<Option<string>>)

  const NoDoorChanges := DoorPatch(None, None, None, None, None, None, None, None)

  /** `{ ...a, ...b }` on one field: the later value wins when present. */
  function Later<T>(a: Option<T>, b: Option<T>): Option<T> { if b.Some? then b else a }

  /** `{ ...s, ...p }`: the fields present in `p` replace those of `s`; every other field is kept. */
  function MergeSiteDetails(s: SiteDetails, p: SiteDetailsPatch): (r: SiteDetails)
    ensures r.businessName == p.businessName.GetOr(s.businessName)
    ensures r.customerName == p.customerName.GetOr(s.customerName)
    ensures r.siteAddress == p.siteAddress.GetOr(s.siteAddress)
    ensures r.customerPhone == p.customerPhone.GetOr(s.customerPhone)
    ensures r.customerEmail == p.customerEmail.GetOr(s.customerEmail)
    ensures r.certNumber == p.certNumber.GetOr(s.certNumber)
    ensures r.doorCount == p.doorCount.GetOr(s.doorCount)
    ensures r.engineerInitials == p.engineerInitials.GetOr(s.engineerInitials)
    ensures r.remedialRequired == p.remedialRequired.GetOr(s.remedialRequired)
    ensures r.engineerSignature == p.engineerSignature.GetOr(s.engineerSignature)
  {
    SiteDetails(
      p.businessName.GetOr(s.businessName),
      p.customerName.GetOr(s.customerName),
      p.siteAddress.GetOr(s.siteAddress),
      p.customerPhone.GetOr(s.customerPhone),
      p.customerEmail.GetOr(s.customerEmail),
      p.certNumber.GetOr(s.certNumber),
      p.doorCount.GetOr(s.doorCount),
      p.engineerInitials.GetOr(s.engineerInitials),
      p.remedialRequired.GetOr(s.remedialRequired),
      p.engineerSignature.GetOr(s.engineerSignature))
  }

  /** The patch equivalent to applying `p` and then `q`. */
  function ThenSiteDetails(p: SiteDetailsPatch, q: SiteDetailsPatch): SiteDetailsPatch {
    SiteDetailsPatch(
      Later(p.businessName, q.businessName), Later(p.customerName, q.customerName),
      Later(p.siteAddress, q.siteAddress), Later(p.customerPhone, q.customerPhone),
      Later(p.customerEmail, q.customerEmail), Later(p.certNumber, q.certNumber),
      Later(p.doorCount, q.doorCount), Later(p.engineerInitials, q.engineerInitials),
      Later(p.remedialRequired, q.remedialRequired), Later(p.engineerSignature, q.engineerSignature))
  }

  /** Merging nothing changes nothing; merging the same patch twice is merging it once; two merges are one. */
  lemma MergeSiteDetailsAlgebra(s: SiteDetails, p: SiteDetailsPatch, q: SiteDetailsPatch)
    ensures MergeSiteDetails(s, NoSiteChanges) == s
    ensures MergeSiteDetails(MergeSiteDetails(s, p), p) == MergeSiteDetails(s, p)
    ensures MergeSiteDetails(MergeSiteDetails(s, p), q) == MergeSiteDetails(s, ThenSiteDetails(p, q))
  {
  }

  /** `{ ...d, ...p }` for a door: the fields present in `p` replace those of `d`. */
  function MergeDoor(d: Door, p: DoorPatch): (r: Door)
    ensures r.id == p.id.GetOr(d.id)
    ensures r.labelId == p.labelId.GetOr(d.labelId)
    ensures r.location == p.location.GetOr(d.location)
    ensures r.floorLevel == p.floorLevel.GetOr(d.floorLevel)
    ensures r.responses == p.responses.GetOr(d.responses)
    ensures r.images == p.images.GetOr(d.images)
    ensures r.notes == p.notes.GetOr(d.notes)
    ensures r.actionRequired == p.actionRequired.GetOr(d.actionRequired)
  {
    Door(
      p.id.GetOr(d.id),
      p.labelId.GetOr(d.labelId),
      p.location.GetOr(d.location),
      p.floorLevel.GetOr(d.floorLevel),
      p.responses.GetOr(d.responses),
      p.images.GetOr(d.images),
      p.notes.GetOr(d.notes),
      p.actionRequired.GetOr(d.actionRequired))
  }

  lemma MergeDoorIdentity(d: Door, p: DoorPatch)
    ensures MergeDoor(d, NoDoorChanges) == d
    ensures MergeDoor(MergeDoor(d, p), p) == MergeDoor(d, p)
  {
  }

  // ---------------------------------------------------------------- certificate number

  /** The date part: `toISOString().split('T')[0].replace(/-/g, '')`. */
  function CertDatePart(isoDate: string): (r: string)
    ensures '-' !in r && 'T' !in r
    ensures |r| <= |isoDate|
  {
    var day := PrefixBefore(isoDate, 'T');
    var r := RemoveAll(day, '-');
    assert multiset(day)['T'] == 0;
    assert multiset(r)['T'] == 0;
    r
  }

  /** The random part: `toString(36).substring(2, 5).toUpperCase()`. */
  function CertRandomPart(random36: string): (r: string)
    ensures |r| <= 3
    ensures |random36| >= 5 ==> |r| == 3
  {
    ToUpper(Substring(random36, 2, 5))
  }

  /** `MAE-<date>-<random>`; the date and random text are the clock and `Math.random` outputs. */
  function GenerateCertNumber(isoDate: string, random36: string): (r: string)
    ensures |r| >= 5 && r[..4] == "MAE-"
    ensures |r| == 5 + |CertDatePart(isoDate)| + |CertRandomPart(random36)|
    ensures r[4 + |CertDatePart(isoDate)|] == '-'
  {
    "MAE-" + CertDatePart(isoDate) + "-" + CertRandomPart(random36)
  }

  lemma {:induction false} PrefixBeforeFirst(a: string, b: string, c: char)
    requires c !in a
    ensures PrefixBefore(a + [c] + b, c) == a
    decreases |a|
  {
    if a != [] {
      assert (a + [c] + b)[1..] == a[1..] + [c] + b;
      PrefixBeforeFirst(a[1..], b, c);
    } else {
      assert a + [c] + b == [c] + b;
    }
  }

  lemma DigitsAreNotSeparators(s: string)
    requires IsDigitString(s)
    ensures '-' !in s && 'T' !in s
  {
    assert forall c :: c in s ==> IsDigit(c);
  }

  /** Removing the dashes of `y-m-d` leaves `ymd` when the three pieces are digits. */
  lemma {:induction false} RemoveDashesOfDay(y: string, m: string, d: string)
    requires IsDigitString(y) && IsDigitString(m) && IsDigitString(d)
    ensures RemoveAll(y + "-" + m + "-" + d, '-') == y + m + d
  {
    DigitsAreNotSeparators(y);
    DigitsAreNotSeparators(m);
    DigitsAreNotSeparators(d);
    assert RemoveAll("-", '-') == [];
    var a := y + "-";
    RemoveAllConcat(y, "-", '-');
    assert RemoveAll(a, '-') == y;
    var b := a + m;
    RemoveAllConcat(a, m, '-');
    assert RemoveAll(b, '-') == y + m;
    var c := b + "-";
    RemoveAllConcat(b, "-", '-');
    assert RemoveAll(c, '-') == y + m;
    RemoveAllConcat(c, d, '-');
    assert RemoveAll(c + d, '-') == y + m + d;
  }

  /** For a calendar date `YYYY-MM-DDT...` the date part is the eight digits `YYYYMMDD`. */
  lemma CertDatePartOfIsoDate(ymd: string, rest: string)
    requires |ymd| == 8 && IsDigitString(ymd)
    ensures CertDatePart(ymd[..4] + "-" + ymd[4..6] + "-" + ymd[6..] + "T" + rest) == ymd
  {
    var y, m, d := ymd[..4], ymd[4..6], ymd[6..];
    DigitSlice(ymd, 0, 4);
    DigitSlice(ymd, 4, 6);
    DigitSlice(ymd, 6, 8);
    assert ymd[0..4] == y && ymd[6..8] == d;
    var day := y + "-" + m + "-" + d;
    DigitsAreNotSeparators(y);
    DigitsAreNotSeparators(m);
    DigitsAreNotSeparators(d);
    assert 'T' !in day;
    PrefixBeforeFirst(day, rest, 'T');
    RemoveDashesOfDay(y, m, d);
    Split3(ymd, 4, 6);
  }

  /**
   * The random part holds at most three characters, exactly three when the random text
   * has at least five, and they are upper-case letters or digits when the text after
   * the leading "0." is base-36.
   */
  lemma CertRandomPartShape(random36: string)
    ensures |CertRandomPart(random36)| <= 3
    ensures |CertRandomPart(random36)| == 3 <==> |random36| >= 5
    ensures (forall i :: 2 <= i < |random36| ==> IsBase36Lower(random36[i])) ==>
              forall j :: 0 <= j < |CertRandomPart(random36)| ==> IsUpperAlnum(CertRandomPart(random36)[j])
  {
    var sub := Substring(random36, 2, 5);
    if forall i :: 2 <= i < |random36| ==> IsBase36Lower(random36[i]) {
      forall j | 0 <= j < |sub| ensures IsBase36Lower(sub[j]) {
        assert sub[j] == random36[2 + j];
      }
    }
  }

  /** The certificate number format: "MAE-", eight date digits, "-", up to three upper-case base-36 characters. */
  lemma CertNumberFormat(ymd: string, rest: string, random36: string)
    requires |ymd| == 8 && IsDigitString(ymd)
    requires forall i :: 2 <= i < |random36| ==> IsBase36Lower(random36[i])
    ensures var cert := GenerateCertNumber(ymd[..4] + "-" + ymd[4..6] + "-" + ymd[6..] + "T" + rest, random36);
      && 13 <= |cert| <= 16
      && cert[..4] == "MAE-" && cert[4..12] == ymd && cert[12] == '-'
      && (forall j :: 13 <= j < |cert| ==> IsUpperAlnum(cert[j]))
      && (|cert| == 16 <==> |random36| >= 5)
  {
    var iso := ymd[..4] + "-" + ymd[4..6] + "-" + ymd[6..] + "T" + rest;
    CertDatePartOfIsoDate(ymd, rest);
    CertRandomPartShape(random36);
    var cert := GenerateCertNumber(iso, random36);
    var part := CertRandomPart(random36);
    assert cert == "MAE-" + ymd + "-" + part;
    assert cert[4..12] == ymd;
    forall j | 13 <= j < |cert| ensures IsUpperAlnum(cert[j]) {
      assert cert[j] == part[j - 13];
    }
  }

  // ---------------------------------------------------------------- doors

  /** Door ids are pairwise distinct. */
  ghost predicate UniqueIds(doors: seq<Door>) {
    forall i, j :: 0 <= i < j < |doors| ==> doors[i].id != doors[j].id
  }

  predicate HasId(doors: seq<Door>, id: string) {
    exists i :: 0 <= i < |doors| && doors[i].id == id
  }

  /** `Array.from({ length: count })` has `ToLength(count)` elements: a negative count gives none. */
  function DoorCountFor(count: int): nat { if count < 0 then 0 else count }

  /** A door id: `Math.random().toString(36).substr(2, 9)`. */
  function DoorId(random36: string): (r: string)
    ensures |r| <= 9
    ensures |random36| >= 11 ==> r == random36[2..11]
  {
    Substr(random36, 2, 9)
  }

  /** The label of the door at 0-based position `i`: "D" followed by `i + 1`. */
  function DoorLabel(i: nat): string { "D" + NatToString(i + 1) }

  function NewDoor(random36: string, i: nat): Door {
    Door(DoorId(random36), DoorLabel(i), "", "", map[], [], "", None)
  }

  /**
   * The list `initializeDoors(count)` builds: `count` blank doors labelled D1..Dcount in order,
   * the i-th door taking its id from the i-th random string.
   */
  function NewDoors(count: int, randoms: seq<string>): (r: seq<Door>)
    requires |randoms| >= DoorCountFor(count)
    ensures |r| == DoorCountFor(count)
    ensures forall i :: 0 <= i < |r| ==>
      && r[i].id == DoorId(randoms[i]) && r[i].labelId == "D" + NatToString(i + 1)
      && r[i].location == "" && r[i].floorLevel == "" && r[i].notes == ""
      && r[i].responses == map[] && r[i].images == [] && r[i].actionRequired == None
  {
    seq(DoorCountFor(count), i requires 0 <= i < DoorCountFor(count) => NewDoor(randoms[i], i))
  }

  /** Bulk-created labels never repeat, whatever ids the random source produced. */
  lemma NewDoorLabelsDistinct(count: int, randoms: seq<string>)
    requires |randoms| >= DoorCountFor(count)
    ensures forall i, j :: 0 <= i < j < |NewDoors(count, randoms)| ==>
      NewDoors(count, randoms)[i].labelId != NewDoors(count, randoms)[j].labelId
  {
    var r := NewDoors(count, randoms);
    forall i, j | 0 <= i < j < |r| ensures r[i].labelId != r[j].labelId {
      assert r[i].labelId[1..] == NatToString(i + 1);
      assert r[j].labelId[1..] == NatToString(j + 1);
      NatToStringInjective(i + 1, j + 1);
    }
  }

  /** Ids are unique exactly when the random source yields distinct ids; the code itself does not check. */
  lemma NewDoorsUniqueIds(count: int, randoms: seq<string>)
    requires |randoms| >= DoorCountFor(count)
    requires forall i, j :: 0 <= i < j < DoorCountFor(count) ==> DoorId(randoms[i]) != DoorId(randoms[j])
    ensures UniqueIds(NewDoors(count, randoms))
  {
  }

  /** `doors.map(d => d.id === id ? { ...d, ...p } : d)`: same length, same positions, matching doors merged. */
  function UpdateDoors(doors: seq<Door>, id: string, p: DoorPatch): (r: seq<Door>)
    ensures |r| == |doors|
    ensures forall i :: 0 <= i < |doors| ==>
      r[i] == if doors[i].id == id then MergeDoor(doors[i], p) else doors[i]
    decreases |doors|
  {
    if doors == [] then []
    else [if doors[0].id == id then MergeDoor(doors[0], p) else doors[0]] + UpdateDoors(doors[1..], id, p)
  }

  /** An id that is not in the list changes nothing: no door is inserted. */
  lemma UpdateDoorsAbsent(doors: seq<Door>, id: string, p: DoorPatch)
    requires !HasId(doors, id)
    ensures UpdateDoors(doors, id, p) == doors
  {
  }

  /** With unique ids, updating the id found at position `k` rewrites that one position only. */
  lemma UpdateDoorsAt(doors: seq<Door>, k: nat, p: DoorPatch)
    requires UniqueIds(doors) && k < |doors|
    ensures UpdateDoors(doors, doors[k].id, p) == doors[k := MergeDoor(doors[k], p)]
  {
  }

  /** An update that leaves ids alone keeps them unique. */
  lemma UpdateDoorsKeepsUniqueIds(doors: seq<Door>, id: string, p: DoorPatch)
    requires UniqueIds(doors) && p.id.None?
    ensures UniqueIds(UpdateDoors(doors, id, p))
  {
  }

  /** `doors.filter(d => d.id !== id)`: the other doors, in their original order; an absent id is a no-op. */
  function DeleteDoors(doors: seq<Door>, id: string): (r: seq<Door>)
    ensures IsSubsequence(r, doors)
    ensures forall i :: 0 <= i < |r| ==> r[i].id != id
    ensures forall i :: 0 <= i < |doors| && doors[i].id != id ==> doors[i] in r
    ensures !HasId(doors, id) ==> r == doors
    decreases |doors|
  {
    if doors == [] then []
    else
      var rest := DeleteDoors(doors[1..], id);
      assert forall i :: 1 <= i < |doors| ==> doors[i] == doors[1..][i - 1];
      if doors[0].id == id then rest else [doors[0]] + rest
  }

  /** Every door record without the id keeps all of its copies; those with it keep none. */
  lemma {:induction false} DeleteDoorsCounts(doors: seq<Door>, id: string, d: Door)
    ensures multiset(DeleteDoors(doors, id))[d] == if d.id == id then 0 else multiset(doors)[d]
    decreases |doors|
  {
    if doors != [] {
      HeadTail(doors);
      DeleteDoorsCons(doors[0], doors[1..], id);
      DeleteDoorsCounts(doors[1..], id, d);
    }
  }

  /** The filter works door by door: deleting from a concatenation deletes from each part. */
  lemma {:induction false} DeleteDoorsConcat(a: seq<Door>, b: seq<Door>, id: string)
    ensures DeleteDoors(a + b, id) == DeleteDoors(a, id) + DeleteDoors(b, id)
    decreases |a|
  {
    if a == [] {
      assert a + b == b;
    } else {
      var first, rest := a[0], a[1..];
      var head := if first.id == id then [] else [first];
      HeadTail(a);
      ConcatAssoc([first], rest, b);
      DeleteDoorsCons(first, rest + b, id);
      DeleteDoorsCons(first, rest, id);
      DeleteDoorsConcat(rest, b, id);
      ConcatAssoc(head, DeleteDoors(rest, id), DeleteDoors(b, id));
    }
  }

  /** With unique ids, deleting the id at position `k` removes exactly that position. */
  lemma DeleteDoorsAt(doors: seq<Door>, k: nat)
    requires UniqueIds(doors) && k < |doors|
    ensures DeleteDoors(doors, doors[k].id) == doors[..k] + doors[k + 1..]
  {
    UniqueIdsAround(doors, k);
    SplitAt(doors, k);
    DeleteDoorsSplice(doors[..k], doors[k], doors[k + 1..]);
  }

  /** Deleting the id of a door that occurs nowhere else cuts exactly that door out. */
  lemma {:induction false} DeleteDoorsSplice(before: seq<Door>, door: Door, after: seq<Door>)
    requires !HasId(before, door.id) && !HasId(after, door.id)
    ensures DeleteDoors(before + [door] + after, door.id) == before + after
    decreases |before|
  {
    var id := door.id;
    if before == [] {
      assert before + [door] + after == [door] + after;
      DeleteDoorsCons(door, after, id);
    } else {
      var first, rest := before[0], before[1..];
      assert !HasId(rest, id) by {
        forall i | 0 <= i < |rest| ensures rest[i].id != id {
          assert rest[i] == before[i + 1];
        }
      }
      HeadTail(before);
      ConcatAssoc([first], rest, [door]);
      ConcatAssoc([first], rest + [door], after);
      ConcatAssoc([first], rest, after);
      DeleteDoorsCons(first, rest + [door] + after, id);
      DeleteDoorsSplice(rest, door, after);
    }
  }

  /** One step of the filter: the first door is kept exactly when its id differs. */
  lemma DeleteDoorsCons(door: Door, rest: seq<Door>, id: string)
    ensures DeleteDoors([door] + rest, id) == (if door.id == id then [] else [door]) + DeleteDoors(rest, id)
  {
    assert ([door] + rest)[1..] == rest;
  }

  /** With unique ids, the id at position `k` occurs nowhere before or after it. */
  lemma UniqueIdsAround(doors: seq<Door>, k: nat)
    requires UniqueIds(doors) && k < |doors|
    ensures !HasId(doors[..k], doors[k].id) && !HasId(doors[k + 1..], doors[k].id)
  {
    forall i | 0 <= i < k ensures doors[..k][i].id != doors[k].id {
      assert doors[..k][i] == doors[i];
    }
    var after := doors[k + 1..];
    forall i | 0 <= i < |after| ensures after[i].id != doors[k].id {
      assert after[i] == doors[k + 1 + i];
    }
  }

  /** Deleting keeps ids unique. */
  lemma DeleteDoorsKeepsUniqueIds(doors: seq<Door>, id: string)
    requires UniqueIds(doors)
    ensures UniqueIds(DeleteDoors(doors, id))
  {
    var r := DeleteDoors(doors, id);
    assert IsSubsequence(r, doors);
    SubsequenceUnique(r, doors);
  }

  lemma {:induction false} SubsequenceUnique(r: seq<Door>, s: seq<Door>)
    requires IsSubsequence(r, s) && UniqueIds(s)
    ensures UniqueIds(r)
    decreases |s|
  {
    if r != [] {
      if r[0] == s[0] && IsSubsequence(r[1..], s[1..]) {
        SubsequenceUnique(r[1..], s[1..]);
        SubsequenceBounds(r[1..], s[1..]);
        forall j | 0 < j < |r| ensures r[0].id != r[j].id {
          assert r[j] in s[1..] by { assert r[j] == r[1..][j - 1]; }
          var m :| 0 <= m < |s[1..]| && s[1..][m] == r[j];
          assert s[m + 1] == r[j];
        }
        forall i, j | 0 <= i < j < |r| ensures r[i].id != r[j].id {
          if i > 0 { assert r[i] == r[1..][i - 1] && r[j] == r[1..][j - 1]; }
        }
      } else {
        SubsequenceUnique(r, s[1..]);
      }
    }
  }

  // ---------------------------------------------------------------- the store

  /** `initialState.siteDetails`: blank fields around the given certificate number. */
  function InitialSiteDetails(certNumber: string): (r: SiteDetails)
    ensures r.certNumber == certNumber
    ensures r.businessName == "" && r.customerName == "" && r.siteAddress == ""
    ensures r.customerPhone == "" && r.customerEmail == "" && r.engineerInitials == "" && r.engineerSignature == ""
    ensures r.doorCount == 0 && !r.remedialRequired
  {
    SiteDetails("", "", "", "", "", certNumber, 0, "", false, "")
  }

  class AssessmentStore {
    var siteDetails: SiteDetails
    var doors: seq<Door>
    var isSidebarCollapsed: bool
    /** The certificate number generated once, when the store module is loaded; reset reuses it. */
    const initialCertNumber: string

    /** The store as created at module load from the clock and random text of that moment. */
    constructor (loadDate: string, random36: string)
      ensures initialCertNumber == GenerateCertNumber(loadDate, random36)
      ensures siteDetails == InitialSiteDetails(initialCertNumber)
      ensures doors == [] && !isSidebarCollapsed
    {
      initialCertNumber := GenerateCertNumber(loadDate, random36);
      siteDetails := InitialSiteDetails(GenerateCertNumber(loadDate, random36));
      doors := [];
      isSidebarCollapsed := false;
    }

    method SetSiteDetails(details: SiteDetailsPatch)
      modifies this
      ensures siteDetails == MergeSiteDetails(old(siteDetails), details)
      ensures doors == old(doors) && isSidebarCollapsed == old(isSidebarCollapsed)
    {
      siteDetails := MergeSiteDetails(siteDetails, details);
    }

    /** Replaces the whole door list; nothing of the previous list survives. */
    method InitializeDoors(count: int, randoms: seq<string>)
      requires |randoms| >= DoorCountFor(count)
      modifies this
      ensures doors == NewDoors(count, randoms)
      ensures siteDetails == old(siteDetails) && isSidebarCollapsed == old(isSidebarCollapsed)
    {
      doors := NewDoors(count, randoms);
    }

    /** Flips the flag, so two toggles restore it. */
    method ToggleSidebar()
      modifies this
      ensures isSidebarCollapsed == !old(isSidebarCollapsed)
      ensures siteDetails == old(siteDetails) && doors == old(doors)
    {
      isSidebarCollapsed := !isSidebarCollapsed;
    }

    method UpdateDoor(id: string, updatedFields: DoorPatch)
      modifies this
      ensures doors == UpdateDoors(old(doors), id, updatedFields)
      ensures siteDetails == old(siteDetails) && isSidebarCollapsed == old(isSidebarCollapsed)
    {
      doors := UpdateDoors(doors, id, updatedFields);
    }

    method DeleteDoor(id: string)
      modifies this
      ensures doors == DeleteDoors(old(doors), id)
      ensures siteDetails == old(siteDetails) && isSidebarCollapsed == old(isSidebarCollapsed)
    {
      doors := DeleteDoors(doors, id);
    }

    /**
     * Restores the initial state when the operator confirms, including the certificate
     * number issued at load; declining changes nothing.
     */
    method ResetForm(confirmed: bool)
      modifies this
      ensures confirmed ==> siteDetails == InitialSiteDetails(initialCertNumber) && doors == [] && !isSidebarCollapsed
      ensures !confirmed ==> siteDetails == old(siteDetails) && doors == old(doors) && isSidebarCollapsed == old(isSidebarCollapsed)
    {
      if confirmed {
        siteDetails := InitialSiteDetails(initialCertNumber);
        doors := [];
        isSidebarCollapsed := false;
      }
    }
  }
}
