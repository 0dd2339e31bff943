/** The vendors' self-service page: a vendor types a phone number, the page
    looks the vendor up by the trimmed number and shows the first five zones,
    the legal ones among them as recommendations, the first three of the
    vendor's reports and one alert chosen by the vendor's zone status. */
module VendorDashboard {
  import opened Common
  import opened Store
  import opened HygieneReports
  import V = Vendors
  import Z = Zones
  import AdminDashboard
  import Dashboard

  // ------------------------------------------------------------------ trim

  /** The characters `String.prototype.trim` removes: the ECMAScript WhiteSpace
      and LineTerminator code points. */
  predicate IsJsWhitespace(c: char) {
    || c == '\t' || c == '\n' || c == '\U{000B}' || c == '\U{000C}' || c == '\r' || c == ' '
    || c == '\U{00A0}' || c == '\U{1680}' || ('\U{2000}' <= c <= '\U{200A}')
    || c == '\U{2028}' || c == '\U{2029}' || c == '\U{202F}' || c == '\U{205F}'
    || c == '\U{3000}' || c == '\U{FEFF}'
  }

  /** Drops the leading whitespace: the result is the suffix from the first other character. */
  function TrimStart(s: string): (r: string)
    ensures |r| <= |s| && r == s[|s| - |r|..]
    ensures r == [] || !IsJsWhitespace(r[0])
    ensures forall i :: 0 <= i < |s| - |r| ==> IsJsWhitespace(s[i])
  {
    if s != [] && IsJsWhitespace(s[0]) then TrimStart(s[1..]) else s
  }

  /** Drops the trailing whitespace: the result is the prefix up to the last other character. */
  function TrimEnd(s: string): (r: string)
    ensures |r| <= |s| && r == s[..|r|]
    ensures r == [] || !IsJsWhitespace(r[|r| - 1])
    ensures forall i :: |r| <= i < |s| ==> IsJsWhitespace(s[i])
  {
    if s != [] && IsJsWhitespace(s[|s| - 1]) then TrimEnd(s[..|s| - 1]) else s
  }

  /** `trim()`: the longest infix that neither starts nor ends with whitespace,
      with only whitespace cut on either side. */
  function Trim(s: string): (r: string)
    ensures r == [] || (!IsJsWhitespace(r[0]) && !IsJsWhitespace(r[|r| - 1]))
    ensures var k := LeadingWhitespace(s);
            && k + |r| <= |s| && r == s[k..k + |r|]
            && (forall i :: 0 <= i < k ==> IsJsWhitespace(s[i]))
            && (forall i :: k + |r| <= i < |s| ==> IsJsWhitespace(s[i]))
  {
    var front := TrimStart(s);
    var r := TrimEnd(front);
    var k := |s| - |front|;
    assert r == s[k..k + |r|] && forall i :: k + |r| <= i < |s| ==> s[i] == front[i - k];
    r
  }

  /** How many characters the trim cuts at the front. */
  function LeadingWhitespace(s: string): (k: nat)
    ensures k <= |s|
    ensures k < |s| ==> !IsJsWhitespace(s[k])
    ensures forall i :: 0 <= i < k ==> IsJsWhitespace(s[i])
  {
    |s| - |TrimStart(s)|
  }

  /** The search is a no-op exactly when the typed text is empty or all whitespace. */
  lemma BlankPhone(s: string)
    ensures Trim(s) == [] <==> forall i :: 0 <= i < |s| ==> IsJsWhitespace(s[i])
  {
  }

  /** Trimming twice is trimming once. */
  lemma TrimIdempotent(s: string)
    ensures Trim(Trim(s)) == Trim(s)
  {
    var r := Trim(s);
    assert TrimStart(r) == r;
    assert TrimEnd(r) == r;
  }

  // ---------------------------------------------------------------- lookup

  /** `Vendor.filter({ phone })` then `vendors[0]`: the first vendor in store
      order whose phone is exactly the given text, or None when there is none. */
  function LookupVendor(vs: seq<Entity<V.Vendor>>, phone: string): (found: Option<Entity<V.Vendor>>)
    ensures found.None? <==> forall i :: 0 <= i < |vs| ==> vs[i].data.phone != phone
    ensures found.Some? ==> exists k :: 0 <= k < |vs| && vs[k] == found.value && vs[k].data.phone == phone
                                        && forall j :: 0 <= j < k ==> vs[j].data.phone != phone
  {
    var matches := VendorsWithPhone(vs, phone);
    if matches == [] then None
    else
      FilterHead(vs, PhoneIs(phone));
      Some(matches[0])
  }

  /** A vendor stored with whitespace around its phone can never be found: the
      text searched for is always trimmed. */
  lemma PaddedPhoneNeverFound(vs: seq<Entity<V.Vendor>>, typed: string, k: nat)
    requires k < |vs| && vs[k].data.phone != [] && IsJsWhitespace(vs[k].data.phone[0])
    ensures LookupVendor(vs, Trim(typed)) != Some(vs[k])
  {
  }

  // -------------------------------------------------------- recommendations

  /** The test `zone.status === 'legal'`. */
  function ZoneIsLegal(): Entity<Z.Zone> -> bool {
    (z: Entity<Z.Zone>) => z.data.status == Z.Legal
  }

  /** The recommended zones: the legal zones among the nearby ones, in order, at most 4. */
  function RecommendedZones(nearby: seq<Entity<Z.Zone>>): (rec: seq<Entity<Z.Zone>>)
    ensures |rec| <= 4
    ensures forall i :: 0 <= i < |rec| ==> rec[i] in nearby && rec[i].data.status == Z.Legal
    ensures |rec| <= |Filter(nearby, ZoneIsLegal())| && rec == Filter(nearby, ZoneIsLegal())[..|rec|]
    ensures |rec| == if |Filter(nearby, ZoneIsLegal())| <= 4 then |Filter(nearby, ZoneIsLegal())| else 4
  {
    Take(Filter(nearby, ZoneIsLegal()), 4)
  }

  /** With no legal zone nearby nothing is recommended; with only legal zones
      nearby the first four are. */
  lemma {:induction false} RecommendationExtremes(nearby: seq<Entity<Z.Zone>>)
    ensures (forall i :: 0 <= i < |nearby| ==> nearby[i].data.status != Z.Legal) ==> RecommendedZones(nearby) == []
    ensures (forall i :: 0 <= i < |nearby| ==> nearby[i].data.status == Z.Legal) ==> RecommendedZones(nearby) == Take(nearby, 4)
  {
    if forall i :: 0 <= i < |nearby| ==> nearby[i].data.status != Z.Legal {
      FilterNone(nearby, ZoneIsLegal());
    }
  }

  /** "Space Available": `current_vendors < max_vendors`, which is false when
      max_vendors is absent (a comparison with undefined). */
  predicate SpaceAvailable(z: Z.Zone) {
    z.maxVendors.Some? && z.currentVendors < z.maxVendors.value
  }

  /** For any zone whose count is not negative, this page offers space exactly
      when the administrators' page does not show FULL. */
  lemma SpaceAvailableIsNotFull(z: Z.Zone)
    requires z.currentVendors >= 0.0
    ensures SpaceAvailable(z) <==> !AdminDashboard.ShowsFull(z)
  {
  }

  /** A zone stored without max_vendors never shows space available. */
  lemma NoCapacityNoSpace(r: Z.ZoneRecord)
    requires Z.ValidRecord(r) && r.maxVendors.None?
    ensures !SpaceAvailable(Z.Decode(r).value)
  {
  }

  // ------------------------------------------------------------------ alerts

  datatype Alert = IllegalZoneAlert | RelocationAlert | CompliantAlert

  /** The alerts shown for a vendor: one per status, none while pending. */
  function Alerts(status: V.VendorZoneStatus): (alerts: seq<Alert>)
    ensures |alerts| <= 1
    ensures alerts == [] <==> status == V.Pending
    ensures IllegalZoneAlert in alerts <==> status == V.Illegal
    ensures RelocationAlert in alerts <==> status == V.RelocateRequired
    ensures CompliantAlert in alerts <==> status == V.Legal
  {
    (if status == V.Illegal then [IllegalZoneAlert] else [])
    + (if status == V.RelocateRequired then [RelocationAlert] else [])
    + (if status == V.Legal then [CompliantAlert] else [])
  }

  /** The illegal-zone alert here and the compliance alert on the map's vendor
      panel are shown for the same vendors; different statuses give different alerts. */
  lemma AlertsAgreeWithMap(v: V.Vendor, w: V.Vendor)
    ensures IllegalZoneAlert in Alerts(v.zoneStatus) <==> Dashboard.ShowsComplianceAlert(v)
    ensures v.zoneStatus != w.zoneStatus ==> Alerts(v.zoneStatus) != Alerts(w.zoneStatus)
  {
  }

  // ------------------------------------------------------------------ the page

  /** The reports listed after a search all belong to the vendor searched for. */
  lemma ShownReportsAreLinked(rs: seq<Entity<HygieneReport>>, vendorId: Id)
    ensures forall i :: 0 <= i < |Take(ReportsOfVendor(rs, vendorId), ReportsShown)| ==>
              Take(ReportsOfVendor(rs, vendorId), ReportsShown)[i].data.vendorId == Some(vendorId)
  {
    var linked := ReportsOfVendor(rs, vendorId);
    forall i | 0 <= i < |Take(linked, ReportsShown)|
      ensures Take(linked, ReportsShown)[i].data.vendorId == Some(vendorId)
    {
      assert Take(linked, ReportsShown)[i] == linked[i];
      assert LinkedTo(vendorId)(linked[i]);
    }
  }

  /** The number of zones and of reports the page keeps after a search. */
  const ZonesShown: nat := 5
  const ReportsShown: nat := 3

  class VendorDashboardPage {
    var phoneNumber: string
    var vendor: Option<Entity<V.Vendor>>
    var nearbyZones: seq<Entity<Z.Zone>>
    var recentReports: seq<Entity<HygieneReport>>
    var loading: bool

    constructor ()
      ensures phoneNumber == [] && vendor == None && nearbyZones == [] && recentReports == [] && !loading
    {
      phoneNumber := [];
      vendor := None;
      nearbyZones := [];
      recentReports := [];
      loading := false;
    }

    /** The "Vendor Not Found" card: shown whenever some text is typed, no vendor
        is held and no search runs, also before any search was made. */
    predicate ShowsNotFound()
      reads this
    {
      phoneNumber != [] && vendor.None? && !loading
    }

    /** Every listed report belongs to the vendor shown. */
    predicate ReportsMatchVendor()
      reads this
    {
      vendor.Some? ==> forall i :: 0 <= i < |recentReports| ==> recentReports[i].data.vendorId == Some(vendor.value.id)
    }

    /** The phone input's change handler. */
    method SetPhoneNumber(text: string)
      modifies this`phoneNumber
      ensures phoneNumber == text
      ensures ShowsNotFound() <==> text != [] && vendor.None? && !loading
    {
      phoneNumber := text;
    }

    /** `searchVendor`. A blank number changes nothing. Otherwise the lookup uses
        the trimmed number, and loading is off again at the end on every path. */
    method SearchVendor(store: EntityStore, lookupFails: bool, detailsFails: bool)
      modifies this`vendor, this`nearbyZones, this`recentReports, this`loading
      ensures Trim(phoneNumber) == [] ==>
                vendor == old(vendor) && nearbyZones == old(nearbyZones) && recentReports == old(recentReports)
                && loading == old(loading)
      ensures Trim(phoneNumber) != [] ==> !loading && SearchedFor(store, Trim(phoneNumber), lookupFails, detailsFails,
                                                                 old(nearbyZones), old(recentReports), old(vendor))
      ensures Trim(phoneNumber) != [] && !lookupFails && vendor.None? ==> ShowsNotFound()
    {
      var phone := Trim(phoneNumber);
      if phone == [] {
        return;
      }
      loading := true;
      ShowSearchResult(store, phone, lookupFails, detailsFails);
      loading := false;
    }

    /** What the page shows after a search for phone: a failed lookup keeps what
        was shown; a found vendor is shown, then the first five zones and its
        first three of its reports in the store's order, unless fetching those fails, which leaves the lists
        as they were; no match clears everything. */
    ghost predicate SearchedFor(store: EntityStore, phone: string, lookupFails: bool, detailsFails: bool,
                                zonesBefore: seq<Entity<Z.Zone>>, reportsBefore: seq<Entity<HygieneReport>>,
                                vendorBefore: Option<Entity<V.Vendor>>)
      reads this, store
    {
      && (lookupFails ==> vendor == vendorBefore && nearbyZones == zonesBefore && recentReports == reportsBefore)
      && (!lookupFails ==> vendor == LookupVendor(store.vendors, phone))
      && (!lookupFails && vendor.Some? && !detailsFails ==>
            && nearbyZones == Take(store.zones, ZonesShown)
            && recentReports == Take(ReportsOfVendor(store.reports, vendor.value.id), ReportsShown)
            && ReportsMatchVendor())
      && (!lookupFails && vendor.Some? && detailsFails ==> nearbyZones == zonesBefore && recentReports == reportsBefore)
      && (!lookupFails && vendor.None? ==> nearbyZones == [] && recentReports == [])
    }

    /** The body of the search once the number is known not to be blank. */
    method ShowSearchResult(store: EntityStore, phone: string, lookupFails: bool, detailsFails: bool)
      modifies this`vendor, this`nearbyZones, this`recentReports
      ensures SearchedFor(store, phone, lookupFails, detailsFails, old(nearbyZones), old(recentReports), old(vendor))
    {
      if !lookupFails {
        var found := LookupVendor(store.vendors, phone);
        if found.Some? {
          vendor := found;
          if !detailsFails {
            var zoneData, reportData := store.zones, ReportsOfVendor(store.reports, found.value.id);
            nearbyZones := Take(zoneData, ZonesShown);
            recentReports := Take(reportData, ReportsShown);
            ShownReportsAreLinked(store.reports, found.value.id);
          }
        } else {
          vendor := None;
          nearbyZones := [];
          recentReports := [];
        }
      }
    }
  }

  /** After a search that found a vendor and fetched its details, each
      recommended zone is one of the store's first five zones and is legal. */
  lemma {:induction false} RecommendationsComeFromStore(zones: seq<Entity<Z.Zone>>)
    ensures forall i :: 0 <= i < |RecommendedZones(Take(zones, ZonesShown))| ==>
              RecommendedZones(Take(zones, ZonesShown))[i] in zones[..|Take(zones, ZonesShown)|]
  {
  }
}
