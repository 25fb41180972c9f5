// The blocklist rules and the usages that are always protected.
module Blocklist {
  import opened Common
  import opened Tree

  // An absent field matches everything.
  datatype Rule = Rule(vendor: Option<U16>, product: Option<U16>, usagePage: Option<U16>, usage: Option<U16>,
                       reportId: Option<Byte>, reportType: Option<Direction>)

  const RULES: seq<Rule> := [
    Rule(None, None, Some(0xF1D0), None, None, None),
    Rule(None, None, Some(0x0001), Some(0x0002), None, None),
    Rule(None, None, Some(0x0001), Some(0x0006), None, None),
    Rule(None, None, Some(0x0001), Some(0x0007), None, None),
    Rule(None, None, Some(0x0001), Some(0x0080), None, None),
    Rule(Some(0x0b0e), None, Some(0xff00), None, Some(0x05), Some(Output)),
    Rule(Some(0x1d50), Some(0x60fc), None, None, None, None)]

  predicate Allows<T(==)>(wanted: Option<T>, actual: Option<T>) {
    wanted.None? || wanted == actual
  }

  predicate Applies(r: Rule, vendor: U16, product: U16, page: Option<U16>, usage: Option<U16>, id: Byte,
                    kind: Direction) {
    && Allows(r.vendor, Some(vendor)) && Allows(r.product, Some(product))
    && Allows(r.usagePage, page) && Allows(r.usage, usage)
    && Allows(r.reportId, Some(id)) && Allows(r.reportType, Some(kind))
  }

  predicate IsReportBlocked(vendor: U16, product: U16, page: Option<U16>, usage: Option<U16>, id: Byte,
                            kind: Direction) {
    exists r :: r in RULES && Applies(r, vendor, product, page, usage, id, kind)
  }

  predicate DeviceIsBlocked(vendor: U16, product: U16) {
    exists r :: r in RULES && BlocksDevice(r, vendor, product)
  }

  predicate BlocksDevice(r: Rule, vendor: U16, product: U16) {
    && r.reportId.None? && r.reportType.None? && r.usagePage.None? && r.usage.None?
    && r.vendor == Some(vendor) && Allows(r.product, Some(product))
  }

  predicate IsAlwaysProtected(page: Option<U16>, usage: Option<U16>, kind: Direction) {
    if page.None? then false
    else if page.value == 0x0007 then true
    else if page.value != 0x0001 || usage.None? then false
    else if usage.value in {0x0001, 0x0002, 0x0006, 0x0007} then kind != Feature
    else 0x0080 <= usage.value <= 0x008f || 0x00a0 <= usage.value <= 0x00b6
  }

  // Blocking a device blocks every report of every collection on it.
  lemma BlockedDeviceBlocksReports(
      vendor: U16, product: U16, page: Option<U16>, usage: Option<U16>, id: Byte, kind: Direction)
    requires DeviceIsBlocked(vendor, product)
    ensures IsReportBlocked(vendor, product, page, usage, id, kind)
  {
    var r :| r in RULES && BlocksDevice(r, vendor, product);
    assert Applies(r, vendor, product, page, usage, id, kind);
  }

  // No report of a keyboard or mouse collection can be read or written.
  lemma KeyboardsAndMiceProtected(vendor: U16, product: U16, usage: U16, id: Byte, kind: Direction)
    requires usage == 0x0002 || usage == 0x0006
    ensures IsReportBlocked(vendor, product, Some(0x0001), Some(usage), id, kind)
    ensures IsAlwaysProtected(Some(0x0001), Some(usage), kind) <==> kind != Feature
  {
    var r := if usage == 0x0002 then RULES[1] else RULES[2];
    assert r in RULES && Applies(r, vendor, product, Some(0x0001), Some(usage), id, kind);
  }

  // What the rules come to: FIDO keys, mice, keyboards, keypads and system controls, one
  // report of one vendor's devices, and one device as a whole.
  lemma BlockedIffListed(
      vendor: U16, product: U16, page: Option<U16>, usage: Option<U16>, id: Byte, kind: Direction)
    ensures IsReportBlocked(vendor, product, page, usage, id, kind)
      <==> page == Some(0xF1D0) || (page == Some(1) && usage in {Some(2), Some(6), Some(7), Some(0x80)})
           || (vendor == 0x0b0e && page == Some(0xff00) && id == 5 && kind == Output)
           || (vendor == 0x1d50 && product == 0x60fc)
    ensures DeviceIsBlocked(vendor, product) <==> vendor == 0x1d50 && product == 0x60fc
  {
    hide Applies, BlocksDevice;
    EachRule(vendor, product, page, usage, id, kind);
    if IsReportBlocked(vendor, product, page, usage, id, kind) {
      var r :| r in RULES && Applies(r, vendor, product, page, usage, id, kind);
      var i :| 0 <= i < |RULES| && RULES[i] == r;
    }
    if DeviceIsBlocked(vendor, product) {
      var r :| r in RULES && BlocksDevice(r, vendor, product);
      var i :| 0 <= i < |RULES| && RULES[i] == r;
    }
    assert forall i :: 0 <= i < 7 ==> RULES[i] in RULES;
  }

  lemma EachRule(vendor: U16, product: U16, page: Option<U16>, usage: Option<U16>, id: Byte, kind: Direction)
    ensures Applies(RULES[0], vendor, product, page, usage, id, kind) <==> page == Some(0xF1D0)
    ensures Applies(RULES[1], vendor, product, page, usage, id, kind) <==> page == Some(1) && usage == Some(2)
    ensures Applies(RULES[2], vendor, product, page, usage, id, kind) <==> page == Some(1) && usage == Some(6)
    ensures Applies(RULES[3], vendor, product, page, usage, id, kind) <==> page == Some(1) && usage == Some(7)
    ensures Applies(RULES[4], vendor, product, page, usage, id, kind) <==> page == Some(1) && usage == Some(0x80)
    ensures Applies(RULES[5], vendor, product, page, usage, id, kind)
      <==> vendor == 0x0b0e && page == Some(0xff00) && id == 5 && kind == Output
    ensures Applies(RULES[6], vendor, product, page, usage, id, kind) <==> vendor == 0x1d50 && product == 0x60fc
    ensures forall i :: 0 <= i < 6 ==> !BlocksDevice(RULES[i], vendor, product)
    ensures BlocksDevice(RULES[6], vendor, product) <==> vendor == 0x1d50 && product == 0x60fc
  {
  }
}
