// The page-visible shape of a HID report descriptor: a forest of collections with
// reports made of fields.
module Hid {
  import opened Common

  datatype Unit = Unit(exponent: I32, system: string, length: I32, mass: I32, time: I32,
                       temperature: I32, current: I32, luminosity: I32)

  datatype Attributes = Attributes(
    logicalMinimum: I32, logicalMaximum: I32, physicalMinimum: I32, physicalMaximum: I32, unit: Unit,
    isAbsolute: bool, isLinear: bool, isVolatile: bool, isBufferedBytes: bool,
    hasNull: bool, hasPreferredState: bool, wrap: bool)

  // Strings are opaque UTF-8.
  datatype Field = Field(
    usages: Option<seq<U32>>, usageMinimum: Option<U32>, usageMaximum: Option<U32>,
    reportSize: U32, reportCount: U32,
    isArray: bool, isRange: bool, isConstant: bool,
    attributes: Attributes, strings: seq<seq<Byte>>)

  datatype Report = Report(id: Byte, items: seq<Field>)

  datatype Collection = Collection(
    kind: Byte, usagePage: Option<U16>, usage: Option<U16>,
    children: seq<Collection>,
    inputs: seq<Report>, outputs: seq<Report>, features: seq<Report>)

  const DEFAULT_ATTRIBUTES := Attributes(0, 0, 0, 0, Unit(0, "", 0, 0, 0, 0, 0, 0),
                                         false, false, false, false, false, false, false)

  const DEFAULT_FIELD := Field(None, None, None, 0, 0, false, false, false, DEFAULT_ATTRIBUTES, [])
}
