/** The record shapes of the fixture module the pages import. Only the fields
    that the modelled code reads are kept; `type` is spelled `kind` because
    `type` is a Dafny keyword. Currency amounts are integers, as in the
    fixture; `slaCompliance` carries decimals and is a real. */
module Records {
  import opened Options

  /** The selector value that switches a page's categorical filter off. */
  const All: string := "all"

  datatype Vendor = Vendor(
    id: string,
    name: string,
    kind: string,
    status: string,
    contractValue: int,
    slaCompliance: real,
    riskScore: int)

  datatype Bill = Bill(
    invoiceNo: string,
    vendorId: string,
    vendorName: string,
    amount: int,
    gst: int,
    tds: int,
    netPayable: int,
    status: string,
    holdReason: Option<string>)

  datatype SlaRecord = SlaRecord(
    id: string,
    vendorId: string,
    vendorName: string,
    serviceName: string,
    unit: Option<string>,
    status: string,
    penalty: int)

  datatype RiskAssessment = RiskAssessment(
    vendorId: string,
    vendorName: string,
    riskLevel: string,
    score: int)

  datatype ComplianceCheck = ComplianceCheck(name: string, status: string)

  datatype ProcurementRecord = ProcurementRecord(
    id: string,
    title: string,
    kind: string,
    status: string,
    stage: string,
    estimatedValue: int,
    submittedDate: Option<string>)

  datatype Activity = Activity(id: string, kind: string, title: string)

  /** JavaScript truthiness of an optional string field: undefined and the
      empty string are both falsy, every other string is truthy. */
  function Truthy(s: Option<string>): (t: bool)
    ensures s.None? ==> !t
    ensures s == Some("") ==> !t
    ensures s.Some? && s.value != "" ==> t
  {
    s.Some? && s.value != ""
  }
}
