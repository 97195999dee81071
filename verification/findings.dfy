/**
 * The finding record the deposit monitor reports, and `createFinding`, which
 * builds it from the per-alert parameters. Amounts are integer wei.
 */
module Findings {
  import opened Wrappers

  /** The severity levels of a finding. */
  datatype FindingSeverity = Unknown | Info | Low | Medium | High | Critical

  /** The kinds of a finding. */
  datatype FindingType = UnknownType | Exploit | Suspicious | Degraded | InfoType

  /** The three alerts the monitor raises: a deposit, a small deposit, a blacklisted depositor. */
  datatype AlertCode = A001 | A002 | A003

  /** The order the alerts of one deposit are raised in. */
  function Rank(code: AlertCode): nat
  {
    match code
    case A001 => 1
    case A002 => 2
    case A003 => 3
  }

  /** The code as written in the alert id. */
  function CodeText(code: AlertCode): string
  {
    match code
    case A001 => "001"
    case A002 => "002"
    case A003 => "003"
  }

  /** The parameters of `createFinding`. */
  datatype FindingParams = FindingParams(
    alertId: AlertCode,
    account: string,
    depositedAmount: nat,
    description: string,
    severity: FindingSeverity,
    findingType: FindingType)

  datatype Metadata = Metadata(account: string, depositedAmount: nat)

  datatype Finding = Finding(
    name: string,
    description: string,
    alertId: string,
    severity: FindingSeverity,
    findingType: FindingType,
    protocol: string,
    metadata: Metadata)

  /** The fixed name of every finding (with its double space). */
  const FINDING_NAME: string := "Detects  all deposit transactions"

  /** The fixed protocol of every finding. */
  const PROTOCOL: string := "Depositor"

  /** What every alert id starts with. */
  const ALERT_PREFIX: string := "deposit-"

  /** The alert id of a code. */
  function AlertId(code: AlertCode): (id: string)
    ensures |id| == |ALERT_PREFIX| + 3 && id[..|ALERT_PREFIX|] == ALERT_PREFIX
    ensures id[|ALERT_PREFIX|..] == CodeText(code)
  {
    ALERT_PREFIX + CodeText(code)
  }

  /** Reading an alert id back: the code it names, if it is one of the three. */
  function ParseAlertId(id: string): (code: Option<AlertCode>)
  {
    if id == AlertId(A001) then Some(A001)
    else if id == AlertId(A002) then Some(A002)
    else if id == AlertId(A003) then Some(A003)
    else None
  }

  /** Every alert id reads back as its code, so distinct codes have distinct ids. */
  lemma AlertIdRoundTrip(code: AlertCode)
    ensures ParseAlertId(AlertId(code)) == Some(code)
  {
    assert AlertId(A001)[|ALERT_PREFIX| + 2] == '1';
    assert AlertId(A002)[|ALERT_PREFIX| + 2] == '2';
    assert AlertId(A003)[|ALERT_PREFIX| + 2] == '3';
  }

  /** `createFinding`: the fixed name and protocol, the prefixed alert id, the rest passed through. */
  function CreateFinding(p: FindingParams): (f: Finding)
    ensures f.name == FINDING_NAME && f.protocol == PROTOCOL
    ensures f.alertId == AlertId(p.alertId)
    ensures f.description == p.description && f.severity == p.severity && f.findingType == p.findingType
    ensures f.metadata == Metadata(p.account, p.depositedAmount)
  {
    Finding(FINDING_NAME, p.description, AlertId(p.alertId), p.severity, p.findingType, PROTOCOL,
            Metadata(p.account, p.depositedAmount))
  }

  /** The parameters a finding was built from, read back from the finding. */
  function ParamsOf(f: Finding): (p: Option<FindingParams>)
  {
    match ParseAlertId(f.alertId)
    case None => None
    case Some(code) =>
      Some(FindingParams(code, f.metadata.account, f.metadata.depositedAmount, f.description, f.severity,
                         f.findingType))
  }

  /** `createFinding` loses nothing: its parameters can be read back from the finding. */
  lemma CreateFindingRoundTrip(p: FindingParams)
    ensures ParamsOf(CreateFinding(p)) == Some(p)
  {
    AlertIdRoundTrip(p.alertId);
  }

  /** Two findings are equal exactly when they were built from equal parameters. */
  lemma CreateFindingInjective(p: FindingParams, q: FindingParams)
    ensures CreateFinding(p) == CreateFinding(q) <==> p == q
  {
    CreateFindingRoundTrip(p);
    CreateFindingRoundTrip(q);
  }
}
