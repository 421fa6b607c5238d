/** The records of webpilot/safety/models.py that cross module boundaries. */
module SafetyModels {
  import opened Common

  datatype RiskLevel = L0 | L1 | L2 | L3

  /** What a browser action is aimed at, without the short-lived element ref. */
  datatype SafetyTarget = SafetyTarget(role: Option<string>, name: Option<string>, url: Option<string>)

  /** A digest of tool name and target; distinct pairs are taken to have distinct digests. */
  datatype Fingerprint = Fingerprint(toolName: string, target: SafetyTarget)

  datatype ApprovalRequest = ApprovalRequest(
    requestId: nat,
    fingerprint: Fingerprint,
    riskLevel: RiskLevel,
    reason: string)
}
