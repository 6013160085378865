/** The record shapes of src/types/index.ts that the pages compute with.
    Dates are instants in milliseconds since the epoch; `number` fields that
    hold whole numbers in the dashboard (scores, counts) are integers. */
module Types {

  datatype Option<+T> = None | Some(value: T)

  /** The value of a filter `<select>`: the option 'all', or one value. */
  datatype Selection<+T> = All | Only(value: T)

  datatype ThreatType = Malware | Phishing | Ransomware | Ddos

  datatype Severity = Critical | High | Medium | Low

  /** The lower-case name a severity carries in the source. */
  function SeverityName(s: Severity): string
  {
    match s
    case Critical => "critical"
    case High => "high"
    case Medium => "medium"
    case Low => "low"
  }

  datatype Threat = Threat(
    id: string,
    kind: ThreatType,
    severity: Severity,
    title: string,
    description: string,
    source: string,
    timestamp: int,
    affectedCountries: seq<string>,
    affectedIndustries: seq<string>,
    ipAddress: Option<string>,
    url: Option<string>,
    hash: Option<string>,
    aiScore: int,
    mitreTactics: seq<string>)

  /** A hot spot on the attack map; latitude and longitude are only passed
      through to the map widget. */
  datatype AttackLocation = AttackLocation(
    id: string,
    lat: real,
    lng: real,
    kind: ThreatType,
    severity: Severity,
    count: int)

  /** What a lookup scans. The declared type lists only 'url' and 'hash', but
      the lookup page also stores 'ip'. */
  datatype ScanType = Ip | Url | Hash

  datatype ScanStatus = Clean | Malicious | Suspicious

  datatype ScanResult = ScanResult(
    kind: ScanType,
    value: string,
    status: ScanStatus,
    threatType: Option<string>,
    confidence: int,
    timestamp: int)

  datatype IncidentStatus = Open | Investigating | Contained | Resolved

  datatype Incident = Incident(
    id: string,
    title: string,
    status: IncidentStatus,
    severity: Severity,
    assignedTo: string,
    createdAt: int,
    updatedAt: int,
    description: string,
    mitreTactics: seq<string>,
    affectedAssets: seq<string>)

  /** An entry of the MITRE ATT&CK reference table the incident panel reads. */
  datatype MitreTactic = MitreTactic(id: string, name: string, description: string)

  datatype AlertStatus = New | Acknowledged | Resolved

  datatype Alert = Alert(
    id: string,
    title: string,
    severity: Severity,
    source: string,
    timestamp: int,
    mlPriority: int,
    status: AlertStatus)
}
