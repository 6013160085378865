/** The attack map's markers (src/components/AttackMap.tsx): one circle per
    attack location, sized by its count and coloured by its severity. */
module AttackMap {
  import opened Types

  const CriticalColor := "#ff006e"
  const HighColor := "#ff6b35"
  const MediumColor := "#ffd23f"
  const LowColor := "#00d4ff"

  /** `getColor`: the marker colour for a severity name; any other name gets
      the low colour. */
  function Color(severity: string): string
  {
    match severity
    case "critical" => CriticalColor
    case "high" => HighColor
    case "medium" => MediumColor
    case "low" => LowColor
    case _ => LowColor
  }

  /** The four severities get four distinct colours, and a name that is not a
      severity is drawn like a low one. */
  lemma ColorsDistinct(a: Severity, b: Severity, other: string)
    requires other != "critical" && other != "high" && other != "medium"
    ensures Color(SeverityName(a)) == Color(SeverityName(b)) <==> a == b
    ensures Color(other) == LowColor
  {
    assert CriticalColor[4] == '0' && HighColor[4] == 'b' && MediumColor[4] == '2' && LowColor[4] == '4';
  }

  /** `getRadius`: `Math.min(count * 2, 30)`. */
  function Radius(count: int): (r: int)
    ensures r <= 30
    ensures r <= 2 * count
    ensures r == 2 * count || r == 30
  {
    if count * 2 <= 30 then count * 2 else 30
  }

  /** Up to a count of 15 the radius is twice the count. */
  lemma RadiusBelowCap(count: int)
    requires count <= 15
    ensures Radius(count) == 2 * count
  {
  }

  /** A larger count never gives a smaller marker. */
  lemma RadiusMonotone(a: int, b: int)
    requires a <= b
    ensures Radius(a) <= Radius(b)
  {
  }

  datatype Marker = Marker(id: string, lat: real, lng: real, radius: int, color: string)

  function MarkerOf(location: AttackLocation): Marker
  {
    Marker(location.id, location.lat, location.lng, Radius(location.count), Color(SeverityName(location.severity)))
  }

  /** `locations.map(...)`: one marker per location, in input order. */
  function Markers(locations: seq<AttackLocation>): (r: seq<Marker>)
    ensures |r| == |locations|
    ensures forall i :: 0 <= i < |r| ==>
      && r[i].id == locations[i].id
      && r[i].lat == locations[i].lat && r[i].lng == locations[i].lng
      && r[i].radius == Radius(locations[i].count) && r[i].radius <= 30
      && r[i].color == Color(SeverityName(locations[i].severity))
  {
    seq(|locations|, i requires 0 <= i < |locations| => MarkerOf(locations[i]))
  }
}
