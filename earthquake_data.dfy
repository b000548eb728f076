/**
  The hard-coded event dataset: one epicenter with its damage summary, and the
  ordered lists of buffer zones, affected settlements, tsunami areas,
  infrastructure points and monitoring stations. Nothing here changes at run
  time; the other modules read it.
 */
module EarthquakeData {

  /** The text JavaScript prints for a number (`String(n)`); coordinates, magnitudes and wave heights are kept in this form. */
  type NumberText = string

  datatype Coordinate = Coordinate(lat: NumberText, lng: NumberText)

  datatype Epicenter = Epicenter(
    lat: NumberText, lng: NumberText, magnitude: NumberText, depth: NumberText,
    time: string, location: string)

  datatype DamageSummary = DamageSummary(
    deaths: nat, injured: nat, buildingsDamaged: nat, roadsAffectedKm: nat, powerOutages: nat,
    maxWaveHeight: NumberText, affectedCoastlineKm: nat, warningStatus: string)

  /** The `earthquakeData` record. */
  datatype EarthquakeInfo = EarthquakeInfo(epicenter: Epicenter, damage: DamageSummary)

  datatype BufferZone = BufferZone(
    radiusKm: real, color: string, fillColor: string, fillOpacity: real, weight: nat,
    dashArray: string, labelText: string, description: string)

  datatype AreaDamage = AreaDamage(
    level: string, buildingsDamaged: nat, injured: nat, powerOutage: bool, description: string)

  datatype AffectedArea = AffectedArea(
    name: string, lat: NumberText, lng: NumberText, population: nat, damage: AreaDamage, icon: string)

  datatype TsunamiArea = TsunamiArea(
    name: string, coordinates: seq<Coordinate>, maxWaveHeight: NumberText, damage: string)

  /** An infrastructure point; `kind` is the source's `type` field. */
  datatype InfrastructurePoint = InfrastructurePoint(
    kind: string, name: string, lat: NumberText, lng: NumberText, status: string, description: string)

  datatype MonitoringStation = MonitoringStation(
    name: string, lat: NumberText, lng: NumberText, intensity: NumberText, status: string)

  /** All the global constants of the dataset file together. */
  datatype Dataset = Dataset(
    earthquake: EarthquakeInfo,
    bufferZones: seq<BufferZone>,
    affectedAreas: seq<AffectedArea>,
    tsunamiAreas: seq<TsunamiArea>,
    infrastructureDamage: seq<InfrastructurePoint>,
    monitoringStations: seq<MonitoringStation>)

  /** The Kamchatka M8.8 dataset the page ships with. */
  const Kamchatka: Dataset := Dataset(
    EarthquakeInfo(
      Epicenter("54.8", "162", "8.8", "29", "2025-07-30T18:10:00Z", "Off Kamchatka Peninsula, Russia"),
      DamageSummary(0, 12, 47, 8, 15000, "4.2", 150, "Lifted")),
    [ BufferZone(50.0, "#dc2626", "#dc2626", 0.1, 2, "5, 5", "High Damage Zone", "Severe structural damage expected"),
      BufferZone(150.0, "#f59e0b", "#f59e0b", 0.08, 2, "10, 5", "Medium Risk Zone", "Moderate damage and strong shaking"),
      BufferZone(300.0, "#10b981", "#10b981", 0.05, 1, "15, 10", "Low Risk Zone", "Light damage and noticeable shaking") ],
    [ AffectedArea("Petropavlovsk-Kamchatsky", "53.0446", "158.65", 179000,
        AreaDamage("moderate", 23, 8, true, "Main city affected by strong shaking. Several buildings damaged, power restored."), "city"),
      AffectedArea("Elizovo", "53.1833", "158.3833", 39000,
        AreaDamage("moderate", 12, 3, true, "Airport city with moderate damage to residential buildings."), "town"),
      AffectedArea("Vilyuchinsk", "52.9311", "158.4019", 22000,
        AreaDamage("light", 8, 1, false, "Naval base with minor structural damage reported."), "town"),
      AffectedArea("Ust-Kamchatsk", "56.2167", "162.4667", 4500,
        AreaDamage("severe", 4, 0, true, "Coastal settlement severely affected by tsunami waves."), "village") ],
    [ TsunamiArea("Avacha Bay",
        [Coordinate("52.8", "158.2"), Coordinate("52.9", "158.4"), Coordinate("53.1", "158.6"), Coordinate("53.2", "158.8")],
        "3.8", "moderate"),
      TsunamiArea("Kronotsky Bay",
        [Coordinate("54.2", "161.8"), Coordinate("54.5", "162.1"), Coordinate("54.8", "162.4"), Coordinate("55", "162.6")],
        "4.2", "severe"),
      TsunamiArea("Kamchatsky Bay",
        [Coordinate("55.8", "162.8"), Coordinate("56.1", "163"), Coordinate("56.4", "163.2"), Coordinate("56.6", "163.4")],
        "2.9", "light") ],
    [ InfrastructurePoint("bridge", "Avacha River Bridge", "53.0234", "158.6789", "damaged",
        "Major bridge connecting Petropavlovsk - structural assessment ongoing"),
      InfrastructurePoint("power", "Thermal Power Plant", "53.0567", "158.7123", "offline",
        "Main power facility - emergency shutdown, restoration in progress"),
      InfrastructurePoint("airport", "Elizovo Airport", "53.1681", "158.4536", "operational",
        "Airport operational - minor runway damage, flights resumed"),
      InfrastructurePoint("port", "Petropavlovsk Port", "53.0178", "158.6431", "damaged",
        "Harbor facilities damaged by tsunami - commercial operations suspended"),
      InfrastructurePoint("hospital", "Regional Hospital", "53.0445", "158.6234", "operational",
        "Emergency operations active - treating earthquake injuries") ],
    [ MonitoringStation("PET - Petropavlovsk", "53.023", "158.65", "7.2", "active"),
      MonitoringStation("ESS - Esso", "55.9333", "158.7", "5.8", "active"),
      MonitoringStation("TLK - Talakovo", "57.3167", "159.95", "4.9", "active") ])
}
