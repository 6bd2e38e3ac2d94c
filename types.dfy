/**
 * The records the dashboard's views are built from: the live driver record,
 * the history record, the sleep profile, and the string enumerations they use.
 * Every JavaScript `number` is a `real` (exact; no IEEE-754 rounding), every
 * string a `seq<char>`, and every optional property (`x?: T`) an `Option<T>`.
 */
module DriverTypes {

  datatype Option<+T> = None | Some(value: T)

  /** Employment status of a history record ("activo" | "inactivo" | "suspendido"). */
  datatype Status = Activo | Inactivo | Suspendido

  /** Experience tier ("novato" | "intermedio" | "experto"). */
  datatype ExperienceLevel = Novato | Intermedio | Experto

  /** Qualitative attention level ("optimo" | "moderado" | "critico"). */
  datatype AttentionLevel = Optimo | Moderado | Critico

  /** Risk classification of a history record ("bajo" | "medio" | "alto"). */
  datatype RiskLevel = Bajo | Medio | Alto

  /** One telemetry sample in a driver's `alertnessData` list. */
  datatype AlertnessSample = AlertnessSample(
    timestamp: string,
    attentionScore: real,
    eyeMovement: real,
    headPosition: real,
    blinkRate: real,
    yawnCount: real)

  /** The live driver record shown by the monitor, the detail view and the suggestions view. */
  datatype Driver = Driver(
    id: string,
    name: string,
    image: string,
    attentionLevel: AttentionLevel,
    attentionScore: real,
    fatigueLevel: real,
    alertnessData: seq<AlertnessSample>,
    lastUpdate: string,
    licenseNumber: string,
    vehicleType: string,
    totalTrips: real,
    experienceLevel: ExperienceLevel,
    yearsExperience: real,
    lastTripDate: string,
    safetyScore: real,
    currentRoute: Option<string>,
    estimatedDistance: Option<real>,
    isOnDuty: bool,
    shiftStartTime: Option<string>,
    hoursOnDuty: Option<real>)

  /** One row of the driver history table. */
  datatype DriverHistoryRecord = DriverHistoryRecord(
    id: string,
    driverId: string,
    name: string,
    image: string,
    licenseNumber: string,
    vehicleType: string,
    totalTrips: real,
    experienceLevel: ExperienceLevel,
    yearsExperience: real,
    averageAttentionScore: real,
    lastActiveDate: string,
    status: Status,
    incidentsCount: real,
    tipoviaje: string,
    riskLevel: RiskLevel,
    totalHoursDriven: real,
    fatigueIncidents: real)

  /** Sleep status of a profile ("perfecto" | "con-problemas" | "critico"). */
  datatype SleepStatus = Perfecto | ConProblemas | CriticoSleep

  /** One night in a profile's `sleepData` list. */
  datatype SleepEntry = SleepEntry(date: string, hours: real, quality: real, deepSleep: real, remSleep: real)

  /** A sleep-monitoring profile. */
  datatype Profile = Profile(
    id: string,
    name: string,
    image: string,
    status: SleepStatus,
    sleepData: seq<SleepEntry>,
    lastUpdate: string,
    averageHours: real,
    sleepQuality: real,
    licenseNumber: string,
    vehicleType: string,
    totalTrips: real,
    confidenceLevel: real,
    yearsExperience: real,
    lastTripDate: string,
    safetyScore: real)

  /** The on-duty flag as a predicate, for `filter((d) => d.isOnDuty)`. */
  predicate IsOnDuty(d: Driver)
  {
    d.isOnDuty
  }

  /** The string each sleep status carries. */
  function SleepStatusText(s: SleepStatus): string {
    match s
    case Perfecto => "perfecto"
    case ConProblemas => "con-problemas"
    case CriticoSleep => "critico"
  }
}
