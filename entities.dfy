/** The shapes the converter works with: the nested dictionaries that
    accumulate the rows (`phases_dict`), and the entities assembled from them
    (`Project` → `Phase` → `Scene` → `Shot`). */
module Entities {
  import opened Wrappers
  import opened TsvReader

  // ----- the accumulator: the dictionaries built row by row -----

  /** `{"start": …, "end": …}`: each bound an integer or None. */
  datatype TimePeriod = TimePeriod(start: Option<int>, end: Option<int>)

  /** `{"type": …, "location_name": …}` */
  datatype Location = Location(locType: Cell, locationName: Cell)

  /** `{"speed": …, "type": …, "video_prompt": …}` */
  datatype CameraMovement = CameraMovement(speed: Cell, movementType: Cell, videoPrompt: Cell)

  /** `{"in_time": …, "out_time": …}` */
  datatype ShotTimecode = ShotTimecode(inTime: Cell, outTime: Cell)

  /** The dictionary of one shot; `oref` is the optional `"oref"` key. */
  datatype ShotData = ShotData(
    shotNumber: int,
    cameraAngle: Cell,
    specificArea: Cell,
    description: Cell,
    cameraMovement: CameraMovement,
    shotTimecode: ShotTimecode,
    imagePrompt: Cell,
    oref: Option<string>)

  /** The dictionary of one scene, with its shots in insertion order. */
  datatype SceneData = SceneData(
    sceneNumber: int,
    comment: Cell,
    period: Cell,
    season: Cell,
    weather: Cell,
    location: Location,
    diurnal: Cell,
    lightSource: Cell,
    shots: seq<ShotData>)

  /** The dictionary of one phase, its scenes keyed by scene number. */
  datatype PhaseData = PhaseData(phaseNumber: int, timePeriod: TimePeriod, scenes: map<int, SceneData>)

  /** `phases_dict`: phases keyed by phase number. */
  type PhasesDict = map<int, PhaseData>

  /** Every entry carries the number it is filed under. */
  ghost predicate WellKeyed(phases: PhasesDict) {
    forall p :: p in phases ==>
      phases[p].phaseNumber == p &&
      forall s :: s in phases[p].scenes ==> phases[p].scenes[s].sceneNumber == s
  }

  // ----- the assembled entities -----

  /** A shot; the three optional parts are keys that may be absent. */
  datatype Shot = Shot(
    shotNumber: int,
    cameraAngle: Cell,
    specificArea: Cell,
    description: Cell,
    imagePrompt: Cell,
    oref: Option<string>,
    cameraMovement: Option<CameraMovement>,
    shotTimecode: Option<ShotTimecode>)

  datatype Scene = Scene(
    sceneNumber: int,
    comment: Cell,
    period: Cell,
    season: Cell,
    weather: Cell,
    location: Location,
    diurnal: Cell,
    lightSource: Cell,
    shots: seq<Shot>)

  datatype Phase = Phase(phaseNumber: int, timePeriod: TimePeriod, scenes: seq<Scene>)
}
