/** `DataProcessor.process_tsv_data` and its helpers: cleaned rows are filed
    into a phase → scene → shot dictionary, with the phase and scene numbers
    carried forward over blank cells. */
module Hierarchy {
  import opened Wrappers
  import opened PyStr
  import opened PyNum
  import opened TsvReader
  import opened Entities

  /** The exceptions that escape `process_tsv_data` and fail the whole file:
      `int()` of text that is not an integer (ValueError, or TypeError for
      None), `int()` of an infinite float (OverflowError, which the loop does
      not catch), and `.replace` on a display field holding a non-text scalar
      (AttributeError). */
  datatype Error = NotAnInteger(column: string) | Overflow(column: string) | NotText(field: string)

  // ----- `_format_value` -----

  /** The fields `_format_value` puts in sentence case. */
  const DisplayFields: set<string> :=
    {"location_name", "specific_area", "period", "season", "weather", "speed", "type"}

  /** Underscores become spaces, the first character is upper case and the
      rest lower case. */
  function SentenceCase(s: string): (r: string)
    ensures |r| == |s| && '_' !in r
    ensures |s| > 0 ==> r[0] == UpperChar(if s[0] == '_' then ' ' else s[0])
    ensures forall i :: 0 < i < |s| ==> r[i] == (if s[i] == '_' then ' ' else LowerChar(s[i]))
  {
    Capitalize(Lower(ReplaceChar(s, '_', ' ')))
  }

  lemma SentenceCaseIdempotent(s: string)
    ensures SentenceCase(SentenceCase(s)) == SentenceCase(s)
  {
    var r := SentenceCase(s);
    var rr := SentenceCase(r);
    forall i | 0 <= i < |s|
      ensures rr[i] == r[i]
    {
      if i == 0 {
        assert rr[0] == UpperChar(r[0]);
      } else {
        assert rr[i] == LowerChar(r[i]);
      }
    }
  }

  /** `_format_value`: a truthy value of a display field is put in sentence
      case; a truthy non-text value there raises; everything else passes. */
  function FormatValue(value: Cell, field: string): (r: Result<Cell, Error>)
    ensures r.Err? <==> Truthy(value) && value.Other? && field in DisplayFields
    ensures r.Err? ==> r.error == NotText(field)
    ensures r.Ok? && (!Truthy(value) || field !in DisplayFields) ==> r.value == value
    ensures r.Ok? && Truthy(value) && field in DisplayFields ==>
      value.Str? && r.value == Str(SentenceCase(value.s))
  {
    if !Truthy(value) then Ok(value)
    else if field in DisplayFields then
      match value
      case Str(s) => Ok(Str(SentenceCase(s)))
      case _ => Err(NotText(field))
    else Ok(value)
  }

  /** Formatting a formatted value changes nothing. */
  lemma FormatValueIdempotent(value: Cell, field: string)
    requires FormatValue(value, field).Ok?
    ensures FormatValue(FormatValue(value, field).value, field) == FormatValue(value, field)
  {
    if Truthy(value) && field in DisplayFields {
      SentenceCaseIdempotent(value.s);
    }
  }

  // ----- number conversions -----

  /** `int(x)` on a cleaned cell. */
  function ToInt(c: Cell, column: string): (r: Result<int, Error>)
    ensures r.Err? ==> r.error == NotAnInteger(column)
    ensures c.Other? ==> r == Ok(c.n)
    ensures c.Str? ==> (r.Ok? <==> ParseInt(c.s).Some?)
    ensures c.Str? && r.Ok? ==> ParseInt(c.s) == Some(r.value)
    ensures c.Missing? ==> r.Err?
  {
    match c
    case Missing => Err(NotAnInteger(column))
    case Other(n) => Ok(n)
    case Str(s) => if ParseInt(s).Some? then Ok(ParseInt(s).value) else Err(NotAnInteger(column))
  }

  /** `int(float(x))` for SCENE_NUM; its ValueError and TypeError are caught
      (None here). An infinity raises instead; see `SceneOverflows`. */
  function SceneNumber(c: Cell): (r: Option<int>)
    // None is not a number
    ensures c.Missing? ==> r.None?
    // a scalar is already an integer
    ensures c.Other? ==> r == Some(c.n)
    // text that `int` reads is read the same way through `float`
    ensures c.Str? && ParseInt(c.s).Some? ==> r == ParseInt(c.s)
  {
    match c
    case Missing => None
    case Other(n) => Some(n)
    case Str(s) =>
      if ParseInt(s).Some? then ParseTruncatedExtendsParseInt(s); ParseTruncated(s)
      else ParseTruncated(s)
  }

  /** `int(float(x))` of an infinite SCENE_NUM raises OverflowError: such
      text is never a number the row loop could file under. */
  predicate SceneOverflows(c: Cell): (b: bool)
    ensures b <==> c.Str? && IsInfinity(c.s)
    ensures b ==> SceneNumber(c).None?
  {
    if c.Str? && IsInfinity(c.s) then InfinityIsNotDecimal(c.s); true else false
  }

  /** `int(str(x).replace("﻿", ""))` for SHOT_NUM: byte order marks
      anywhere in the text are dropped before `int` reads it. */
  function ShotNumber(c: Cell): (r: Result<int, Error>)
    ensures r.Err? ==> r.error == NotAnInteger("SHOT_NUM")
    ensures c.Other? ==> r == Ok(c.n)
    ensures c.Str? ==> (r.Ok? <==> ParseInt(RemoveChar(c.s, Bom)).Some?)
    ensures c.Str? && r.Ok? ==> ParseInt(RemoveChar(c.s, Bom)) == Some(r.value)
  {
    match c
    case Missing => Err(NotAnInteger("SHOT_NUM"))
    case Other(n) => Ok(n)
    case Str(s) =>
      var t := RemoveChar(s, Bom);
      if ParseInt(t).Some? then Ok(ParseInt(t).value) else Err(NotAnInteger("SHOT_NUM"))
  }

  /** `int(row[column]) if row.get(column) else None` */
  function OptionalInt(row: RowData, column: string): (r: Result<Option<int>, Error>)
    ensures !Truthy(Get(row, column)) ==> r == Ok(None)
    ensures Truthy(Get(row, column)) ==>
      (r.Ok? <==> ToInt(Get(row, column), column).Ok?) &&
      (r.Ok? ==> r.value == Some(ToInt(Get(row, column), column).value))
  {
    if Truthy(Get(row, column)) then
      var n :- ToInt(Get(row, column), column);
      Ok(Some(n))
    else Ok(None)
  }

  // ----- the new dictionaries -----

  /** The phase dictionary `_ensure_phase_exists` creates: its time period
      from PHASE_START and PHASE_END, no scenes. */
  function NewPhase(row: RowData, p: int): (r: Result<PhaseData, Error>)
    ensures r.Ok? ==> r.value.phaseNumber == p && r.value.scenes == map[]
    ensures r.Ok? <==> OptionalInt(row, "PHASE_START").Ok? && OptionalInt(row, "PHASE_END").Ok?
    ensures r.Ok? ==> (r.value.timePeriod ==
      TimePeriod(OptionalInt(row, "PHASE_START").value, OptionalInt(row, "PHASE_END").value))
  {
    var start :- OptionalInt(row, "PHASE_START");
    var end :- OptionalInt(row, "PHASE_END");
    Ok(PhaseData(p, TimePeriod(start, end), map[]))
  }

  /** The scene dictionary `_ensure_scene_exists` creates, with no shots;
      period, season, weather and location name are formatted in that order. */
  function NewScene(row: RowData, s: int): (r: Result<SceneData, Error>)
    ensures r.Ok? <==>
      FormatValue(Get(row, "PERIOD"), "period").Ok? &&
      FormatValue(Get(row, "SEASON"), "season").Ok? &&
      FormatValue(Get(row, "WEATHER"), "weather").Ok? &&
      FormatValue(Get(row, "LOCATION"), "location_name").Ok?
    ensures r.Ok? ==> r.value.sceneNumber == s && r.value.shots == []
    ensures r.Ok? ==>
      r.value.comment == Get(row, "SCENE_CONTEXT_COMMENT") &&
      r.value.location.locType == Get(row, "LOC_TYPE") &&
      r.value.diurnal == Get(row, "DIURNAL") &&
      r.value.lightSource == Get(row, "LIGHT_SOURCE(S)")
    ensures r.Ok? ==>
      Ok(r.value.period) == FormatValue(Get(row, "PERIOD"), "period") &&
      Ok(r.value.season) == FormatValue(Get(row, "SEASON"), "season") &&
      Ok(r.value.weather) == FormatValue(Get(row, "WEATHER"), "weather") &&
      Ok(r.value.location.locationName) == FormatValue(Get(row, "LOCATION"), "location_name")
  {
    var period :- FormatValue(Get(row, "PERIOD"), "period");
    var season :- FormatValue(Get(row, "SEASON"), "season");
    var weather :- FormatValue(Get(row, "WEATHER"), "weather");
    var locationName :- FormatValue(Get(row, "LOCATION"), "location_name");
    Ok(SceneData(s, Get(row, "SCENE_CONTEXT_COMMENT"), period, season, weather,
      Location(Get(row, "LOC_TYPE"), locationName),
      Get(row, "DIURNAL"), Get(row, "LIGHT_SOURCE(S)"), []))
  }

  /** `_create_shot_data`: the shot dictionary of a row; the `oref` key is
      present exactly when the cleaned OREF cell is the text "TRUE". */
  function CreateShotData(n: int, row: RowData): (r: Result<ShotData, Error>)
    ensures r.Ok? <==>
      FormatValue(Get(row, "SPECIFIC AREA"), "specific_area").Ok? &&
      FormatValue(Get(row, "MOVE_SPEED"), "speed").Ok? &&
      FormatValue(Get(row, "MOVE_TYPE"), "type").Ok?
    ensures r.Ok? ==> r.value.shotNumber == n
    ensures r.Ok? ==> (r.value.oref.Some? <==> Get(row, "OREF") == Str("TRUE"))
    ensures r.Ok? && r.value.oref.Some? ==> r.value.oref.value == "TRUE"
    ensures r.Ok? ==>
      Ok(r.value.specificArea) == FormatValue(Get(row, "SPECIFIC AREA"), "specific_area") &&
      Ok(r.value.cameraMovement.speed) == FormatValue(Get(row, "MOVE_SPEED"), "speed") &&
      Ok(r.value.cameraMovement.movementType) == FormatValue(Get(row, "MOVE_TYPE"), "type")
    ensures r.Ok? ==>
      r.value.cameraAngle == Get(row, "ANGLE") &&
      r.value.description == Get(row, "SHOT_DESCRIPTION") &&
      r.value.cameraMovement.videoPrompt == Get(row, "VIDEO_PROMPT") &&
      r.value.shotTimecode == ShotTimecode(Get(row, "IN"), Get(row, "OUT")) &&
      r.value.imagePrompt == Get(row, "IMAGE_PROMPT")
  {
    var specificArea :- FormatValue(Get(row, "SPECIFIC AREA"), "specific_area");
    var speed :- FormatValue(Get(row, "MOVE_SPEED"), "speed");
    var movementType :- FormatValue(Get(row, "MOVE_TYPE"), "type");
    var oref := if Get(row, "OREF") == Str("TRUE") then Some("TRUE") else None;
    Ok(ShotData(n, Get(row, "ANGLE"), specificArea, Get(row, "SHOT_DESCRIPTION"),
      CameraMovement(speed, movementType, Get(row, "VIDEO_PROMPT")),
      ShotTimecode(Get(row, "IN"), Get(row, "OUT")),
      Get(row, "IMAGE_PROMPT"), oref))
  }

  // ----- filing one row: the dictionary as a value -----

  /** `_ensure_phase_exists`: an existing phase is left alone; a new one is
      added and nothing else changes. */
  function EnsurePhase(phases: PhasesDict, p: int, row: RowData): (r: Result<PhasesDict, Error>)
    ensures p in phases ==> r == Ok(phases)
    ensures p !in phases ==> (r.Ok? <==> NewPhase(row, p).Ok?)
    ensures r.Ok? ==> r.value.Keys == phases.Keys + {p}
    ensures r.Ok? ==> forall q :: q in phases ==> r.value[q] == phases[q]
    ensures r.Ok? && p !in phases ==> NewPhase(row, p) == Ok(r.value[p])
  {
    if p in phases then Ok(phases)
    else
      var phase :- NewPhase(row, p);
      Ok(phases[p := phase])
  }

  /** `_ensure_scene_exists`: an existing scene is left alone; a new one is
      added to its phase and nothing else changes. */
  function EnsureScene(phases: PhasesDict, p: int, s: int, row: RowData): (r: Result<PhasesDict, Error>)
    requires p in phases
    ensures s in phases[p].scenes ==> r == Ok(phases)
    ensures s !in phases[p].scenes ==> (r.Ok? <==> NewScene(row, s).Ok?)
    ensures r.Ok? ==> r.value.Keys == phases.Keys
    ensures r.Ok? ==> forall q :: q in phases && q != p ==> r.value[q] == phases[q]
    ensures r.Ok? ==> r.value[p].phaseNumber == phases[p].phaseNumber
    ensures r.Ok? ==> r.value[p].timePeriod == phases[p].timePeriod
    ensures r.Ok? ==> r.value[p].scenes.Keys == phases[p].scenes.Keys + {s}
    ensures r.Ok? ==> forall t :: t in phases[p].scenes ==> r.value[p].scenes[t] == phases[p].scenes[t]
    ensures r.Ok? && s !in phases[p].scenes ==> NewScene(row, s) == Ok(r.value[p].scenes[s])
  {
    var phase := phases[p];
    if s in phase.scenes then Ok(phases)
    else
      var scene :- NewScene(row, s);
      Ok(phases[p := phase.(scenes := phase.scenes[s := scene])])
  }

  /** `_add_shot_to_scene`'s append: the shot goes at the end of its scene;
      nothing else changes. */
  function AddShot(phases: PhasesDict, p: int, s: int, shot: ShotData): (r: PhasesDict)
    requires p in phases && s in phases[p].scenes
    ensures r.Keys == phases.Keys
    ensures forall q :: q in phases && q != p ==> r[q] == phases[q]
    ensures r[p].phaseNumber == phases[p].phaseNumber && r[p].timePeriod == phases[p].timePeriod
    ensures r[p].scenes.Keys == phases[p].scenes.Keys
    ensures forall t :: t in phases[p].scenes && t != s ==> r[p].scenes[t] == phases[p].scenes[t]
    ensures r[p].scenes[s] == phases[p].scenes[s].(shots := phases[p].scenes[s].shots + [shot])
  {
    var phase := phases[p];
    var scene := phase.scenes[s];
    phases[p := phase.(scenes := phase.scenes[s := scene.(shots := scene.shots + [shot])])]
  }

  /** `_process_row_data`: make sure the phase and the scene exist, then add
      the row's shot. */
  function ProcessRowData(phases: PhasesDict, row: RowData, p: int, s: int, n: int): (r: Result<PhasesDict, Error>)
    ensures r.Ok? <==>
      EnsurePhase(phases, p, row).Ok? &&
      EnsureScene(EnsurePhase(phases, p, row).value, p, s, row).Ok? &&
      CreateShotData(n, row).Ok?
    ensures r.Ok? ==> p in r.value && s in r.value[p].scenes
    ensures r.Ok? ==> CreateShotData(n, row).Ok?
    ensures r.Ok? ==> r.value.Keys == phases.Keys + {p}
    ensures r.Ok? ==> (r.value[p].scenes[s].shots ==
      EnsureScene(EnsurePhase(phases, p, row).value, p, s, row).value[p].scenes[s].shots
        + [CreateShotData(n, row).value])
  {
    var withPhase :- EnsurePhase(phases, p, row);
    var withScene :- EnsureScene(withPhase, p, s, row);
    var shot :- CreateShotData(n, row);
    Ok(AddShot(withScene, p, s, shot))
  }

  // ----- the row loop as a specification -----

  /** The carried-forward `current_phase` and `current_scene`. */
  datatype Cursor = Cursor(phase: Option<int>, scene: Option<int>)

  /** What the loop does with one cleaned row: skip it (with the cursor it
      leaves behind), file it under a phase, scene and shot number, or raise. */
  datatype Admission =
    | Skip(next: Cursor)
    | Accept(next: Cursor, phase: int, scene: int, shot: int)
    | Raise(error: Error)

  /** The phase number a valid row leaves in `current_phase`, once it is known
      that PHASE_NUM, if given, converts. */
  function NextPhase(cursor: Cursor, row: RowData): Option<int>
    requires Truthy(Get(row, "PHASE_NUM")) ==> ToInt(Get(row, "PHASE_NUM"), "PHASE_NUM").Ok?
  {
    if Truthy(Get(row, "PHASE_NUM")) then Some(ToInt(Get(row, "PHASE_NUM"), "PHASE_NUM").value)
    else cursor.phase
  }

  /** The scene number a valid row leaves in `current_scene`: the parsed
      SCENE_NUM when one is given, else the carried one. */
  function NextScene(cursor: Cursor, row: RowData): Option<int> {
    if Truthy(Get(row, "SCENE_NUM")) then SceneNumber(Get(row, "SCENE_NUM")) else cursor.scene
  }

  /** PHASE_NUM is blank or converts. */
  predicate PhaseConverts(row: RowData) {
    Truthy(Get(row, "PHASE_NUM")) ==> ToInt(Get(row, "PHASE_NUM"), "PHASE_NUM").Ok?
  }

  /** SCENE_NUM is blank or parses. */
  predicate SceneParses(row: RowData) {
    Truthy(Get(row, "SCENE_NUM")) ==> SceneNumber(Get(row, "SCENE_NUM")).Some?
  }

  /** One pass of the loop body of `process_tsv_data`, up to the call of
      `_process_row_data`. Every case of the body is stated: */
  function Admit(cursor: Cursor, row: RowData): (r: Admission)
    // a row without a truthy SHOT_NUM is skipped and changes nothing
    ensures !IsValidRow(row) ==> r == Skip(cursor)
    // a PHASE_NUM that is given but is not an integer fails the file
    ensures IsValidRow(row) && !PhaseConverts(row) ==> r == Raise(NotAnInteger("PHASE_NUM"))
    // an infinite SCENE_NUM fails the file: OverflowError is not caught
    ensures (IsValidRow(row) && PhaseConverts(row) && Truthy(Get(row, "SCENE_NUM")) &&
      SceneOverflows(Get(row, "SCENE_NUM"))) ==> r == Raise(Overflow("SCENE_NUM"))
    // any other unparsable SCENE_NUM skips the row, but the new phase number stays
    ensures (IsValidRow(row) && PhaseConverts(row) && Truthy(Get(row, "SCENE_NUM")) &&
      !SceneOverflows(Get(row, "SCENE_NUM")) && SceneNumber(Get(row, "SCENE_NUM")).None?) ==>
      r == Skip(Cursor(NextPhase(cursor, row), cursor.scene))
    // nothing is filed before a phase and a scene number have been seen
    ensures (IsValidRow(row) && PhaseConverts(row) && SceneParses(row) &&
      (NextPhase(cursor, row).None? || NextScene(cursor, row).None?)) ==>
      r == Skip(Cursor(NextPhase(cursor, row), NextScene(cursor, row)))
    // once both numbers are known, the row is filed if SHOT_NUM converts, else the file fails
    ensures (IsValidRow(row) && PhaseConverts(row) && SceneParses(row) &&
      NextPhase(cursor, row).Some? && NextScene(cursor, row).Some?) ==>
      && (r.Accept? <==> ShotNumber(Get(row, "SHOT_NUM")).Ok?)
      && (r.Accept? ==> r == Accept(Cursor(NextPhase(cursor, row), NextScene(cursor, row)),
            NextPhase(cursor, row).value, NextScene(cursor, row).value,
            ShotNumber(Get(row, "SHOT_NUM")).value))
      && (ShotNumber(Get(row, "SHOT_NUM")).Err? ==> r == Raise(NotAnInteger("SHOT_NUM")))
    // blank numbers inherit the last ones seen
    ensures r.Accept? ==>
      IsValidRow(row) &&
      r.next == Cursor(Some(r.phase), Some(r.scene)) &&
      (Truthy(Get(row, "PHASE_NUM")) ==> ToInt(Get(row, "PHASE_NUM"), "PHASE_NUM") == Ok(r.phase)) &&
      (!Truthy(Get(row, "PHASE_NUM")) ==> cursor.phase == Some(r.phase)) &&
      (Truthy(Get(row, "SCENE_NUM")) ==> SceneNumber(Get(row, "SCENE_NUM")) == Some(r.scene)) &&
      (!Truthy(Get(row, "SCENE_NUM")) ==> cursor.scene == Some(r.scene)) &&
      ShotNumber(Get(row, "SHOT_NUM")) == Ok(r.shot)
    // the only exceptions are the three conversions
    ensures r.Raise? ==>
      r.error == NotAnInteger("PHASE_NUM") || r.error == Overflow("SCENE_NUM") ||
      r.error == NotAnInteger("SHOT_NUM")
  {
    if !IsValidRow(row) then Skip(cursor)
    else if !PhaseConverts(row) then Raise(NotAnInteger("PHASE_NUM"))
    else
      var phase := NextPhase(cursor, row);
      var sceneCell := Get(row, "SCENE_NUM");
      if Truthy(sceneCell) && SceneOverflows(sceneCell) then Raise(Overflow("SCENE_NUM"))
      else if Truthy(sceneCell) && SceneNumber(sceneCell).None? then Skip(Cursor(phase, cursor.scene))
      else
        var scene := NextScene(cursor, row);
        if phase.None? || scene.None? then Skip(Cursor(phase, scene))
        else
          match ShotNumber(Get(row, "SHOT_NUM"))
          case Err(e) => Raise(e)
          case Ok(n) => Accept(Cursor(phase, scene), phase.value, scene.value, n)
  }

  /** The loop's state: the dictionary so far and the cursor. */
  datatype Builder = Builder(phases: PhasesDict, cursor: Cursor)

  function Start(): Builder {
    Builder(map[], Cursor(None, None))
  }

  /** One iteration of the loop. */
  function Step(b: Builder, row: RowData): (r: Result<Builder, Error>)
    // a skipped row files nothing; only the cursor moves
    ensures Admit(b.cursor, row).Skip? ==> r == Ok(Builder(b.phases, Admit(b.cursor, row).next))
    // an exception of the loop body ends the loop with that exception
    ensures Admit(b.cursor, row).Raise? ==> r == Err(Admit(b.cursor, row).error)
    // an accepted row is filed unless building its scene or shot raises
    ensures Admit(b.cursor, row).Accept? ==>
      (r.Ok? <==> ProcessRowData(b.phases, row, Admit(b.cursor, row).phase,
        Admit(b.cursor, row).scene, Admit(b.cursor, row).shot).Ok?)
    // once filed, its shot is the last one of its scene and only its phase
    // can be new
    ensures (Admit(b.cursor, row).Accept? && r.Ok?) ==>
      var a := Admit(b.cursor, row);
      && r.value.cursor == a.next
      && r.value.phases.Keys == b.phases.Keys + {a.phase}
      && a.scene in r.value.phases[a.phase].scenes
      && var shots := r.value.phases[a.phase].scenes[a.scene].shots;
      |shots| > 0 && shots[|shots| - 1] == CreateShotData(a.shot, row).value
  {
    match Admit(b.cursor, row)
    case Skip(next) => Ok(Builder(b.phases, next))
    case Raise(e) => Err(e)
    case Accept(next, p, s, n) =>
      var phases :- ProcessRowData(b.phases, row, p, s, n);
      Ok(Builder(phases, next))
  }

  /** The loop over a sequence of cleaned rows; the first exception ends it. */
  function Run(rows: seq<RowData>): (r: Result<Builder, Error>)
    // before any row: an empty dictionary and no numbers carried
    ensures rows == [] ==> r == Ok(Start())
    // nothing is filed while a phase or a scene number is still unknown:
    // once something is filed, both numbers are carried
    ensures r.Ok? && (r.value.cursor.phase.None? || r.value.cursor.scene.None?) ==>
      r.value.phases == map[]
    decreases |rows|
  {
    if rows == [] then Ok(Start())
    else
      var b :- Run(rows[..|rows| - 1]);
      Step(b, rows[|rows| - 1])
  }

  /** When the loop raises, the exception is that of the first row whose
      step raises, after every earlier row went through. */
  lemma {:induction false} RunFirstError(rows: seq<RowData>)
    requires Run(rows).Err?
    ensures exists i :: (0 <= i < |rows| && Run(rows[..i]).Ok? &&
      Step(Run(rows[..i]).value, rows[i]) == Run(rows))
    decreases |rows|
  {
    var init := rows[..|rows| - 1];
    if Run(init).Err? {
      RunFirstError(init);
      var i :| 0 <= i < |init| && Run(init[..i]).Ok? && Step(Run(init[..i]).value, init[i]) == Run(init);
      assert init[..i] == rows[..i] && init[i] == rows[i];
    } else {
      assert rows[..|rows| - 1] == init;
    }
  }

  lemma RunAppend(rows: seq<RowData>, row: RowData)
    ensures Run(rows + [row]) == if Run(rows).Err? then Run(rows) else Step(Run(rows).value, row)
  {
    assert (rows + [row])[..|rows|] == rows;
  }

  /** Once a prefix of the rows raises, so does the whole loop, with the same
      exception. */
  lemma {:induction false} RunStopsAtError(rows: seq<RowData>, i: nat)
    requires i <= |rows| && Run(rows[..i]).Err?
    ensures Run(rows) == Run(rows[..i])
    decreases |rows| - i
  {
    if i < |rows| {
      var next := rows[..i + 1];
      assert next[..|next| - 1] == rows[..i];
      RunStopsAtError(rows, i + 1);
    } else {
      assert rows[..i] == rows;
    }
  }

  /** The dictionary the loop builds from cleaned rows, or the exception it
      raises. */
  function Phases(rows: seq<RowData>): Result<PhasesDict, Error> {
    var b :- Run(rows);
    Ok(b.phases)
  }

  /** `process_tsv_data`, as a value. */
  function Process(mappings: FieldMappings, frame: Frame): Result<PhasesDict, Error>
    requires WellFormed(frame)
  {
    Phases(CleanRows(mappings, frame))
  }

  // ----- the dictionary updated in place -----

  /** The `phases_dict` that the helpers of `process_tsv_data` update. */
  class Accumulator {
    var phases: PhasesDict

    constructor()
      ensures phases == map[]
    {
      phases := map[];
    }

    /** `_ensure_phase_exists`; an exception leaves the dictionary as it was. */
    method EnsurePhaseExists(p: int, row: RowData) returns (err: Option<Error>)
      modifies this
      ensures EnsurePhase(old(phases), p, row).Ok? ==>
        err == None && phases == EnsurePhase(old(phases), p, row).value
      ensures EnsurePhase(old(phases), p, row).Err? ==>
        err == Some(EnsurePhase(old(phases), p, row).error) && phases == old(phases)
    {
      if p !in phases {
        var phase := NewPhase(row, p);
        if phase.Err? {
          return Some(phase.error);
        }
        phases := phases[p := phase.value];
      }
      return None;
    }

    /** `_ensure_scene_exists`; an exception leaves the dictionary as it was. */
    method EnsureSceneExists(p: int, s: int, row: RowData) returns (err: Option<Error>)
      requires p in phases
      modifies this
      ensures EnsureScene(old(phases), p, s, row).Ok? ==>
        err == None && phases == EnsureScene(old(phases), p, s, row).value
      ensures EnsureScene(old(phases), p, s, row).Err? ==>
        err == Some(EnsureScene(old(phases), p, s, row).error) && phases == old(phases)
    {
      if s !in phases[p].scenes {
        var scene := NewScene(row, s);
        if scene.Err? {
          return Some(scene.error);
        }
        var phase := phases[p];
        phases := phases[p := phase.(scenes := phase.scenes[s := scene.value])];
      }
      return None;
    }

    /** `_add_shot_to_scene`: build the shot, then append it to its scene. */
    method AddShotToScene(p: int, s: int, n: int, row: RowData) returns (err: Option<Error>)
      requires p in phases && s in phases[p].scenes
      modifies this
      ensures CreateShotData(n, row).Ok? ==>
        err == None && phases == AddShot(old(phases), p, s, CreateShotData(n, row).value)
      ensures CreateShotData(n, row).Err? ==>
        err == Some(CreateShotData(n, row).error) && phases == old(phases)
    {
      var shot := CreateShotData(n, row);
      if shot.Err? {
        return Some(shot.error);
      }
      var phase := phases[p];
      var scene := phase.scenes[s];
      phases := phases[p := phase.(scenes := phase.scenes[s := scene.(shots := scene.shots + [shot.value])])];
      return None;
    }

    /** `_process_row_data`: the three helpers in turn; after an exception
      the caller discards the dictionary, so its state is left unspecified. */
    method ProcessRow(row: RowData, p: int, s: int, n: int) returns (err: Option<Error>)
      modifies this
      ensures ProcessRowData(old(phases), row, p, s, n).Ok? ==>
        err == None && phases == ProcessRowData(old(phases), row, p, s, n).value
      ensures ProcessRowData(old(phases), row, p, s, n).Err? ==>
        err == Some(ProcessRowData(old(phases), row, p, s, n).error)
    {
      err := EnsurePhaseExists(p, row);
      if err.Some? {
        return;
      }
      err := EnsureSceneExists(p, s, row);
      if err.Some? {
        return;
      }
      err := AddShotToScene(p, s, n, row);
    }
  }

  /** The body of the loop of `process_tsv_data` up to the call of
      `_process_row_data`: the validity check and the carried-forward numbers. */
  method AdmitRow(cursor: Cursor, row: RowData) returns (a: Admission)
    ensures a == Admit(cursor, row)
  {
    if !IsValidRow(row) {
      return Skip(cursor);
    }
    var currentPhase, currentScene := cursor.phase, cursor.scene;
    var phaseCell := Get(row, "PHASE_NUM");
    if Truthy(phaseCell) {
      var phase := ToInt(phaseCell, "PHASE_NUM");
      if phase.Err? {
        return Raise(phase.error);
      }
      currentPhase := Some(phase.value);
    }
    var sceneCell := Get(row, "SCENE_NUM");
    if Truthy(sceneCell) {
      if SceneOverflows(sceneCell) {
        return Raise(Overflow("SCENE_NUM"));
      }
      var scene := SceneNumber(sceneCell);
      if scene.None? {
        return Skip(Cursor(currentPhase, currentScene));
      }
      currentScene := scene;
    }
    if currentPhase.None? || currentScene.None? {
      return Skip(Cursor(currentPhase, currentScene));
    }
    var shotNum := ShotNumber(Get(row, "SHOT_NUM"));
    if shotNum.Err? {
      return Raise(shotNum.error);
    }
    return Accept(Cursor(currentPhase, currentScene), currentPhase.value, currentScene.value, shotNum.value);
  }

  /** The loop of `process_tsv_data` over the cleaned rows, with its
      carried-forward phase and scene numbers. */
  method ProcessRows(rows: seq<RowData>) returns (r: Result<PhasesDict, Error>)
    ensures r == Phases(rows)
  {
    var acc := new Accumulator();
    var cursor := Cursor(None, None);
    for i := 0 to |rows|
      invariant Run(rows[..i]) == Ok(Builder(acc.phases, cursor))
    {
      ghost var before := Builder(acc.phases, cursor);
      var rowData := rows[i];
      var admission := AdmitRow(cursor, rowData);
      var failure: Option<Error> := None;
      match admission {
        case Skip(next) =>
          cursor := next;
        case Raise(e) =>
          failure := Some(e);
        case Accept(next, p, s, n) =>
          failure := acc.ProcessRow(rowData, p, s, n);
          cursor := next;
      }
      assert Step(before, rowData) ==
        if failure.Some? then Err(failure.value) else Ok(Builder(acc.phases, cursor));
      assert rows[..i + 1] == rows[..i] + [rows[i]];
      RunAppend(rows[..i], rows[i]);
      if failure.Some? {
        RunStopsAtError(rows, i + 1);
        return Err(failure.value);
      }
    }
    assert rows[..|rows|] == rows;
    return Ok(acc.phases);
  }

  /** `process_tsv_data`: every row is cleaned (a pure step, so cleaning them
      all first changes nothing), then the loop files them. */
  method ProcessTsvData(mappings: FieldMappings, frame: Frame) returns (r: Result<PhasesDict, Error>)
    requires WellFormed(frame)
    ensures r == Process(mappings, frame)
  {
    var rows := CleanRows(mappings, frame);
    r := ProcessRows(rows);
  }
}
