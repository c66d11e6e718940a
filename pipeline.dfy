/** The converter's path through the core for one file: title, empty
    project, rows to dictionary, dictionary to project, and the shot count
    reported at the end. */
module Pipeline {
  import opened Wrappers
  import opened TsvReader
  import opened Entities
  import opened OrderedKeys
  import opened Hierarchy
  import opened Grouping
  import opened Assembly
  import opened YamlWriter

  /** Assembling a phase keeps its shot count. */
  lemma PhaseShotsOfModel(d: PhaseData, noCameraMovement: bool, noShotTimecode: bool)
    ensures PhaseShotCount(PhaseModel(d, noCameraMovement, noShotTimecode)) == PhaseShots(d)
  {
    var scenes := PhaseModel(d, noCameraMovement, noShotTimecode).scenes;
    var values := ValuesInKeyOrder(d.scenes);
    assert forall i :: 0 <= i < |scenes| ==> ShotCount(scenes[i]) == SceneShots(values[i]);
    SumSeqPointwise(scenes, ShotCount, values, SceneShots);
    SumByInKeyOrder(d.scenes, SceneShots);
  }

  /** `total_shots` of the assembled phases is the number of shots in the
      dictionary, and `total_phases` its number of phases. */
  lemma TotalShotsOfModel(phases: PhasesDict, noCameraMovement: bool, noShotTimecode: bool)
    ensures TotalPhases(PhasesModel(phases, noCameraMovement, noShotTimecode)) == |phases|
    ensures TotalShots(PhasesModel(phases, noCameraMovement, noShotTimecode)) == DictShots(phases)
  {
    var built := PhasesModel(phases, noCameraMovement, noShotTimecode);
    var values := ValuesInKeyOrder(phases);
    forall i | 0 <= i < |built|
      ensures PhaseShotCount(built[i]) == PhaseShots(values[i])
    {
      PhaseShotsOfModel(values[i], noCameraMovement, noShotTimecode);
    }
    SumSeqPointwise(built, PhaseShotCount, values, PhaseShots);
    SumByInKeyOrder(phases, PhaseShots);
  }

  /** The shot total reported for a file is the number of rows the processor
      accepted, whatever the exclusion flags. */
  lemma ShotsAreAcceptedRows(rows: seq<RowData>, noCameraMovement: bool, noShotTimecode: bool)
    requires Phases(rows).Ok?
    ensures Run(rows).Ok?
    ensures TotalShots(PhasesModel(Phases(rows).value, noCameraMovement, noShotTimecode)) == |Log(rows)|
  {
    RunCountsShots(rows);
    TotalShotsOfModel(Phases(rows).value, noCameraMovement, noShotTimecode);
  }

  /** The dictionary built from any rows is filed under its own numbers, so
      the project lists phases and scenes in strictly ascending number. */
  lemma ProcessedIsWellKeyed(rows: seq<RowData>)
    requires Phases(rows).Ok?
    ensures WellKeyed(Phases(rows).value)
  {
    RunGroupsByKey(rows);
    GroupedIsWellKeyed(Run(rows).value.phases, Log(rows));
  }

  /** Each scene of the assembled project carries the attributes of the
      first accepted row filed under its phase and scene number, and holds
      the shots of all those rows, in row order. */
  lemma {:induction false} EmittedSceneFromRows(rows: seq<RowData>, noCameraMovement: bool, noShotTimecode: bool, i: int, a: int)
    requires Phases(rows).Ok?
    requires 0 <= i < |PhasesModel(Phases(rows).value, noCameraMovement, noShotTimecode)|
    requires 0 <= a < |PhasesModel(Phases(rows).value, noCameraMovement, noShotTimecode)[i].scenes|
    ensures Run(rows).Ok? && AllShotsBuild(Log(rows))
    ensures var log := Log(rows);
      var phase := PhasesModel(Phases(rows).value, noCameraMovement, noShotTimecode)[i];
      var scene := phase.scenes[a];
      && scene.sceneNumber in SceneNumbers(log, phase.phaseNumber)
      && NewScene(log[FirstOfScene(log, phase.phaseNumber, scene.sceneNumber)].row, scene.sceneNumber) ==
           Ok(SceneData(scene.sceneNumber, scene.comment, scene.period, scene.season, scene.weather,
             scene.location, scene.diurnal, scene.lightSource, []))
      && |scene.shots| == |ShotsOf(log, phase.phaseNumber, scene.sceneNumber)|
      && forall k :: 0 <= k < |scene.shots| ==>
           scene.shots[k] == ShotModel(ShotsOf(log, phase.phaseNumber, scene.sceneNumber)[k],
             noCameraMovement, noShotTimecode)
  {
    var phases := Phases(rows).value;
    var log := Log(rows);
    RunGroupsByKey(rows);
    ProcessedIsWellKeyed(rows);
    PhasesModelAt(phases, noCameraMovement, noShotTimecode, i);
    var q := SortedKeys(phases.Keys)[i];
    var d := phases[q];
    PhaseModelAt(d, noCameraMovement, noShotTimecode, a);
    var t := SortedKeys(d.scenes.Keys)[a];
    var stored := d.scenes[t];
    var phase := PhasesModel(phases, noCameraMovement, noShotTimecode)[i];
    assert phase == PhaseModel(d, noCameraMovement, noShotTimecode);
    assert phase.phaseNumber == q;
    var scene := phase.scenes[a];
    assert scene == SceneModel(stored, noCameraMovement, noShotTimecode);
    assert scene.sceneNumber == t;
    assert t in SceneNumbers(log, q);
    assert NewScene(log[FirstOfScene(log, q, t)].row, t) == Ok(stored.(shots := []));
    assert stored.shots == ShotsOf(log, q, t);
  }

  /** `convert_tsv_to_yaml` up to the dump: the title, a project sized by
      the frame's row count, the rows grouped, the project built. An error of
      the processor is passed on. On success the project holds the phases
      in strictly ascending number, and its shot total is the number of
      accepted rows. */
  method Convert(mappings: FieldMappings, frame: Frame, stem: string, givenTitle: string,
                 noCameraMovement: bool, noShotTimecode: bool)
    returns (r: Result<Project, Error>)
    requires WellFormed(frame)
    ensures r.Err? <==> Process(mappings, frame).Err?
    ensures r.Err? ==> r.error == Process(mappings, frame).error
    ensures r.Ok? ==> fresh(r.value)
    ensures r.Ok? ==> r.value.title == ProjectTitle(stem, givenTitle) && r.value.totalShots == |frame.rows|
    ensures r.Ok? ==> r.value.phases == PhasesModel(Process(mappings, frame).value, noCameraMovement, noShotTimecode)
    ensures r.Ok? ==> var ps := r.value.phases;
      forall i, j :: 0 <= i < j < |ps| ==> ps[i].phaseNumber < ps[j].phaseNumber
    ensures r.Ok? ==> TotalShots(r.value.phases) == |Log(CleanRows(mappings, frame))|
  {
    var title := ProjectTitle(stem, givenTitle);
    var project := new Project.Initialize(title, |frame.rows|);
    var phases := ProcessTsvData(mappings, frame);
    if phases.Err? {
      return Err(phases.error);
    }
    var built := BuildProjectStructure(project, phases.value, noCameraMovement, noShotTimecode);
    var rows := CleanRows(mappings, frame);
    ShotsAreAcceptedRows(rows, noCameraMovement, noShotTimecode);
    ProcessedIsWellKeyed(rows);
    PhasesAscending(phases.value, noCameraMovement, noShotTimecode);
    return Ok(built);
  }
}
