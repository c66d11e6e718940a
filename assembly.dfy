/** `build_project_structure` and the `_create_*_model` helpers: the
    dictionary of phases becomes a project of phases, scenes and shots, in
    ascending key order; and `get_project_title`, `initialize_project`. */
module Assembly {
  import opened Wrappers
  import opened PyStr
  import opened TsvReader
  import opened Entities
  import opened OrderedKeys

  /** A prefix grows by the next element. */
  lemma TakeOneMore<T>(s: seq<T>, i: int)
    requires 0 <= i < |s|
    ensures s[..i + 1] == s[..i] + [s[i]]
  {
  }

  /** A prefix grows by the next element, behind a fixed head. */
  lemma AppendOneMore<T>(head: seq<T>, s: seq<T>, i: int, x: T)
    requires 0 <= i < |s| && s[i] == x
    ensures head + s[..i] + [x] == head + s[..i + 1]
  {
    assert s[..i + 1] == s[..i] + [x];
  }

  /** The prefix as long as the sequence is the sequence. */
  lemma TakeAll<T>(s: seq<T>, n: int)
    requires n == |s|
    ensures s[..n] == s
  {
  }

  /** `_create_shot_model`: the number, angle, area, description and image
      prompt are copied and the `oref` key survives as is; camera movement
      and shot timecode are present exactly when they are not excluded,
      whatever the row held. */
  function ShotModel(d: ShotData, noCameraMovement: bool, noShotTimecode: bool): (shot: Shot)
    ensures shot.shotNumber == d.shotNumber && shot.oref == d.oref
    ensures shot.cameraAngle == d.cameraAngle && shot.specificArea == d.specificArea
    ensures shot.description == d.description && shot.imagePrompt == d.imagePrompt
    ensures shot.cameraMovement.Some? <==> !noCameraMovement
    ensures shot.cameraMovement.Some? ==> shot.cameraMovement.value == d.cameraMovement
    ensures shot.shotTimecode.Some? <==> !noShotTimecode
    ensures shot.shotTimecode.Some? ==> shot.shotTimecode.value == d.shotTimecode
  {
    Shot(d.shotNumber, d.cameraAngle, d.specificArea, d.description, d.imagePrompt, d.oref,
      if noCameraMovement then None else Some(d.cameraMovement),
      if noShotTimecode then None else Some(d.shotTimecode))
  }

  /** Whether a shot has camera movement and a timecode depends on the two
      exclusion flags alone. */
  lemma ShotKeysIgnoreRowData(d1: ShotData, d2: ShotData, noCameraMovement: bool, noShotTimecode: bool)
    ensures ShotModel(d1, noCameraMovement, noShotTimecode).cameraMovement.Some? ==
      ShotModel(d2, noCameraMovement, noShotTimecode).cameraMovement.Some?
    ensures ShotModel(d1, noCameraMovement, noShotTimecode).shotTimecode.Some? ==
      ShotModel(d2, noCameraMovement, noShotTimecode).shotTimecode.Some?
  {
  }

  /** `_create_scene_model` as a value: the scene's attributes copied, and
      one shot per shot dictionary, in the same order. */
  function SceneModel(d: SceneData, noCameraMovement: bool, noShotTimecode: bool): (scene: Scene)
    ensures scene.sceneNumber == d.sceneNumber && scene.comment == d.comment
    ensures scene.period == d.period && scene.season == d.season && scene.weather == d.weather
    ensures scene.location == d.location && scene.diurnal == d.diurnal
    ensures scene.lightSource == d.lightSource
    ensures |scene.shots| == |d.shots|
    ensures forall i :: 0 <= i < |d.shots| ==>
      scene.shots[i] == ShotModel(d.shots[i], noCameraMovement, noShotTimecode)
  {
    Scene(d.sceneNumber, d.comment, d.period, d.season, d.weather, d.location, d.diurnal,
      d.lightSource,
      seq(|d.shots|, i requires 0 <= i < |d.shots| => ShotModel(d.shots[i], noCameraMovement, noShotTimecode)))
  }

  /** `_create_scene_model`: the shots are appended one by one. */
  method CreateSceneModel(d: SceneData, noCameraMovement: bool, noShotTimecode: bool) returns (scene: Scene)
    ensures scene == SceneModel(d, noCameraMovement, noShotTimecode)
  {
    scene := Scene(d.sceneNumber, d.comment, d.period, d.season, d.weather, d.location,
      d.diurnal, d.lightSource, []);
    ghost var target := SceneModel(d, noCameraMovement, noShotTimecode);
    for i := 0 to |d.shots|
      invariant scene == target.(shots := target.shots[..i])
    {
      var shot := ShotModel(d.shots[i], noCameraMovement, noShotTimecode);
      scene := scene.(shots := scene.shots + [shot]);
      TakeOneMore(target.shots, i);
    }
    TakeAll(target.shots, |d.shots|);
  }

  /** `_create_phase_model` as a value: the phase's number and time period,
      and its scenes in ascending scene number. */
  function PhaseModel(d: PhaseData, noCameraMovement: bool, noShotTimecode: bool): (phase: Phase)
    ensures phase.phaseNumber == d.phaseNumber && phase.timePeriod == d.timePeriod
    ensures |phase.scenes| == |d.scenes|
    ensures forall i :: 0 <= i < |phase.scenes| ==>
      phase.scenes[i] == SceneModel(ValuesInKeyOrder(d.scenes)[i], noCameraMovement, noShotTimecode)
  {
    var scenes := ValuesInKeyOrder(d.scenes);
    Phase(d.phaseNumber, d.timePeriod,
      seq(|scenes|, i requires 0 <= i < |scenes| => SceneModel(scenes[i], noCameraMovement, noShotTimecode)))
  }

  /** The scene `_create_phase_model` builds at position `i` is the one
      filed under the `i`-th smallest scene number. */
  lemma PhaseModelAt(d: PhaseData, noCameraMovement: bool, noShotTimecode: bool, i: int)
    requires 0 <= i < |d.scenes|
    ensures |SortedKeys(d.scenes.Keys)| == |d.scenes| && SortedKeys(d.scenes.Keys)[i] in d.scenes
    ensures PhaseModel(d, noCameraMovement, noShotTimecode).scenes[i] ==
      SceneModel(d.scenes[SortedKeys(d.scenes.Keys)[i]], noCameraMovement, noShotTimecode)
  {
    ValuesInKeyOrderIndex(d.scenes, i);
  }

  /** `_create_phase_model`: the scenes are appended in `sorted` key order. */
  method CreatePhaseModel(d: PhaseData, noCameraMovement: bool, noShotTimecode: bool) returns (phase: Phase)
    ensures phase == PhaseModel(d, noCameraMovement, noShotTimecode)
  {
    ghost var target := PhaseModel(d, noCameraMovement, noShotTimecode).scenes;
    var keys := SortedKeys(d.scenes.Keys);
    var scenes: seq<Scene> := [];
    for i := 0 to |keys|
      invariant scenes == target[..i]
    {
      PhaseModelAt(d, noCameraMovement, noShotTimecode, i);
      var scene := CreateSceneModel(d.scenes[keys[i]], noCameraMovement, noShotTimecode);
      assert target[i] == scene;
      scenes := scenes + [scene];
      TakeOneMore(target, i);
    }
    TakeAll(target, |keys|);
    phase := Phase(d.phaseNumber, d.timePeriod, scenes);
  }

  /** The phases `build_project_structure` appends: one per dictionary entry,
      in ascending phase number. */
  function PhasesModel(phases: PhasesDict, noCameraMovement: bool, noShotTimecode: bool): (r: seq<Phase>)
    ensures |r| == |phases|
    ensures forall i :: 0 <= i < |r| ==>
      r[i] == PhaseModel(ValuesInKeyOrder(phases)[i], noCameraMovement, noShotTimecode)
  {
    var values := ValuesInKeyOrder(phases);
    seq(|values|, i requires 0 <= i < |values| => PhaseModel(values[i], noCameraMovement, noShotTimecode))
  }

  /** The phase built at position `i` is the one filed under the `i`-th
      smallest phase number. */
  lemma PhasesModelAt(phases: PhasesDict, noCameraMovement: bool, noShotTimecode: bool, i: int)
    requires 0 <= i < |phases|
    ensures |SortedKeys(phases.Keys)| == |phases| && SortedKeys(phases.Keys)[i] in phases
    ensures PhasesModel(phases, noCameraMovement, noShotTimecode)[i] ==
      PhaseModel(phases[SortedKeys(phases.Keys)[i]], noCameraMovement, noShotTimecode)
  {
    ValuesInKeyOrderIndex(phases, i);
  }

  /** The entries of a dictionary filed under their own numbers come out in
      strictly ascending number, and every number comes out. */
  lemma ScenesAscending(d: PhaseData, noCameraMovement: bool, noShotTimecode: bool)
    requires forall s :: s in d.scenes ==> d.scenes[s].sceneNumber == s
    ensures var scenes := PhaseModel(d, noCameraMovement, noShotTimecode).scenes;
      && (forall a, b :: 0 <= a < b < |scenes| ==> scenes[a].sceneNumber < scenes[b].sceneNumber)
      && (forall a :: 0 <= a < |scenes| ==> scenes[a].sceneNumber in d.scenes)
  {
    var scenes := PhaseModel(d, noCameraMovement, noShotTimecode).scenes;
    var keys := SortedKeys(d.scenes.Keys);
    forall a | 0 <= a < |scenes|
      ensures scenes[a].sceneNumber == keys[a]
    {
      ValuesInKeyOrderIndex(d.scenes, a);
    }
  }

  /** `build_project_structure` emits phases in strictly ascending phase
      number, one for each number in the dictionary, and the scenes of each
      phase in strictly ascending scene number. */
  lemma PhasesAscending(phases: PhasesDict, noCameraMovement: bool, noShotTimecode: bool)
    requires WellKeyed(phases)
    ensures var r := PhasesModel(phases, noCameraMovement, noShotTimecode);
      && (forall i, j :: 0 <= i < j < |r| ==> r[i].phaseNumber < r[j].phaseNumber)
      && (forall p :: p in phases <==> exists i :: 0 <= i < |r| && r[i].phaseNumber == p)
      && (forall i, a, b :: 0 <= i < |r| && 0 <= a < b < |r[i].scenes| ==>
            r[i].scenes[a].sceneNumber < r[i].scenes[b].sceneNumber)
  {
    var r := PhasesModel(phases, noCameraMovement, noShotTimecode);
    var keys := SortedKeys(phases.Keys);
    forall i | 0 <= i < |r|
      ensures r[i].phaseNumber == keys[i]
      ensures forall a, b :: 0 <= a < b < |r[i].scenes| ==>
        r[i].scenes[a].sceneNumber < r[i].scenes[b].sceneNumber
    {
      ValuesInKeyOrderIndex(phases, i);
      ScenesAscending(phases[keys[i]], noCameraMovement, noShotTimecode);
    }
    forall p | p in phases
      ensures exists i :: 0 <= i < |r| && r[i].phaseNumber == p
    {
      var i :| 0 <= i < |keys| && keys[i] == p;
      assert r[i].phaseNumber == p;
    }
  }

  /** The project being built; `build_project_structure` appends to its
      phases in place. */
  class Project {
    var title: string
    var totalShots: int
    var phases: seq<Phase>

    /** `initialize_project`: a titled project with its shot total and no
        phases yet. */
    constructor Initialize(title: string, totalShots: int)
      ensures this.title == title && this.totalShots == totalShots && phases == []
    {
      this.title := title;
      this.totalShots := totalShots;
      phases := [];
    }

    /** `phases.append(phase)` */
    method AppendPhase(phase: Phase)
      modifies this
      ensures phases == old(phases) + [phase]
      ensures title == old(title) && totalShots == old(totalShots)
    {
      phases := phases + [phase];
    }
  }

  /** `build_project_structure`: the dictionary's phases are appended, in
      ascending phase number, after those the project already has; the same
      project is returned. */
  method BuildProjectStructure(project: Project, phases: PhasesDict, noCameraMovement: bool, noShotTimecode: bool)
    returns (built: Project)
    modifies project
    ensures built == project
    ensures project.phases == old(project.phases) + PhasesModel(phases, noCameraMovement, noShotTimecode)
    ensures project.title == old(project.title) && project.totalShots == old(project.totalShots)
  {
    ghost var before := project.phases;
    ghost var target := PhasesModel(phases, noCameraMovement, noShotTimecode);
    var keys := SortedKeys(phases.Keys);
    for i := 0 to |keys|
      invariant project.phases == before + target[..i]
      invariant project.title == old(project.title) && project.totalShots == old(project.totalShots)
    {
      var phase := CreatePhaseModel(phases[keys[i]], noCameraMovement, noShotTimecode);
      PhasesModelAt(phases, noCameraMovement, noShotTimecode, i);
      project.AppendPhase(phase);
      AppendOneMore(before, target, i, phase);
    }
    TakeAll(target, |keys|);
    return project;
  }

  /** `get_project_title`: a given title is kept; otherwise the file stem's
      underscores and hyphens become spaces and every word is capitalised. */
  function ProjectTitle(stem: string, given: string): (title: string)
    ensures given != "" ==> title == given
    ensures given == "" ==> |title| == |stem| && '_' !in title && '-' !in title
    ensures given == "" ==> forall i :: 0 <= i < |stem| ==>
      title[i] ==
        if stem[i] == '_' || stem[i] == '-' then ' '
        else if i > 0 && IsLetter(stem[i - 1]) then LowerChar(stem[i])
        else UpperChar(stem[i])
  {
    if given != "" then given
    else Title(ReplaceChar(ReplaceChar(stem, '_', ' '), '-', ' '))
  }

  /** The converter's unit test: the stem `test_data` gives "Test Data". */
  lemma ProjectTitleOfTestData()
    ensures ProjectTitle("test_data", "") == "Test Data"
  {
    TitleOfTestData("test_data", ProjectTitle("test_data", ""));
  }

  lemma TitleOfTestData(stem: string, title: string)
    requires stem == "test_data" && title == ProjectTitle(stem, "")
    ensures title == "Test Data"
  {
    assert |title| == 9;
    assert title[0] == 'T' && title[1] == 'e' && title[2] == 's' && title[3] == 't';
    assert title[4] == ' ';
    assert title[5] == 'D' && title[6] == 'a' && title[7] == 't' && title[8] == 'a';
  }
}
