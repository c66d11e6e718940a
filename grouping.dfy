/** What the dictionary built by `process_tsv_data` holds, stated against the
    sequence of rows the loop accepts: phases and scenes are grouped by key,
    not by contiguous run, their attributes come from the first row filed
    under them, and every accepted row contributes exactly one shot, in row
    order. */
module Grouping {
  import opened Wrappers
  import opened TsvReader
  import opened Entities
  import opened Hierarchy
  import opened OrderedKeys

  /** An accepted row: the phase, scene and shot numbers it is filed under. */
  datatype Entry = Entry(phase: int, scene: int, shot: int, row: RowData)

  /** The rows the loop files, in order, each with its numbers. */
  function Log(rows: seq<RowData>): (log: seq<Entry>)
    requires Run(rows).Ok?
    ensures |log| <= |rows|
    decreases |rows|
  {
    if rows == [] then []
    else
      var prefix, row := rows[..|rows| - 1], rows[|rows| - 1];
      match Admit(Run(prefix).value.cursor, row)
      case Accept(_, p, s, n) => Log(prefix) + [Entry(p, s, n, row)]
      case _ => Log(prefix)
  }

  // ----- a reference definition of the grouping -----

  /** The phase numbers of the accepted rows. */
  function PhaseNumbers(log: seq<Entry>): set<int> {
    set i | 0 <= i < |log| :: log[i].phase
  }

  /** The scene numbers of the accepted rows of phase `p`. */
  function SceneNumbers(log: seq<Entry>, p: int): set<int> {
    set i | 0 <= i < |log| && log[i].phase == p :: log[i].scene
  }

  /** The position of the first accepted row of phase `p`. */
  function FirstOfPhase(log: seq<Entry>, p: int): (i: nat)
    requires p in PhaseNumbers(log)
    ensures i < |log| && log[i].phase == p
    ensures forall j :: 0 <= j < i ==> log[j].phase != p
  {
    if log[0].phase == p then 0
    else
      assert p in PhaseNumbers(log[1..]) by {
        var k :| 0 <= k < |log| && log[k].phase == p;
        assert log[1..][k - 1] == log[k];
      }
      1 + FirstOfPhase(log[1..], p)
  }

  /** The position of the first accepted row of scene `s` of phase `p`. */
  function FirstOfScene(log: seq<Entry>, p: int, s: int): (i: nat)
    requires s in SceneNumbers(log, p)
    ensures i < |log| && log[i].phase == p && log[i].scene == s
    ensures forall j :: 0 <= j < i ==> !(log[j].phase == p && log[j].scene == s)
  {
    if log[0].phase == p && log[0].scene == s then 0
    else
      assert s in SceneNumbers(log[1..], p) by {
        var k :| 0 <= k < |log| && log[k].phase == p && log[k].scene == s;
        assert log[1..][k - 1] == log[k];
      }
      1 + FirstOfScene(log[1..], p, s)
  }

  /** Every accepted row's shot dictionary can be built. */
  predicate AllShotsBuild(log: seq<Entry>) {
    forall i :: 0 <= i < |log| ==> CreateShotData(log[i].shot, log[i].row).Ok?
  }

  /** The shots of the accepted rows filed under phase `p` and scene `s`, in
      row order. */
  function ShotsOf(log: seq<Entry>, p: int, s: int): seq<ShotData>
    requires AllShotsBuild(log)
    decreases |log|
  {
    if log == [] then []
    else
      var e := log[|log| - 1];
      assert CreateShotData(e.shot, e.row).Ok?;
      ShotsOf(log[..|log| - 1], p, s) +
        if e.phase == p && e.scene == s then [CreateShotData(e.shot, e.row).value] else []
  }

  /** One phase per phase number of the accepted rows, headed by the first
      row of that phase and holding one scene per scene number of its rows. */
  ghost predicate PhasesGrouped(phases: PhasesDict, log: seq<Entry>) {
    && phases.Keys == PhaseNumbers(log)
    && forall p :: p in phases ==>
      && NewPhase(log[FirstOfPhase(log, p)].row, p) == Ok(phases[p].(scenes := map[]))
      && phases[p].scenes.Keys == SceneNumbers(log, p)
  }

  /** Each scene is headed by the first row filed under its (phase, scene)
      pair and holds the shots of all those rows, in order. */
  ghost predicate ScenesGrouped(phases: PhasesDict, log: seq<Entry>)
    requires AllShotsBuild(log)
  {
    forall p, s :: p in phases && s in phases[p].scenes && s in SceneNumbers(log, p) ==>
      && NewScene(log[FirstOfScene(log, p, s)].row, s) == Ok(phases[p].scenes[s].(shots := []))
      && phases[p].scenes[s].shots == ShotsOf(log, p, s)
  }

  /** `phases` files the accepted rows `log` by key: one phase per phase
      number and one scene per (phase, scene) pair, each headed by the first
      row filed under it and holding the shots of all its rows in order. */
  ghost predicate Grouped(phases: PhasesDict, log: seq<Entry>) {
    AllShotsBuild(log) && PhasesGrouped(phases, log) && ScenesGrouped(phases, log)
  }

  // ----- the reference functions under one more accepted row -----

  lemma PhaseNumbersAppend(log: seq<Entry>, e: Entry)
    ensures PhaseNumbers(log + [e]) == PhaseNumbers(log) + {e.phase}
  {
    var l := log + [e];
    forall q | q in PhaseNumbers(l)
      ensures q in PhaseNumbers(log) + {e.phase}
    {
      var i :| 0 <= i < |l| && l[i].phase == q;
      if i < |log| {
        assert log[i] == l[i];
      }
    }
    forall q | q in PhaseNumbers(log)
      ensures q in PhaseNumbers(l)
    {
      var i :| 0 <= i < |log| && log[i].phase == q;
      assert l[i] == log[i];
    }
    assert l[|log|] == e;
  }

  lemma SceneNumbersAppend(log: seq<Entry>, e: Entry, q: int)
    ensures SceneNumbers(log + [e], q) ==
      SceneNumbers(log, q) + if q == e.phase then {e.scene} else {}
  {
    var l := log + [e];
    forall t | t in SceneNumbers(l, q)
      ensures t in SceneNumbers(log, q) + if q == e.phase then {e.scene} else {}
    {
      var i :| 0 <= i < |l| && l[i].phase == q && l[i].scene == t;
      if i < |log| {
        assert log[i] == l[i];
      }
    }
    forall t | t in SceneNumbers(log, q)
      ensures t in SceneNumbers(l, q)
    {
      var i :| 0 <= i < |log| && log[i].phase == q && log[i].scene == t;
      assert l[i] == log[i];
    }
    assert l[|log|] == e;
  }

  /** A phase number never seen before has no scenes. */
  lemma SceneNumbersOfNewPhase(log: seq<Entry>, q: int)
    requires q !in PhaseNumbers(log)
    ensures SceneNumbers(log, q) == {}
  {
    forall i | 0 <= i < |log|
      ensures log[i].phase != q
    {
      assert log[i].phase in PhaseNumbers(log);
    }
  }

  lemma FirstOfPhaseAppend(log: seq<Entry>, e: Entry, q: int)
    requires q in PhaseNumbers(log + [e])
    ensures q in PhaseNumbers(log) ==> FirstOfPhase(log + [e], q) == FirstOfPhase(log, q)
    ensures q !in PhaseNumbers(log) ==> FirstOfPhase(log + [e], q) == |log|
  {
    var l := log + [e];
    var i := FirstOfPhase(l, q);
    forall j | 0 <= j < |log|
      ensures l[j] == log[j]
    {
    }
    if q in PhaseNumbers(log) {
      var k := FirstOfPhase(log, q);
      assert l[k].phase == q;
    }
  }

  lemma FirstOfSceneAppend(log: seq<Entry>, e: Entry, q: int, t: int)
    requires t in SceneNumbers(log + [e], q)
    ensures t in SceneNumbers(log, q) ==> FirstOfScene(log + [e], q, t) == FirstOfScene(log, q, t)
    ensures t !in SceneNumbers(log, q) ==> FirstOfScene(log + [e], q, t) == |log|
  {
    var l := log + [e];
    var i := FirstOfScene(l, q, t);
    forall j | 0 <= j < |log|
      ensures l[j] == log[j]
    {
    }
    if t in SceneNumbers(log, q) {
      var k := FirstOfScene(log, q, t);
      assert l[k].phase == q && l[k].scene == t;
    }
  }

  lemma ShotsOfAppend(log: seq<Entry>, e: Entry, q: int, t: int)
    requires AllShotsBuild(log + [e])
    ensures AllShotsBuild(log) && CreateShotData(e.shot, e.row).Ok?
    ensures ShotsOf(log + [e], q, t) == ShotsOf(log, q, t) +
      if e.phase == q && e.scene == t then [CreateShotData(e.shot, e.row).value] else []
  {
    var l := log + [e];
    assert l[..|l| - 1] == log;
    assert l[|log|] == e;
    forall i | 0 <= i < |log|
      ensures CreateShotData(log[i].shot, log[i].row).Ok?
    {
      assert l[i] == log[i];
    }
  }

  // ----- the loop keeps the dictionary grouped -----

  /** `result` is `phases` after filing `shot` of `row` under phase `p` and
      scene `s`: a new phase or scene is made from the row, an existing one
      only gains the shot at the end, and nothing else changes. */
  ghost predicate Filed(phases: PhasesDict, result: PhasesDict, row: RowData, p: int, s: int, shot: ShotData) {
    && result.Keys == phases.Keys + {p}
    && (forall q :: q in phases && q != p ==> result[q] == phases[q])
    && (if p in phases then result[p].(scenes := map[]) == phases[p].(scenes := map[])
        else NewPhase(row, p) == Ok(result[p].(scenes := map[])))
    && result[p].scenes.Keys == (if p in phases then phases[p].scenes.Keys else {}) + {s}
    && (forall t :: p in phases && t in phases[p].scenes && t != s ==>
          result[p].scenes[t] == phases[p].scenes[t])
    && (if p in phases && s in phases[p].scenes then
          result[p].scenes[s] == phases[p].scenes[s].(shots := phases[p].scenes[s].shots + [shot])
        else
          NewScene(row, s) == Ok(result[p].scenes[s].(shots := [])) && result[p].scenes[s].shots == [shot])
  }

  /** `_process_row_data` files the row's shot and changes nothing else. */
  lemma ProcessRowFiles(phases: PhasesDict, row: RowData, p: int, s: int, n: int)
    requires ProcessRowData(phases, row, p, s, n).Ok?
    ensures CreateShotData(n, row).Ok?
    ensures Filed(phases, ProcessRowData(phases, row, p, s, n).value, row, p, s, CreateShotData(n, row).value)
  {
    var w1 := EnsurePhase(phases, p, row).value;
    var w2 := EnsureScene(w1, p, s, row).value;
    var shot := CreateShotData(n, row).value;
    var result := AddShot(w2, p, s, shot);
    assert ProcessRowData(phases, row, p, s, n).value == result;
  }

  /** A phase already present keeps its head, and gains at most the new
      row's scene. */
  lemma InsertKeepsOldPhase(phases: PhasesDict, result: PhasesDict, log: seq<Entry>, e: Entry, shot: ShotData, q: int)
    requires PhasesGrouped(phases, log)
    requires Filed(phases, result, e.row, e.phase, e.scene, shot)
    requires q in phases
    ensures var l := log + [e];
      && q in PhaseNumbers(l)
      && NewPhase(l[FirstOfPhase(l, q)].row, q) == Ok(result[q].(scenes := map[]))
      && result[q].scenes.Keys == SceneNumbers(l, q)
  {
    var l := log + [e];
    PhaseNumbersAppend(log, e);
    FirstOfPhaseAppend(log, e, q);
    SceneNumbersAppend(log, e, q);
    assert l[FirstOfPhase(l, q)] == log[FirstOfPhase(log, q)];
  }

  /** A phase the row opens is headed by that row and holds its scene. */
  lemma InsertKeepsNewPhase(phases: PhasesDict, result: PhasesDict, log: seq<Entry>, e: Entry, shot: ShotData)
    requires PhasesGrouped(phases, log)
    requires Filed(phases, result, e.row, e.phase, e.scene, shot)
    requires e.phase !in phases
    ensures var l := log + [e];
      && e.phase in PhaseNumbers(l)
      && NewPhase(l[FirstOfPhase(l, e.phase)].row, e.phase) == Ok(result[e.phase].(scenes := map[]))
      && result[e.phase].scenes.Keys == SceneNumbers(l, e.phase)
  {
    var l := log + [e];
    var q := e.phase;
    PhaseNumbersAppend(log, e);
    FirstOfPhaseAppend(log, e, q);
    SceneNumbersAppend(log, e, q);
    SceneNumbersOfNewPhase(log, q);
    assert l[|log|] == e;
  }

  /** One phase after filing one more accepted row is headed and keyed as
      the grouping prescribes. */
  lemma InsertKeepsPhase(phases: PhasesDict, result: PhasesDict, log: seq<Entry>, e: Entry, shot: ShotData, q: int)
    requires PhasesGrouped(phases, log)
    requires Filed(phases, result, e.row, e.phase, e.scene, shot)
    requires q in result
    ensures var l := log + [e];
      && q in PhaseNumbers(l)
      && NewPhase(l[FirstOfPhase(l, q)].row, q) == Ok(result[q].(scenes := map[]))
      && result[q].scenes.Keys == SceneNumbers(l, q)
  {
    if q in phases {
      InsertKeepsOldPhase(phases, result, log, e, shot, q);
    } else {
      InsertKeepsNewPhase(phases, result, log, e, shot);
    }
  }

  /** The phases after filing one more accepted row are headed and keyed as
      the grouping prescribes. */
  lemma InsertKeepsPhases(phases: PhasesDict, result: PhasesDict, log: seq<Entry>, e: Entry, shot: ShotData)
    requires PhasesGrouped(phases, log)
    requires Filed(phases, result, e.row, e.phase, e.scene, shot)
    ensures PhasesGrouped(result, log + [e])
  {
    PhaseNumbersAppend(log, e);
    forall q | q in result {
      InsertKeepsPhase(phases, result, log, e, shot, q);
    }
  }

  lemma AppendKeepsShotsBuilding(log: seq<Entry>, e: Entry)
    requires AllShotsBuild(log) && CreateShotData(e.shot, e.row).Ok?
    ensures AllShotsBuild(log + [e])
  {
    var l := log + [e];
    forall i | 0 <= i < |l|
      ensures CreateShotData(l[i].shot, l[i].row).Ok?
    {
      if i < |log| {
        assert l[i] == log[i];
      }
    }
  }

  /** One scene after filing one more accepted row is headed and filled as
      the grouping prescribes. */
  lemma InsertKeepsScene(phases: PhasesDict, result: PhasesDict, log: seq<Entry>, e: Entry, shot: ShotData, q: int, t: int)
    requires AllShotsBuild(log) && PhasesGrouped(phases, log) && ScenesGrouped(phases, log)
    requires CreateShotData(e.shot, e.row) == Ok(shot)
    requires Filed(phases, result, e.row, e.phase, e.scene, shot)
    requires AllShotsBuild(log + [e])
    requires q in result && t in result[q].scenes && t in SceneNumbers(log + [e], q)
    ensures var l := log + [e];
      && NewScene(l[FirstOfScene(l, q, t)].row, t) == Ok(result[q].scenes[t].(shots := []))
      && result[q].scenes[t].shots == ShotsOf(l, q, t)
  {
    var l := log + [e];
    FirstOfSceneAppend(log, e, q, t);
    ShotsOfAppend(log, e, q, t);
    if q in phases && t in phases[q].scenes {
      assert l[FirstOfScene(l, q, t)] == log[FirstOfScene(log, q, t)];
      assert result[q].scenes[t].(shots := []) == phases[q].scenes[t].(shots := []);
    } else {
      if q !in phases {
        SceneNumbersOfNewPhase(log, q);
      }
      ShotsOfUnseen(log, q, t);
      assert l[|log|] == e;
    }
  }

  /** The scenes after filing one more accepted row are headed and filled as
      the grouping prescribes. */
  lemma InsertKeepsScenes(phases: PhasesDict, result: PhasesDict, log: seq<Entry>, e: Entry, shot: ShotData)
    requires AllShotsBuild(log) && PhasesGrouped(phases, log) && ScenesGrouped(phases, log)
    requires CreateShotData(e.shot, e.row) == Ok(shot)
    requires Filed(phases, result, e.row, e.phase, e.scene, shot)
    ensures AllShotsBuild(log + [e])
    ensures ScenesGrouped(result, log + [e])
  {
    AppendKeepsShotsBuilding(log, e);
    forall q, t | q in result && t in result[q].scenes && t in SceneNumbers(log + [e], q) {
      InsertKeepsScene(phases, result, log, e, shot, q, t);
    }
  }

  /** Filing one more accepted row keeps the dictionary grouped. */
  lemma InsertKeepsGrouped(phases: PhasesDict, log: seq<Entry>, row: RowData, p: int, s: int, n: int)
    requires Grouped(phases, log)
    requires ProcessRowData(phases, row, p, s, n).Ok?
    ensures Grouped(ProcessRowData(phases, row, p, s, n).value, log + [Entry(p, s, n, row)])
  {
    ProcessRowFiles(phases, row, p, s, n);
    var result := ProcessRowData(phases, row, p, s, n).value;
    var shot := CreateShotData(n, row).value;
    InsertKeepsPhases(phases, result, log, Entry(p, s, n, row), shot);
    InsertKeepsScenes(phases, result, log, Entry(p, s, n, row), shot);
  }

  /** A (phase, scene) pair no accepted row has has no shots. */
  lemma {:induction false} ShotsOfUnseen(log: seq<Entry>, q: int, t: int)
    requires AllShotsBuild(log) && t !in SceneNumbers(log, q)
    ensures ShotsOf(log, q, t) == []
    decreases |log|
  {
    if log != [] {
      var prefix := log[..|log| - 1];
      assert log == prefix + [log[|log| - 1]];
      SceneNumbersAppend(prefix, log[|log| - 1], q);
      ShotsOfAppend(prefix, log[|log| - 1], q, t);
      ShotsOfUnseen(prefix, q, t);
    }
  }

  /** Whatever the rows, the dictionary the loop builds is grouped by key
      over the rows it accepts. */
  lemma {:induction false} RunGroupsByKey(rows: seq<RowData>)
    requires Run(rows).Ok?
    ensures Grouped(Run(rows).value.phases, Log(rows))
    decreases |rows|
  {
    if rows != [] {
      var prefix, row := rows[..|rows| - 1], rows[|rows| - 1];
      assert rows == prefix + [row];
      RunAppend(prefix, row);
      RunGroupsByKey(prefix);
      var b := Run(prefix).value;
      match Admit(b.cursor, row)
      case Accept(_, p, s, n) =>
        InsertKeepsGrouped(b.phases, Log(prefix), row, p, s, n);
      case _ =>
    }
  }

  /** A grouped dictionary files every entry under its own number. */
  lemma GroupedIsWellKeyed(phases: PhasesDict, log: seq<Entry>)
    requires Grouped(phases, log)
    ensures WellKeyed(phases)
  {
    forall p | p in phases
      ensures phases[p].phaseNumber == p
      ensures forall s :: s in phases[p].scenes ==> phases[p].scenes[s].sceneNumber == s
    {
      assert phases[p].(scenes := map[]).phaseNumber == phases[p].phaseNumber;
      forall s | s in phases[p].scenes
        ensures phases[p].scenes[s].sceneNumber == s
      {
        assert phases[p].scenes[s].(shots := []).sceneNumber == phases[p].scenes[s].sceneNumber;
      }
    }
  }

  // ----- counting shots -----

  function SceneShots(scene: SceneData): int {
    |scene.shots|
  }

  function PhaseShots(phase: PhaseData): int {
    SumBy(phase.scenes, SceneShots)
  }

  /** The number of shots in the dictionary. */
  function DictShots(phases: PhasesDict): int {
    SumBy(phases, PhaseShots)
  }

  /** Making sure the phase exists adds no shot. */
  lemma EnsurePhaseKeepsShots(phases: PhasesDict, p: int, row: RowData)
    requires EnsurePhase(phases, p, row).Ok?
    ensures DictShots(EnsurePhase(phases, p, row).value) == DictShots(phases)
  {
    if p !in phases {
      var phase := NewPhase(row, p).value;
      assert EnsurePhase(phases, p, row).value == phases[p := phase];
      SumByUpdate(phases, p, phase, PhaseShots);
    }
  }

  /** Making sure the scene exists adds no shot. */
  lemma EnsureSceneKeepsShots(phases: PhasesDict, p: int, s: int, row: RowData)
    requires p in phases && EnsureScene(phases, p, s, row).Ok?
    ensures DictShots(EnsureScene(phases, p, s, row).value) == DictShots(phases)
  {
    var phase := phases[p];
    if s !in phase.scenes {
      var scene := NewScene(row, s).value;
      var withScene := phase.(scenes := phase.scenes[s := scene]);
      assert EnsureScene(phases, p, s, row).value == phases[p := withScene];
      SumByUpdate(phase.scenes, s, scene, SceneShots);
      SumByUpdate(phases, p, withScene, PhaseShots);
    }
  }

  /** Adding the shot adds exactly one. */
  lemma AddShotAddsOne(phases: PhasesDict, p: int, s: int, shot: ShotData)
    requires p in phases && s in phases[p].scenes
    ensures DictShots(AddShot(phases, p, s, shot)) == DictShots(phases) + 1
  {
    var phase := phases[p];
    var scene := phase.scenes[s];
    var longer := scene.(shots := scene.shots + [shot]);
    var withShot := phase.(scenes := phase.scenes[s := longer]);
    assert AddShot(phases, p, s, shot) == phases[p := withShot];
    SumByUpdate(phase.scenes, s, longer, SceneShots);
    SumByUpdate(phases, p, withShot, PhaseShots);
  }

  /** Filing a row adds exactly one shot. */
  lemma ProcessRowAddsOneShot(phases: PhasesDict, row: RowData, p: int, s: int, n: int)
    requires ProcessRowData(phases, row, p, s, n).Ok?
    ensures DictShots(ProcessRowData(phases, row, p, s, n).value) == DictShots(phases) + 1
  {
    EnsurePhaseKeepsShots(phases, p, row);
    var w1 := EnsurePhase(phases, p, row).value;
    EnsureSceneKeepsShots(w1, p, s, row);
    var w2 := EnsureScene(w1, p, s, row).value;
    var shot := CreateShotData(n, row).value;
    AddShotAddsOne(w2, p, s, shot);
    assert ProcessRowData(phases, row, p, s, n).value == AddShot(w2, p, s, shot);
  }

  /** The dictionary holds exactly one shot per accepted row. */
  lemma {:induction false} RunCountsShots(rows: seq<RowData>)
    requires Run(rows).Ok?
    ensures DictShots(Run(rows).value.phases) == |Log(rows)|
    decreases |rows|
  {
    if rows == [] {
      assert Run(rows).value.phases == map[];
    } else {
      var prefix, row := rows[..|rows| - 1], rows[|rows| - 1];
      assert rows == prefix + [row];
      RunAppend(prefix, row);
      RunCountsShots(prefix);
      var b := Run(prefix).value;
      match Admit(b.cursor, row)
      case Accept(_, p, s, n) =>
        ProcessRowAddsOneShot(b.phases, row, p, s, n);
      case _ =>
    }
  }
}
