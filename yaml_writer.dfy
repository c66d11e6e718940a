/** The part of `YAMLWriter` that is the writer's own code: the pass that
    inserts empty lines into the dumped YAML text before phases, scenes and
    shots, and the counts reported after writing. The dump itself is a
    library call; its text is a parameter here. */
module YamlWriter {
  import opened PyStr
  import opened Entities
  import opened OrderedKeys

  const PhaseMarker: string := "- phase_number:"
  const SceneMarker: string := "- scene_number:"
  const ShotMarker: string := "- shot_number:"

  /** The line opens a phase. */
  predicate IsPhaseLine(line: string) {
    Contains(line, PhaseMarker)
  }

  /** The line opens a scene and no phase: the `elif` lets phases win. */
  predicate IsSceneLine(line: string) {
    !Contains(line, PhaseMarker) && Contains(line, SceneMarker)
  }

  /** The line opens a shot and neither a phase nor a scene. */
  predicate IsShotLine(line: string) {
    !Contains(line, PhaseMarker) && !Contains(line, SceneMarker) && Contains(line, ShotMarker)
  }

  /** How many empty lines the pass puts before `line`. */
  function BlankLinesBefore(line: string): nat {
    if Contains(line, PhaseMarker) then 1
    else if Contains(line, SceneMarker) then 2
    else if Contains(line, ShotMarker) then 1
    else 0
  }

  function Blanks(n: nat): (r: seq<string>)
    ensures |r| == n && forall i :: 0 <= i < n ==> r[i] == ""
  {
    seq(n, _ => "")
  }

  /** The blank-line pass as a value: every line, preceded by the empty lines
      its markers call for. Nothing but empty lines is added. */
  function Spaced(lines: seq<string>): (out: seq<string>)
    ensures |out| >= |lines|
    decreases |lines|
  {
    if lines == [] then []
    else
      var x := lines[|lines| - 1];
      Spaced(lines[..|lines| - 1]) + Blanks(BlankLinesBefore(x)) + [x]
  }

  /** Every output line is an input line or an inserted empty one. */
  lemma {:induction false} SpacedAddsOnlyBlanks(lines: seq<string>)
    ensures forall j :: 0 <= j < |Spaced(lines)| ==> Spaced(lines)[j] == "" || Spaced(lines)[j] in lines
    decreases |lines|
  {
    if lines != [] {
      var init := lines[..|lines| - 1];
      var x := lines[|lines| - 1];
      SpacedAddsOnlyBlanks(init);
      var out := Spaced(lines);
      assert out == Spaced(init) + Blanks(BlankLinesBefore(x)) + [x];
      forall j | 0 <= j < |out|
        ensures out[j] == "" || out[j] in lines
      {
        if j < |Spaced(init)| {
          assert out[j] == Spaced(init)[j];
          if out[j] != "" {
            assert out[j] in init;
          }
        }
      }
    }
  }

  /** The loop of `write_yaml_file`: `formatted_lines` grows line by line. */
  method FormatLines(lines: seq<string>) returns (formatted: seq<string>)
    ensures formatted == Spaced(lines)
  {
    formatted := [];
    for i := 0 to |lines|
      invariant formatted == Spaced(lines[..i])
    {
      var line := lines[i];
      if Contains(line, PhaseMarker) {
        formatted := formatted + [""];
      } else if Contains(line, SceneMarker) {
        formatted := formatted + [""];
        formatted := formatted + [""];
      } else if Contains(line, ShotMarker) {
        formatted := formatted + [""];
      }
      formatted := formatted + [line];
      assert lines[..i + 1][..i] == lines[..i];
    }
    assert lines[..|lines|] == lines;
  }

  /** Deleting the inserted lines: from the end, each line takes away the
      empty lines its markers put before it. */
  function Unspaced(out: seq<string>): seq<string>
    decreases |out|
  {
    if out == [] then []
    else
      var x := out[|out| - 1];
      var k := BlankLinesBefore(x);
      if |out| - 1 < k then [x]
      else Unspaced(out[..|out| - 1 - k]) + [x]
  }

  /** Deleting the inserted lines recovers the input, every line in its
      original order. */
  lemma {:induction false} UnspacedSpaced(lines: seq<string>)
    ensures Unspaced(Spaced(lines)) == lines
    decreases |lines|
  {
    if lines != [] {
      var init := lines[..|lines| - 1];
      var x := lines[|lines| - 1];
      var k := BlankLinesBefore(x);
      var out := Spaced(lines);
      assert out == Spaced(init) + Blanks(k) + [x];
      assert out[..|out| - 1 - k] == Spaced(init);
      UnspacedSpaced(init);
      assert lines == init + [x];
    }
  }

  /** The pass treats lines one at a time: spacing a concatenation spaces
      each part. */
  lemma {:induction false} SpacedConcat(a: seq<string>, b: seq<string>)
    ensures Spaced(a + b) == Spaced(a) + Spaced(b)
    decreases |b|
  {
    if b == [] {
      assert a + b == a;
    } else {
      var b' := b[..|b| - 1];
      var x := b[|b| - 1];
      assert (a + b)[..|a + b| - 1] == a + b';
      assert (a + b)[|a + b| - 1] == x;
      SpacedConcat(a, b');
    }
  }

  /** A sequence is its part before `i`, its `i`-th element and the rest. */
  lemma SplitAround<T>(s: seq<T>, i: int)
    requires 0 <= i < |s|
    ensures s == (s[..i] + [s[i]]) + s[i + 1..]
  {
  }

  lemma BlanksThenLine(k: nat, line: string)
    ensures k == 0 ==> Blanks(k) + [line] == [line]
    ensures k == 1 ==> Blanks(k) + [line] == ["", line]
    ensures k == 2 ==> Blanks(k) + [line] == ["", "", line]
  {
  }

  lemma SpacedOne(line: string)
    ensures Spaced([line]) == Blanks(BlankLinesBefore(line)) + [line]
  {
    assert [line][..0] == [];
  }

  /** Spacing splits around any one line. */
  lemma SpacedAt(lines: seq<string>, i: int)
    requires 0 <= i < |lines|
    ensures Spaced(lines) ==
      Spaced(lines[..i]) + (Blanks(BlankLinesBefore(lines[i])) + [lines[i]]) + Spaced(lines[i + 1..])
  {
    var line := lines[i];
    var a, b := lines[..i], lines[i + 1..];
    SplitAround(lines, i);
    SpacedConcat(a + [line], b);
    SpacedConcat(a, [line]);
    SpacedOne(line);
  }

  /** Each input line appears in the output right after exactly the empty
      lines its markers call for: one before a phase, two before a scene that
      is no phase, one before a shot that is neither, none otherwise; what
      comes before it stems from the earlier lines, what comes after from the
      later ones. */
  lemma SpacedAround(lines: seq<string>, i: int)
    requires 0 <= i < |lines|
    ensures var line := lines[i];
      var before, after := Spaced(lines[..i]), Spaced(lines[i + 1..]);
      && (IsPhaseLine(line) ==> Spaced(lines) == before + ["", line] + after)
      && (IsSceneLine(line) ==> Spaced(lines) == before + ["", "", line] + after)
      && (IsShotLine(line) ==> Spaced(lines) == before + ["", line] + after)
      && (!IsPhaseLine(line) && !IsSceneLine(line) && !IsShotLine(line) ==>
            Spaced(lines) == before + [line] + after)
  {
    SpacedAt(lines, i);
    BlanksThenLine(BlankLinesBefore(lines[i]), lines[i]);
  }

  /** The number of lines satisfying `f`. */
  function CountLines(lines: seq<string>, f: string -> bool): nat
    decreases |lines|
  {
    if lines == [] then 0
    else CountLines(lines[..|lines| - 1], f) + (if f(lines[|lines| - 1]) then 1 else 0)
  }

  /** The output has the input's lines plus one per phase line, two per scene
      line and one per shot line. */
  lemma {:induction false} SpacedLength(lines: seq<string>)
    ensures |Spaced(lines)| ==
      |lines| + CountLines(lines, IsPhaseLine) + 2 * CountLines(lines, IsSceneLine)
        + CountLines(lines, IsShotLine)
    decreases |lines|
  {
    if lines != [] {
      SpacedLength(lines[..|lines| - 1]);
    }
  }

  /** The text `write_yaml_file` writes for dumped text `yamlContent`: its
      lines, spaced, rejoined with newlines. */
  function WrittenText(yamlContent: string): string {
    Join(Spaced(Split(yamlContent, '\n')), '\n')
  }

  /** `write_yaml_file` after the dump: split, space, join. */
  method FormatYaml(yamlContent: string) returns (text: string)
    ensures text == WrittenText(yamlContent)
  {
    var lines := Split(yamlContent, '\n');
    var formatted := FormatLines(lines);
    text := Join(formatted, '\n');
  }

  /** The written text loses nothing: splitting it into lines and deleting
      the inserted ones gives back the dumped text. */
  lemma WrittenTextRecovers(yamlContent: string)
    ensures Join(Unspaced(Split(WrittenText(yamlContent), '\n')), '\n') == yamlContent
  {
    var lines := Split(yamlContent, '\n');
    var out := Spaced(lines);
    SpacedAddsOnlyBlanks(lines);
    assert forall j :: 0 <= j < |out| ==> '\n' !in out[j] by {
      forall j | 0 <= j < |out|
        ensures '\n' !in out[j]
      {
        if out[j] != "" {
          var k :| 0 <= k < |lines| && lines[k] == out[j];
        }
      }
    }
    SplitJoin(out, '\n');
    UnspacedSpaced(lines);
    JoinSplit(yamlContent, '\n');
  }

  // ----- the counts reported by `finalize_and_write` -----

  function SceneCount(phase: Phase): int {
    |phase.scenes|
  }

  function ShotCount(scene: Scene): int {
    |scene.shots|
  }

  /** The shots of a phase, summed over its scenes: zero exactly when every
      scene of the phase is empty. */
  function PhaseShotCount(phase: Phase): (r: int)
    ensures r >= 0
    ensures r == 0 <==> forall j :: 0 <= j < |phase.scenes| ==> phase.scenes[j].shots == []
  {
    SumSeqZero(phase.scenes, ShotCount);
    SumSeq(phase.scenes, ShotCount)
  }

  /** `total_phases`: no phase is reported exactly when the project has none. */
  function TotalPhases(phases: seq<Phase>): (r: int)
    ensures r >= 0
    ensures r == 0 <==> phases == []
  {
    |phases|
  }

  /** `total_scenes`: zero exactly when no phase has a scene. */
  function TotalScenes(phases: seq<Phase>): (r: int)
    ensures r >= 0
    ensures r == 0 <==> forall i :: 0 <= i < |phases| ==> phases[i].scenes == []
  {
    SumSeqZero(phases, SceneCount);
    SumSeq(phases, SceneCount)
  }

  /** `total_shots`: zero exactly when no scene of any phase has a shot. */
  function TotalShots(phases: seq<Phase>): (r: int)
    ensures r >= 0
    ensures r == 0 <==> forall i, j :: 0 <= i < |phases| && 0 <= j < |phases[i].scenes| ==>
      phases[i].scenes[j].shots == []
  {
    SumSeqZero(phases, PhaseShotCount);
    SumSeq(phases, PhaseShotCount)
  }

  /** Every scene of every phase, phase by phase. */
  function AllScenes(phases: seq<Phase>): seq<Scene>
    decreases |phases|
  {
    if phases == [] then []
    else AllScenes(phases[..|phases| - 1]) + phases[|phases| - 1].scenes
  }

  /** `total_scenes` counts every scene of the project once, and
      `total_shots` is the sum of the shot counts over all those scenes. */
  lemma {:induction false} TotalsOverAllScenes(phases: seq<Phase>)
    ensures TotalScenes(phases) == |AllScenes(phases)|
    ensures TotalShots(phases) == SumSeq(AllScenes(phases), ShotCount)
    decreases |phases|
  {
    if phases != [] {
      var init := phases[..|phases| - 1];
      var last := phases[|phases| - 1];
      TotalsOverAllScenes(init);
      SumSeqAppend(AllScenes(init), last.scenes, ShotCount);
    }
  }

  /** Appending phases adds their counts. */
  lemma TotalsAppend(a: seq<Phase>, b: seq<Phase>)
    ensures TotalPhases(a + b) == TotalPhases(a) + TotalPhases(b)
    ensures TotalScenes(a + b) == TotalScenes(a) + TotalScenes(b)
    ensures TotalShots(a + b) == TotalShots(a) + TotalShots(b)
  {
    SumSeqAppend(a, b, SceneCount);
    SumSeqAppend(a, b, PhaseShotCount);
  }
}
