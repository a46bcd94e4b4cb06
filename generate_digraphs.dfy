/**
 * The decision part of the digraph generator: the majority rule `decide` (tie neutral), the
 * automaton table and its metadata, and the five-state Turing machine generated from the two
 * decisions, whose run on "0" and "1" reproduces them.
 */
module GenerateDigraphs {
  import opened Wrappers
  import opened Labels
  import opened TuringModel
  import opened TuringCodec

  /** Values outside {0, 1} are counted neither as ones nor as zeros. */
  function Decide(binaryVec: seq<int>): (l: Label)
    ensures l != Reject
    ensures l == Happy <==> Count(binaryVec, 1) > Count(binaryVec, 0)
    ensures l == Sad <==> Count(binaryVec, 0) > Count(binaryVec, 1)
    ensures l == Neutral <==> Count(binaryVec, 0) == Count(binaryVec, 1)
  {
    MajorityOf(Count(binaryVec, 1), Count(binaryVec, 0), Neutral)
  }

  /** `label_map.get(label, -1)` with happy = 1, sad = 0, neutral = 0.5, reject = -1. */
  function LabelValue(l: Label): real {
    match l
    case Happy => 1.0
    case Sad => 0.0
    case Neutral => 0.5
    case Reject => -1.0
  }

  datatype Metadata = Metadata(
    sadLabel: Label, happyLabel: Label,
    sadOnes: nat, sadTotal: nat, happyOnes: nat, happyTotal: nat, threshold: real)

  /** The 'neutral->sad' and 'neutral->happy' values and the '_metadata' record. */
  datatype Automaton = Automaton(sadValue: real, happyValue: real, metadata: Metadata)

  /**
   * The automaton built from the neutral-to-sad and neutral-to-happy binary vectors: each value is
   * the label map's number for that vector's decision, never -1, and the metadata counts are
   * consistent with the vectors.
   */
  function BuildAutomaton(binaryNs: seq<int>, binaryNt: seq<int>, threshold: real): (a: Automaton)
    ensures a.metadata.sadLabel == Decide(binaryNs) && a.metadata.happyLabel == Decide(binaryNt)
    ensures a.sadValue == LabelValue(a.metadata.sadLabel) && a.happyValue == LabelValue(a.metadata.happyLabel)
    ensures a.sadValue in {0.0, 0.5, 1.0} && a.happyValue in {0.0, 0.5, 1.0}
    ensures a.metadata.sadOnes <= a.metadata.sadTotal == |binaryNs|
    ensures a.metadata.happyOnes <= a.metadata.happyTotal == |binaryNt|
    ensures a.metadata.threshold == threshold
  {
    var decSad := Decide(binaryNs);
    var decHappy := Decide(binaryNt);
    Automaton(LabelValue(decSad), LabelValue(decHappy),
      Metadata(decSad, decHappy, Count(binaryNs, 1), |binaryNs|, Count(binaryNt, 1), |binaryNt|, threshold))
  }

  /** The generated machine in its serialised form, exactly as written to `turing_machine.json`. */
  function GeneratedSpec(decSad: Label, decHappy: Label): SpecRecord {
    SpecRecord(
      ["q_start", "q_check_sad", "q_check_happy", "q_accept", "q_reject"], ["0", "1"], ["0", "1", "_"],
      "_", "q_start", ["q_accept"], ["q_reject"],
      map["q_start,0" := Action("q_check_sad", "0", "R"),
          "q_start,1" := Action("q_check_happy", "1", "R"),
          "q_start,_" := Action("q_reject", "_", "N"),
          "q_check_sad,_" := Action(if decSad == Sad then "q_accept" else "q_reject", "_", "N"),
          "q_check_happy,_" := Action(if decHappy == Happy then "q_accept" else "q_reject", "_", "N")])
  }


  /** The delta as pairs: the generated keys all split back into (state, symbol). */
  function GeneratedTransitions(decSad: Label, decHappy: Label): map<(State, Symbol), Action> {
    map[("q_start", "0") := Action("q_check_sad", "0", "R"),
        ("q_start", "1") := Action("q_check_happy", "1", "R"),
        ("q_start", "_") := Action("q_reject", "_", "N"),
        ("q_check_sad", "_") := Action(if decSad == Sad then "q_accept" else "q_reject", "_", "N"),
        ("q_check_happy", "_") := Action(if decHappy == Happy then "q_accept" else "q_reject", "_", "N")]
  }

  /** The machine `from_snapshot` builds from the generated specification (GeneratedMachineLoads). */
  function GeneratedMachine(decSad: Label, decHappy: Label): Machine {
    Machine(
      {"q_start", "q_check_sad", "q_check_happy", "q_accept", "q_reject"}, {"0", "1"}, {"0", "1", "_"},
      "_", GeneratedTransitions(decSad, decHappy), "q_start", {"q_accept"}, {"q_reject"})
  }

  /** Loading the generated delta yields exactly the five transitions, keyed by pairs. */
  lemma GeneratedDelta(decSad: Label, decHappy: Label)
    ensures DecodeDelta(GeneratedSpec(decSad, decHappy).delta) == GeneratedTransitions(decSad, decHappy)
  {
    var d := GeneratedSpec(decSad, decHappy).delta;
    var p1, p2, p3, p4, p5 := ("q_start", "0"), ("q_start", "1"), ("q_start", "_"), ("q_check_sad", "_"), ("q_check_happy", "_");
    var a1, a2, a3 := Action("q_check_sad", "0", "R"), Action("q_check_happy", "1", "R"), Action("q_reject", "_", "N");
    var a4 := Action(if decSad == Sad then "q_accept" else "q_reject", "_", "N");
    var a5 := Action(if decHappy == Happy then "q_accept" else "q_reject", "_", "N");
    assert TransitionKey(p1) == "q_start,0";
    assert TransitionKey(p2) == "q_start,1";
    assert TransitionKey(p3) == "q_start,_";
    assert TransitionKey(p4) == "q_check_sad,_";
    assert TransitionKey(p5) == "q_check_happy,_";
    var d0: map<string, Action> := map[];
    var d1 := d0[TransitionKey(p1) := a1];
    var d2 := d1[TransitionKey(p2) := a2];
    var d3 := d2[TransitionKey(p3) := a3];
    var d4 := d3[TransitionKey(p4) := a4];
    var d5 := d4[TransitionKey(p5) := a5];
    assert d5 == d;
    assert NoComma(p1.0) && NoComma(p4.0) && NoComma(p5.0);
    DecodeDeltaEmpty();
    DecodeDeltaUpdate(d0, p1, a1);
    DecodeDeltaUpdate(d1, p2, a2);
    DecodeDeltaUpdate(d2, p3, a3);
    DecodeDeltaUpdate(d3, p4, a4);
    DecodeDeltaUpdate(d4, p5, a5);
    assert map[][p1 := a1][p2 := a2][p3 := a3][p4 := a4][p5 := a5] == GeneratedTransitions(decSad, decHappy);
  }

  /** `from_snapshot`'s reading of the generated specification. */
  lemma GeneratedMachineLoads(decSad: Label, decHappy: Label)
    ensures DecodeSpec(GeneratedSpec(decSad, decHappy)) == GeneratedMachine(decSad, decHappy)
  {
    GeneratedDelta(decSad, decHappy);
  }

  /** Every generated transition writes back the symbol it read, so a run never alters the tape. */
  lemma GeneratedWritesBack(decSad: Label, decHappy: Label)
    ensures var t := GeneratedMachine(decSad, decHappy).transitions;
      forall p :: p in t ==> t[p].write == p.1
  {
  }

  /** The checking state entered after reading the first symbol. */
  function CheckState(first: char): State {
    if first == '0' then "q_check_sad" else "q_check_happy"
  }

  /** The first step on a non-empty binary input: move right into the matching checking state. */
  lemma GeneratedFirstStep(decSad: Label, decHappy: Label, s: string)
    requires |s| > 0 && (s[0] == '0' || s[0] == '1')
    ensures var m := GeneratedMachine(decSad, decHappy);
      StepConfig(m, ResetConfig(m, s)) == Config(InputTape(s), 1, CheckState(s[0]), false)
  {
    var m := GeneratedMachine(decSad, decHappy);
    var c := ResetConfig(m, s);
    assert ReadAt(m, c) == [s[0]];
    assert InputTape(s)[0 := [s[0]]] == InputTape(s);
  }

  /** Generated machine on "0": accepts iff the neutral-to-sad decision was sad. */
  lemma GeneratedOnZero(decSad: Label, decHappy: Label, maxSteps: int)
    requires maxSteps >= 2
    ensures var m := GeneratedMachine(decSad, decHappy);
      RunConfig(m, ResetConfig(m, "0"), maxSteps)
        == (Config(InputTape("0"), 1, if decSad == Sad then "q_accept" else "q_reject", true), 2)
  {
    var m := GeneratedMachine(decSad, decHappy);
    GeneratedFirstStep(decSad, decHappy, "0");
    var c := Config(InputTape("0"), 1, "q_check_sad", false);
    assert ReadAt(m, c) == "_";
    assert InputTape("0") - {1} == InputTape("0");
  }

  /** Generated machine on "1": accepts iff the neutral-to-happy decision was happy. */
  lemma GeneratedOnOne(decSad: Label, decHappy: Label, maxSteps: int)
    requires maxSteps >= 2
    ensures var m := GeneratedMachine(decSad, decHappy);
      RunConfig(m, ResetConfig(m, "1"), maxSteps)
        == (Config(InputTape("1"), 1, if decHappy == Happy then "q_accept" else "q_reject", true), 2)
  {
    var m := GeneratedMachine(decSad, decHappy);
    GeneratedFirstStep(decSad, decHappy, "1");
    var c := Config(InputTape("1"), 1, "q_check_happy", false);
    assert ReadAt(m, c) == "_";
    assert InputTape("1") - {1} == InputTape("1");
  }

  /** On the empty tape the machine rejects at once. */
  lemma GeneratedOnEmpty(decSad: Label, decHappy: Label, maxSteps: int)
    requires maxSteps >= 1
    ensures var m := GeneratedMachine(decSad, decHappy);
      RunConfig(m, ResetConfig(m, ""), maxSteps) == (Config(map[], 0, "q_reject", true), 1)
  {
    var m := GeneratedMachine(decSad, decHappy);
    assert InputTape("") == map[];
    assert ReadAt(m, ResetConfig(m, "")) == "_";
  }

  /**
   * A binary input of two or more symbols gets stuck: the checking state has no transition on a
   * non-blank symbol, so the machine halts there, neither accepting nor rejecting.
   */
  lemma GeneratedStuckOnLongInput(decSad: Label, decHappy: Label, s: string, maxSteps: int)
    requires |s| >= 2 && (s[0] == '0' || s[0] == '1') && (s[1] == '0' || s[1] == '1') && maxSteps >= 2
    ensures var m := GeneratedMachine(decSad, decHappy);
      var r := RunConfig(m, ResetConfig(m, s), maxSteps);
      && r == (Config(InputTape(s), 1, CheckState(s[0]), true), 2)
      && !IsFinal(m, r.0.state)
  {
    var m := GeneratedMachine(decSad, decHappy);
    GeneratedFirstStep(decSad, decHappy, s);
    var c := Config(InputTape(s), 1, CheckState(s[0]), false);
    assert ReadAt(m, c) == [s[1]];
    assert (c.state, [s[1]]) !in m.transitions;
  }

  /**
   * End to end: for the machine generated from two binary difference vectors, the run on "0"
   * accepts exactly when the neutral-to-sad vector decides sad, and the run on "1" exactly when the
   * neutral-to-happy vector decides happy; otherwise the run rejects.
   */
  lemma GeneratedMachineMatchesDecisions(binaryNs: seq<int>, binaryNt: seq<int>, maxSteps: int)
    requires maxSteps >= 2
    ensures var m := GeneratedMachine(Decide(binaryNs), Decide(binaryNt));
      var onZero := RunConfig(m, ResetConfig(m, "0"), maxSteps).0;
      var onOne := RunConfig(m, ResetConfig(m, "1"), maxSteps).0;
      && onZero.halted && onOne.halted
      && (onZero.state == "q_accept" <==> Count(binaryNs, 0) > Count(binaryNs, 1))
      && (onZero.state == "q_reject" <==> Count(binaryNs, 0) <= Count(binaryNs, 1))
      && (onOne.state == "q_accept" <==> Count(binaryNt, 1) > Count(binaryNt, 0))
      && (onOne.state == "q_reject" <==> Count(binaryNt, 1) <= Count(binaryNt, 0))
  {
    GeneratedOnZero(Decide(binaryNs), Decide(binaryNt), maxSteps);
    GeneratedOnOne(Decide(binaryNs), Decide(binaryNt), maxSteps);
  }
}
